/** Requests passing the breakpoint: each holds the serializer from its pause to its pop,
    while the user's commands and the timeouts fall where they may. The protocol is a state
    machine over schedules; the gate that runs it keeps the flows themselves. */
module PauseSession {
  import opened Options
  import opened Ir
  import opened OverrideAudit
  import opened Breakpoint

  /** A request that reached the breakpoint. */
  datatype Session = Session(flowId: string, original: Request, curated: Request, audit: Option<Audit>)

  /** How far a session has come: before the serializer, inside it before the pause, paused,
      woken or timed out, popped but still inside, and done. */
  datatype Phase = Waiting | Entered | Awaiting | Resumed | Settled(fate: Outcome) | Finished(fate: Outcome)

  predicate Inside(p: Phase) { p.Entered? || p.Awaiting? || p.Resumed? || p.Settled? }

  predicate OnHold(p: Phase) { p.Awaiting? || p.Resumed? }

  predicate HasFate(p: Phase) { p.Settled? || p.Finished? }

  /** One step of a session. */
  datatype Move = Acquire(t: nat) | PauseFlow(t: nat) | Wake(t: nat) | TimeOut(t: nat) | Pop(t: nat) | Leave(t: nat)

  /** A user's command, a token count that arrives, or the shutdown. */
  datatype Command =
    | Release(flowId: string, mutated: Option<Request>, payload: Option<Bytes>)
    | Drop(flowId: string)
    | ReAudit(flowId: string, curated: Request, audit: Option<Audit>)
    | CountArrives(flowId: string, tokens: Option<int>)
    | Shutdown

  datatype Step = Moves(move: Move) | Commands(command: Command)

  function PauseOf(session: Session): Event { Paused(session.flowId, session.original, session.curated, session.audit) }

  /** What a command adds to the record when it takes effect. */
  function EventOf(c: Command): Event {
    match c
    case Release(flowId, mutated, payload) => Released(flowId, mutated, payload)
    case Drop(flowId) => Dropped(flowId)
    case ReAudit(flowId, curated, audit) => ReAudited(flowId, curated, audit)
    case _ => Cleared
  }

  // ---- the state machine ----

  /** How far each session is, who holds the serializer, and every event so far. */
  datatype State = State(phases: seq<Phase>, holder: Option<nat>, trace: seq<Event>)

  function Start(sessions: seq<Session>): State { State(seq(|sessions|, _ => Waiting), None, []) }

  /** A command finds its flow paused; a shutdown always takes effect. */
  predicate Finds(trace: seq<Event>, c: Command) { c.Shutdown? || Since(trace, c.flowId).Some? }

  /** Some command since its pause woke the flow. */
  predicate Woken(trace: seq<Event>, flowId: string) {
    var events := Since(trace, flowId);
    events.Some? && WasWoken(events.value)
  }

  /** The move can be made. */
  predicate Enabled(sessions: seq<Session>, s: State, m: Move) {
    && m.t < |sessions| && m.t < |s.phases|
    && match m
       case Acquire(t) => s.phases[t] == Waiting && s.holder == None
       case PauseFlow(t) => s.phases[t] == Entered
       case Wake(t) => s.phases[t] == Awaiting && Woken(s.trace, sessions[t].flowId)
       case TimeOut(t) => s.phases[t] == Awaiting
       case Pop(t) => s.phases[t] == Resumed
       case Leave(t) => s.phases[t].Settled?
  }

  predicate Ready(sessions: seq<Session>, s: State, step: Step) {
    match step
    case Moves(m) => Enabled(sessions, s, m)
    case Commands(c) => Finds(s.trace, c)
  }

  /** The fate that the commands since its pause decide for a flow. */
  function FateOf(outbound: Request -> Bytes, trace: seq<Event>, flowId: string): Outcome {
    var events := Since(trace, flowId);
    if events.Some? then Verdict(outbound, events.value) else Refused
  }

  /** The effect of a move that can be made. */
  function Made(outbound: Request -> Bytes, sessions: seq<Session>, s: State, m: Move): State
    requires Enabled(sessions, s, m)
  {
    match m
    case Acquire(t) => s.(holder := Some(t), phases := s.phases[t := Entered])
    case PauseFlow(t) => s.(phases := s.phases[t := Awaiting], trace := s.trace + [PauseOf(sessions[t])])
    case Wake(t) => s.(phases := s.phases[t := Resumed])
    case TimeOut(t) => s.(phases := s.phases[t := Resumed])
    case Pop(t) =>
      s.(phases := s.phases[t := Settled(FateOf(outbound, s.trace, sessions[t].flowId))],
         trace := s.trace + [Popped(sessions[t].flowId)])
    case Leave(t) => s.(holder := None, phases := s.phases[t := Finished(s.phases[t].fate)])
  }

  /** The effect of a command or a count on the record. */
  function Given(s: State, c: Command): State {
    if c.CountArrives? || !Finds(s.trace, c) then s else s.(trace := s.trace + [EventOf(c)])
  }

  function After(outbound: Request -> Bytes, sessions: seq<Session>, s: State, step: Step): State {
    match step
    case Moves(m) => if Enabled(sessions, s, m) then Made(outbound, sessions, s, m) else s
    case Commands(c) => Given(s, c)
  }

  /** A whole schedule, steps that are not ready being passed over. */
  function Play(outbound: Request -> Bytes, sessions: seq<Session>, schedule: seq<Step>): State {
    if schedule == [] then Start(sessions)
    else
      After(outbound, sessions, Play(outbound, sessions, schedule[..|schedule| - 1]), schedule[|schedule| - 1])
  }

  // ---- what every schedule keeps ----

  /** The fate is what the commands between the session's own pause and its pop decide. */
  ghost predicate FateAt(outbound: Request -> Bytes, trace: seq<Event>, session: Session, fate: Outcome, n: nat) {
    && n < |trace| && trace[n] == Popped(session.flowId)
    && Since(trace[..n], session.flowId).Some?
    && var events := Since(trace[..n], session.flowId).value;
       events[0] == PauseOf(session) && fate == Verdict(outbound, events)
  }

  ghost predicate Judged(outbound: Request -> Bytes, trace: seq<Event>, session: Session, fate: Outcome) {
    exists n: nat :: FateAt(outbound, trace, session, fate, n)
  }

  lemma StaysJudged(outbound: Request -> Bytes, trace: seq<Event>, e: Event, session: Session, fate: Outcome)
    requires Judged(outbound, trace, session, fate)
    ensures Judged(outbound, trace + [e], session, fate)
  {
    var n: nat :| FateAt(outbound, trace, session, fate, n);
    assert (trace + [e])[..n] == trace[..n];
    assert FateAt(outbound, trace + [e], session, fate, n);
  }

  lemma JudgedByPop(outbound: Request -> Bytes, trace: seq<Event>, session: Session)
    requires OwnPause(session, trace)
    ensures Judged(outbound, trace + [Popped(session.flowId)], session, FateOf(outbound, trace, session.flowId))
  {
    var after := trace + [Popped(session.flowId)];
    assert after[..|trace|] == trace;
    assert FateAt(outbound, after, session, FateOf(outbound, trace, session.flowId), |trace|);
  }

  /** The session's flow is paused, under its own pause. */
  ghost predicate OwnPause(session: Session, trace: seq<Event>) {
    && Since(trace, session.flowId).Some?
    && Since(trace, session.flowId).value[0] == PauseOf(session)
  }

  /** Only the session on hold has its flow paused. */
  ghost predicate OnlyHeldArePaused(sessions: seq<Session>, s: State)
    requires |s.phases| == |sessions| && (s.holder.Some? ==> s.holder.value < |sessions|)
  {
    if s.holder.Some? && OnHold(s.phases[s.holder.value]) then
      var session := sessions[s.holder.value];
      OwnPause(session, s.trace) && forall id | id != session.flowId :: Since(s.trace, id) == None
    else forall id :: Since(s.trace, id) == None
  }

  /** Only the holder of the serializer is inside; its flow, under its own pause, is the only
      one paused; and every settled session met the fate its commands decide. */
  ghost predicate InOrder(outbound: Request -> Bytes, sessions: seq<Session>, s: State) {
    && |s.phases| == |sessions| && (s.holder.Some? ==> s.holder.value < |sessions|)
    && (forall t | 0 <= t < |sessions| :: Inside(s.phases[t]) <==> s.holder == Some(t))
    && (forall t | 0 <= t < |sessions| && HasFate(s.phases[t]) ::
          Judged(outbound, s.trace, sessions[t], s.phases[t].fate))
    && OnlyHeldArePaused(sessions, s)
  }

  lemma AllStayJudged(
      outbound: Request -> Bytes, sessions: seq<Session>, phases: seq<Phase>, trace: seq<Event>, e: Event)
    requires |phases| == |sessions|
    requires forall t | 0 <= t < |sessions| && HasFate(phases[t]) ::
      Judged(outbound, trace, sessions[t], phases[t].fate)
    ensures forall t | 0 <= t < |sessions| && HasFate(phases[t]) ::
      Judged(outbound, trace + [e], sessions[t], phases[t].fate)
  {
    hide Judged;
    forall t | 0 <= t < |sessions| && HasFate(phases[t])
      ensures Judged(outbound, trace + [e], sessions[t], phases[t].fate)
    {
      StaysJudged(outbound, trace, e, sessions[t], phases[t].fate);
    }
  }

  lemma StartIsInOrder(outbound: Request -> Bytes, sessions: seq<Session>)
    ensures InOrder(outbound, sessions, Start(sessions))
  {
  }

  /** A command leaves everything in order. */
  lemma GivenKeepsOrder(outbound: Request -> Bytes, sessions: seq<Session>, s: State, c: Command)
    requires InOrder(outbound, sessions, s)
    ensures InOrder(outbound, sessions, Given(s, c))
  {
    hide Judged, Since;
    if !c.CountArrives? && Finds(s.trace, c) {
      SinceAppend(s.trace, EventOf(c));
      AllStayJudged(outbound, sessions, s.phases, s.trace, EventOf(c));
    }
  }

  lemma PauseKeepsOrder(outbound: Request -> Bytes, sessions: seq<Session>, s: State, t: nat)
    requires InOrder(outbound, sessions, s) && Enabled(sessions, s, PauseFlow(t))
    ensures InOrder(outbound, sessions, Made(outbound, sessions, s, PauseFlow(t)))
  {
    hide Judged, Since;
    SinceAppend(s.trace, PauseOf(sessions[t]));
    AllStayJudged(outbound, sessions, s.phases, s.trace, PauseOf(sessions[t]));
  }

  lemma PopKeepsOrder(outbound: Request -> Bytes, sessions: seq<Session>, s: State, t: nat)
    requires InOrder(outbound, sessions, s) && Enabled(sessions, s, Pop(t))
    ensures InOrder(outbound, sessions, Made(outbound, sessions, s, Pop(t)))
  {
    hide Judged, Since, FateOf;
    SinceAppend(s.trace, Popped(sessions[t].flowId));
    AllStayJudged(outbound, sessions, s.phases, s.trace, Popped(sessions[t].flowId));
    JudgedByPop(outbound, s.trace, sessions[t]);
  }

  /** So does a move. */
  lemma MadeKeepsOrder(outbound: Request -> Bytes, sessions: seq<Session>, s: State, m: Move)
    requires InOrder(outbound, sessions, s) && Enabled(sessions, s, m)
    ensures InOrder(outbound, sessions, Made(outbound, sessions, s, m))
  {
    hide Judged, Since, FateOf;
    match m {
      case PauseFlow(t) => PauseKeepsOrder(outbound, sessions, s, t);
      case Pop(t) => PopKeepsOrder(outbound, sessions, s, t);
      case _ =>
    }
  }

  /** Every schedule keeps the protocol in order. */
  lemma {:induction false} PlayIsInOrder(outbound: Request -> Bytes, sessions: seq<Session>, schedule: seq<Step>)
    ensures InOrder(outbound, sessions, Play(outbound, sessions, schedule))
  {
    hide InOrder, Made, Given, Enabled, Start;
    if schedule == [] {
      StartIsInOrder(outbound, sessions);
    } else {
      var front, step := schedule[..|schedule| - 1], schedule[|schedule| - 1];
      PlayIsInOrder(outbound, sessions, front);
      var s := Play(outbound, sessions, front);
      match step {
        case Moves(m) => if Enabled(sessions, s, m) { MadeKeepsOrder(outbound, sessions, s, m); }
        case Commands(c) => GivenKeepsOrder(outbound, sessions, s, c);
      }
    }
  }

  /** At every moment of every schedule at most one flow is paused. */
  lemma AtMostOneIsPaused(
    outbound: Request -> Bytes, sessions: seq<Session>, schedule: seq<Step>, flowId: string, other: string)
    requires var trace := Play(outbound, sessions, schedule).trace;
             Since(trace, flowId).Some? && Since(trace, other).Some?
    ensures flowId == other
  {
    hide Play, Since, Judged;
    PlayIsInOrder(outbound, sessions, schedule);
  }

  /** A session has a fate exactly when its pop has been made. */
  lemma {:induction false} FateIffPopped(
      outbound: Request -> Bytes, sessions: seq<Session>, schedule: seq<Step>, t: nat)
    requires t < |sessions|
    ensures |Play(outbound, sessions, schedule).phases| == |sessions|
    ensures HasFate(Play(outbound, sessions, schedule).phases[t]) <==>
      exists k | 0 <= k < |schedule| ::
        schedule[k] == Moves(Pop(t)) && Enabled(sessions, Play(outbound, sessions, schedule[..k]), Pop(t))
  {
    hide Since, FateOf;
    if schedule != [] {
      var front, last := schedule[..|schedule| - 1], |schedule| - 1;
      FateIffPopped(outbound, sessions, front, t);
      forall k | 0 <= k < last ensures front[k] == schedule[k] && front[..k] == schedule[..k] {}
    }
  }

  // ---- the fate, read off the schedule ----

  /** A drop of the flow, or a shutdown. */
  predicate IsDrop(step: Step, flowId: string) {
    step.Commands? && (step.command.Shutdown? || step.command == Drop(flowId))
  }

  predicate IsRelease(step: Step, flowId: string) {
    step.Commands? && step.command.Release? && step.command.flowId == flowId
  }

  predicate IsReAudit(step: Step, flowId: string) {
    step.Commands? && step.command.ReAudit? && step.command.flowId == flowId
  }

  /** The last wanted step between two others that took effect. */
  function LastTaken(schedule: seq<Step>, done: seq<bool>, k: nat, n: nat, wanted: Step -> bool): (last: Option<nat>)
    requires n <= |schedule| && |done| == |schedule|
    ensures last.Some? ==>
      && k < last.value < n && done[last.value] && wanted(schedule[last.value])
      && forall j | last.value < j < n :: !(done[j] && wanted(schedule[j]))
    ensures last.None? ==> forall j | k < j < n :: !(done[j] && wanted(schedule[j]))
  {
    if n <= k + 1 then None
    else if done[n - 1] && wanted(schedule[n - 1]) then Some(n - 1)
    else LastTaken(schedule, done, k, n - 1, wanted)
  }

  function LastReleaseStep(schedule: seq<Step>, done: seq<bool>, k: nat, n: nat, flowId: string): Option<nat>
    requires n <= |schedule| && |done| == |schedule|
  {
    LastTaken(schedule, done, k, n, step => IsRelease(step, flowId))
  }

  function LastReAuditStep(schedule: seq<Step>, done: seq<bool>, k: nat, n: nat, flowId: string): Option<nat>
    requires n <= |schedule| && |done| == |schedule|
  {
    LastTaken(schedule, done, k, n, step => IsReAudit(step, flowId))
  }

  /** The fate that the steps after the pause and before the pop ask for. Any drop refuses.
      Otherwise the last release counts: its edited request, or else the request as last
      audited; an edit voids the audit; the bytes are those submitted, or else those of a
      request that is no longer the original. */
  ghost predicate FateAnswers(
      outbound: Request -> Bytes, session: Session, schedule: seq<Step>, done: seq<bool>, k: nat, n: nat, fate: Outcome)
    requires n <= |schedule| && |done| == |schedule|
  {
    var release := LastReleaseStep(schedule, done, k, n, session.flowId);
    var reAudit := LastReAuditStep(schedule, done, k, n, session.flowId);
    var (edited, bytes) :=
      if release.Some? then (schedule[release.value].command.mutated, schedule[release.value].command.payload)
      else (None, None);
    var (curated, audit) :=
      if reAudit.Some? then (schedule[reAudit.value].command.curated, schedule[reAudit.value].command.audit)
      else (session.curated, session.audit);
    && (fate.Refused? <==> exists j | k < j < n :: done[j] && IsDrop(schedule[j], session.flowId))
    && (fate.Forwarded? ==>
          && fate.finalIr == (if edited.Some? then edited.value else curated)
          && (fate.mutatedManually <==> fate.finalIr != curated)
          && fate.audit == (if fate.mutatedManually then None else audit)
          && (bytes.Some? ==> fate.payload == bytes)
          && (bytes.None? ==>
                fate.payload == if fate.finalIr == session.original then None else Some(outbound(fate.finalIr))))
  }

  /** Exactly the steps that are ready are done. */
  ghost predicate DoneWhenReady(
      outbound: Request -> Bytes, sessions: seq<Session>, schedule: seq<Step>, done: seq<bool>)
  {
    && |done| == |schedule|
    && forall k | 0 <= k < |schedule| ::
         done[k] <==> Ready(sessions, Play(outbound, sessions, schedule[..k]), schedule[k])
  }

  /** The step puts an event about this flow on record when it is done. */
  predicate Tells(step: Step, flowId: string) {
    step.Commands? && !step.command.CountArrives? && Concerns(EventOf(step.command), flowId)
  }

  /** What the steps in between put on record about a flow. */
  function Heard(schedule: seq<Step>, done: seq<bool>, flowId: string, k: nat, n: nat): seq<Event>
    requires n <= |schedule| && |done| == |schedule|
  {
    if n <= k + 1 then []
    else
      var front := Heard(schedule, done, flowId, k, n - 1);
      if done[n - 1] && Tells(schedule[n - 1], flowId) then front + [EventOf(schedule[n - 1].command)] else front
  }

  lemma PlayStep(outbound: Request -> Bytes, sessions: seq<Session>, schedule: seq<Step>, i: nat)
    requires i < |schedule|
    ensures Play(outbound, sessions, schedule[..i + 1])
         == After(outbound, sessions, Play(outbound, sessions, schedule[..i]), schedule[i])
  {
    hide After;
    assert schedule[..i + 1][..i] == schedule[..i];
  }

  lemma NothingHeldYet(outbound: Request -> Bytes, sessions: seq<Session>, schedule: seq<Step>, t: nat)
    requires t < |sessions|
    ensures var phases := Play(outbound, sessions, schedule[..0]).phases;
            |phases| == |sessions| && !OnHold(phases[t]) && !HasFate(phases[t])
  {
    assert schedule[..0] == [];
  }

  /** Only its own pause puts a session on hold, and nobody else moves while it is. */
  lemma MoveOnHold(outbound: Request -> Bytes, sessions: seq<Session>, s: State, m: Move, t: nat)
    requires InOrder(outbound, sessions, s) && t < |sessions|
    requires OnHold(After(outbound, sessions, s, Moves(m)).phases[t])
    requires !(m == PauseFlow(t) && Enabled(sessions, s, m))
    ensures OnHold(s.phases[t]) && After(outbound, sessions, s, Moves(m)).trace == s.trace
  {
    hide Judged, OnlyHeldArePaused, FateOf;
  }

  /** Only its pop gives a session its fate, for good. */
  lemma MoveKeepsFate(outbound: Request -> Bytes, sessions: seq<Session>, s: State, m: Move, t: nat)
    requires InOrder(outbound, sessions, s) && t < |sessions|
    requires HasFate(After(outbound, sessions, s, Moves(m)).phases[t])
    requires !(m == Pop(t) && Enabled(sessions, s, m))
    ensures HasFate(s.phases[t]) && s.phases[t].fate == After(outbound, sessions, s, Moves(m)).phases[t].fate
  {
    hide Judged, OnlyHeldArePaused, FateOf;
  }

  /** While a session is on hold, the record of its flow is its own pause and what was heard
      since. */
  lemma {:induction false} HeldSince(
      outbound: Request -> Bytes, sessions: seq<Session>, schedule: seq<Step>, done: seq<bool>, i: nat, t: nat)
    returns (k: nat)
    requires DoneWhenReady(outbound, sessions, schedule, done) && i <= |schedule| && t < |sessions|
    requires |Play(outbound, sessions, schedule[..i]).phases| == |sessions|
    requires OnHold(Play(outbound, sessions, schedule[..i]).phases[t])
    ensures k < i && schedule[k] == Moves(PauseFlow(t)) && done[k]
    ensures Since(Play(outbound, sessions, schedule[..i]).trace, sessions[t].flowId)
         == Some([PauseOf(sessions[t])] + Heard(schedule, done, sessions[t].flowId, k, i))
  {
    hide Since, InOrder, Made, Enabled, Given, Heard;
    NothingHeldYet(outbound, sessions, schedule, t);
    if i == 0 {
      assert false;
    } else {
      var s, step := Play(outbound, sessions, schedule[..i - 1]), schedule[i - 1];
      PlayStep(outbound, sessions, schedule, i - 1);
      PlayIsInOrder(outbound, sessions, schedule[..i - 1]);
      PhaseCount(outbound, sessions, s);
      if step == Moves(PauseFlow(t)) && done[i - 1] {
        k := i - 1;
        PausedNow(outbound, sessions, s, t);
        NothingHeard(schedule, done, sessions[t], k);
      } else {
        if step.Moves? {
          MoveOnHold(outbound, sessions, s, step.move, t);
        } else {
          CommandKeepsPhases(s, step.command);
        }
        k := HeldSince(outbound, sessions, schedule, done, i - 1, t);
        FirstHeard(schedule, done, sessions[t], k, i);
        if step.Commands? {
          CommandTells(s, step.command, sessions[t]);
        }
      }
    }
  }

  lemma PhaseCount(outbound: Request -> Bytes, sessions: seq<Session>, s: State)
    requires InOrder(outbound, sessions, s)
    ensures |s.phases| == |sessions|
  {
  }

  lemma PausedNow(outbound: Request -> Bytes, sessions: seq<Session>, s: State, t: nat)
    requires t < |sessions| && Enabled(sessions, s, PauseFlow(t))
    ensures Since(Made(outbound, sessions, s, PauseFlow(t)).trace, sessions[t].flowId) == Some([PauseOf(sessions[t])])
  {
    SinceAppend(s.trace, PauseOf(sessions[t]));
  }

  lemma NothingHeard(schedule: seq<Step>, done: seq<bool>, session: Session, k: nat)
    requires k < |schedule| && |done| == |schedule|
    ensures [PauseOf(session)] + Heard(schedule, done, session.flowId, k, k + 1) == [PauseOf(session)]
  {
  }

  lemma CommandKeepsPhases(s: State, c: Command)
    ensures Given(s, c).phases == s.phases
  {
  }

  /** A command adds its event to the record of the flows it is about. */
  lemma CommandTells(s: State, c: Command, session: Session)
    requires Since(s.trace, session.flowId).Some?
    ensures Since(Given(s, c).trace, session.flowId)
         == if Finds(s.trace, c) && Tells(Commands(c), session.flowId) then
              Some(Since(s.trace, session.flowId).value + [EventOf(c)])
            else Since(s.trace, session.flowId)
  {
    hide Since;
    SinceAppend(s.trace, EventOf(c));
  }

  lemma FirstHeard(schedule: seq<Step>, done: seq<bool>, session: Session, k: nat, n: nat)
    requires k < n <= |schedule| && |done| == |schedule|
    ensures n > k + 1 ==>
      var events := [PauseOf(session)] + Heard(schedule, done, session.flowId, k, n - 1);
      [PauseOf(session)] + Heard(schedule, done, session.flowId, k, n)
        == if done[n - 1] && Tells(schedule[n - 1], session.flowId) then events + [EventOf(schedule[n - 1].command)]
           else events
  {
  }

  /** What was heard, in terms of the steps. */
  lemma {:induction false} DropHeard(schedule: seq<Step>, done: seq<bool>, session: Session, k: nat, n: nat)
    requires k < n <= |schedule| && |done| == |schedule|
    ensures WasDropped([PauseOf(session)] + Heard(schedule, done, session.flowId, k, n))
      <==> exists j | k < j < n :: done[j] && IsDrop(schedule[j], session.flowId)
  {
    hide WasDropped, WasWoken, LastRelease, LastAudit, Heard;
    StartHeard(schedule, done, session, k);
    if n > k + 1 {
      DropHeard(schedule, done, session, k, n - 1);
      OneMoreHeard(schedule, done, session, k, n);
    }
  }

  lemma {:induction false} WakeHeard(schedule: seq<Step>, done: seq<bool>, session: Session, k: nat, n: nat)
    requires k < n <= |schedule| && |done| == |schedule|
    ensures WasWoken([PauseOf(session)] + Heard(schedule, done, session.flowId, k, n))
      <==> exists j | k < j < n ::
             done[j] && (IsDrop(schedule[j], session.flowId) || IsRelease(schedule[j], session.flowId))
  {
    hide WasDropped, WasWoken, LastRelease, LastAudit, Heard;
    StartHeard(schedule, done, session, k);
    if n > k + 1 {
      WakeHeard(schedule, done, session, k, n - 1);
      OneMoreHeard(schedule, done, session, k, n);
    }
  }

  lemma {:induction false} ReleaseHeard(schedule: seq<Step>, done: seq<bool>, session: Session, k: nat, n: nat)
    requires k < n <= |schedule| && |done| == |schedule|
    ensures var release := LastReleaseStep(schedule, done, k, n, session.flowId);
            LastRelease([PauseOf(session)] + Heard(schedule, done, session.flowId, k, n))
              == if release.None? then (None, None)
                 else (schedule[release.value].command.mutated, schedule[release.value].command.payload)
  {
    hide WasDropped, WasWoken, LastRelease, LastAudit, Heard;
    StartHeard(schedule, done, session, k);
    if n > k + 1 {
      ReleaseHeard(schedule, done, session, k, n - 1);
      OneMoreHeard(schedule, done, session, k, n);
    }
  }

  lemma {:induction false} ReAuditHeard(schedule: seq<Step>, done: seq<bool>, session: Session, k: nat, n: nat)
    requires k < n <= |schedule| && |done| == |schedule|
    ensures var reAudit := LastReAuditStep(schedule, done, k, n, session.flowId);
            LastAudit([PauseOf(session)] + Heard(schedule, done, session.flowId, k, n))
              == if reAudit.Some? then (schedule[reAudit.value].command.curated, schedule[reAudit.value].command.audit)
                 else (session.curated, session.audit)
  {
    hide WasDropped, WasWoken, LastRelease, LastAudit, Heard;
    StartHeard(schedule, done, session, k);
    if n > k + 1 {
      ReAuditHeard(schedule, done, session, k, n - 1);
      OneMoreHeard(schedule, done, session, k, n);
    }
  }

  lemma StartHeard(schedule: seq<Step>, done: seq<bool>, session: Session, k: nat)
    requires k < |schedule| && |done| == |schedule|
    ensures [PauseOf(session)] + Heard(schedule, done, session.flowId, k, k + 1) == [PauseOf(session)]
    ensures var events := [PauseOf(session)];
            && !WasDropped(events) && !WasWoken(events)
            && LastRelease(events) == (None, None) && LastAudit(events) == (session.curated, session.audit)
  {
    NothingHeard(schedule, done, session, k);
    OnlyPaused(session);
  }

  /** What one more step that was heard changes. */
  lemma OneMoreHeard(schedule: seq<Step>, done: seq<bool>, session: Session, k: nat, n: nat)
    requires k + 1 < n <= |schedule| && |done| == |schedule|
    ensures var before := [PauseOf(session)] + Heard(schedule, done, session.flowId, k, n - 1);
            var after := [PauseOf(session)] + Heard(schedule, done, session.flowId, k, n);
            var step := schedule[n - 1];
            && (WasDropped(after) <==> WasDropped(before) || (done[n - 1] && IsDrop(step, session.flowId)))
            && (WasWoken(after) <==>
                  || WasWoken(before)
                  || (done[n - 1] && (IsDrop(step, session.flowId) || IsRelease(step, session.flowId))))
            && LastRelease(after)
                 == (if done[n - 1] && IsRelease(step, session.flowId) then (step.command.mutated, step.command.payload)
                     else LastRelease(before))
            && LastAudit(after)
                 == (if done[n - 1] && IsReAudit(step, session.flowId) then (step.command.curated, step.command.audit)
                     else LastAudit(before))
  {
    hide WasDropped, WasWoken, LastRelease, LastAudit, Heard;
    FirstHeard(schedule, done, session, k, n);
    var events := [PauseOf(session)] + Heard(schedule, done, session.flowId, k, n - 1);
    if done[n - 1] && Tells(schedule[n - 1], session.flowId) { EventAppend(events, EventOf(schedule[n - 1].command)); }
  }

  lemma OnlyPaused(session: Session)
    ensures var events := [PauseOf(session)];
            && !WasDropped(events) && !WasWoken(events)
            && LastRelease(events) == (None, None) && LastAudit(events) == (session.curated, session.audit)
  {
    assert [PauseOf(session)][..0] == [];
  }

  /** Every fate answers the steps between the session's own pause and its own pop. */
  lemma {:induction false} FateIsAnswered(
      outbound: Request -> Bytes, sessions: seq<Session>, schedule: seq<Step>, done: seq<bool>, i: nat, t: nat)
    returns (k: nat, n: nat)
    requires DoneWhenReady(outbound, sessions, schedule, done) && i <= |schedule| && t < |sessions|
    requires |Play(outbound, sessions, schedule[..i]).phases| == |sessions|
    requires HasFate(Play(outbound, sessions, schedule[..i]).phases[t])
    ensures k < n < i && schedule[k] == Moves(PauseFlow(t)) && done[k] && schedule[n] == Moves(Pop(t)) && done[n]
    ensures FateAnswers(outbound, sessions[t], schedule, done, k, n,
                        Play(outbound, sessions, schedule[..i]).phases[t].fate)
  {
    hide Play, Since, FateAnswers, InOrder, Made, Enabled, Given, Heard, FateOf;
    NothingHeldYet(outbound, sessions, schedule, t);
    if i == 0 {
      assert false;
    } else {
      var s, step := Play(outbound, sessions, schedule[..i - 1]), schedule[i - 1];
      PlayStep(outbound, sessions, schedule, i - 1);
      PlayIsInOrder(outbound, sessions, schedule[..i - 1]);
      PhaseCount(outbound, sessions, s);
      if step == Moves(Pop(t)) && done[i - 1] {
        n := i - 1;
        PoppedNow(outbound, sessions, s, t);
        k := HeldSince(outbound, sessions, schedule, done, n, t);
        VerdictAnswers(outbound, sessions[t], schedule, done, k, n, s.trace);
      } else {
        if step.Moves? {
          MoveKeepsFate(outbound, sessions, s, step.move, t);
        } else {
          CommandKeepsPhases(s, step.command);
        }
        k, n := FateIsAnswered(outbound, sessions, schedule, done, i - 1, t);
      }
    }
  }

  lemma PoppedNow(outbound: Request -> Bytes, sessions: seq<Session>, s: State, t: nat)
    requires t < |sessions| && Enabled(sessions, s, Pop(t))
    ensures OnHold(s.phases[t])
    ensures Made(outbound, sessions, s, Pop(t)).phases[t] == Settled(FateOf(outbound, s.trace, sessions[t].flowId))
  {
  }

  lemma VerdictAnswers(
      outbound: Request -> Bytes, session: Session, schedule: seq<Step>, done: seq<bool>, k: nat, n: nat,
      trace: seq<Event>)
    requires k < n <= |schedule| && |done| == |schedule|
    requires Since(trace, session.flowId) == Some([PauseOf(session)] + Heard(schedule, done, session.flowId, k, n))
    ensures FateAnswers(outbound, session, schedule, done, k, n, FateOf(outbound, trace, session.flowId))
  {
    hide Since, WasDropped, LastRelease, LastAudit, Heard;
    DropHeard(schedule, done, session, k, n);
    ReleaseHeard(schedule, done, session, k, n);
    ReAuditHeard(schedule, done, session, k, n);
  }

  /** A waiting session can go on without its timeout exactly when a release, a drop or a
      shutdown took effect since its pause. */
  lemma WokenExactly(
      outbound: Request -> Bytes, sessions: seq<Session>, schedule: seq<Step>, done: seq<bool>, i: nat, t: nat)
    returns (k: nat)
    requires DoneWhenReady(outbound, sessions, schedule, done) && i <= |schedule| && t < |sessions|
    requires |Play(outbound, sessions, schedule[..i]).phases| == |sessions|
    requires Play(outbound, sessions, schedule[..i]).phases[t] == Awaiting
    ensures k < i && schedule[k] == Moves(PauseFlow(t)) && done[k]
    ensures Enabled(sessions, Play(outbound, sessions, schedule[..i]), Wake(t)) <==>
      exists j | k < j < i ::
        done[j] && (IsDrop(schedule[j], sessions[t].flowId) || IsRelease(schedule[j], sessions[t].flowId))
  {
    hide Play, Since, WasWoken, Heard;
    k := HeldSince(outbound, sessions, schedule, done, i, t);
    WakeHeard(schedule, done, sessions[t], k, i);
  }
}
