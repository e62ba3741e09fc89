/** The gate that runs the breakpoint's protocol: it keeps the flows themselves and refines
    the state machine of the sessions. */
module PauseGate {
  import opened Options
  import opened Ir
  import opened Breakpoint
  import opened PauseSession

  // ---- the gate ----

  class Gate {
    const outbound: Request -> Bytes
    const sessions: seq<Session>
    const breakpoints: Breakpoints
    var phases: seq<Phase>
    /** Who holds the serializer. */
    var holder: Option<nat>

    ghost function Now(): State
      reads this, breakpoints
    {
      State(phases, holder, breakpoints.trace)
    }

    ghost predicate Valid()
      reads this, breakpoints, breakpoints.paused.Values
    {
      breakpoints.Valid() && InOrder(outbound, sessions, Now())
    }

    constructor (outbound: Request -> Bytes, sessions: seq<Session>)
      ensures Valid() && fresh(breakpoints) && this.outbound == outbound && this.sessions == sessions
      ensures Now() == Start(sessions) && breakpoints.paused == map[]
    {
      this.outbound, this.sessions, holder := outbound, sessions, None;
      breakpoints := new Breakpoints();
      phases := seq(|sessions|, _ => Waiting);
      new;
      StartIsInOrder(outbound, sessions);
    }

    method CanMove(m: Move) returns (can: bool)
      requires Valid()
      ensures can <==> Enabled(sessions, Now(), m)
    {
      hide Since, InOrder;
      if m.t >= |sessions| || m.t >= |phases| { return false; }
      match m {
        case Acquire(t) => can := phases[t] == Waiting && holder == None;
        case PauseFlow(t) => can := phases[t] == Entered;
        case Wake(t) =>
          can := phases[t] == Awaiting && sessions[t].flowId in breakpoints.paused
                 && breakpoints.paused[sessions[t].flowId].woken;
        case TimeOut(t) => can := phases[t] == Awaiting;
        case Pop(t) => can := phases[t] == Resumed;
        case Leave(t) => can := phases[t].Settled?;
      }
    }

    /** The session's flow is registered. */
    method PauseStep(t: nat)
      requires Valid() && Enabled(sessions, Now(), PauseFlow(t))
      modifies this`phases, breakpoints`paused, breakpoints`trace
      ensures breakpoints.Valid() && Now() == Made(outbound, sessions, old(Now()), PauseFlow(t))
      ensures forall id | id in breakpoints.paused ::
        || (id in old(breakpoints.paused) && breakpoints.paused[id] == old(breakpoints.paused)[id])
        || fresh(breakpoints.paused[id])
    {
      hide Breakpoints.Valid, InOrder;
      var session := sessions[t];
      breakpoints.Pause(session.flowId, session.original, session.curated, session.audit);
      phases := phases[t := Awaiting];
    }

    /** The session's flow is taken out, and its fate read off. */
    method PopStep(t: nat)
      requires Valid() && Enabled(sessions, Now(), Pop(t))
      modifies this`phases, breakpoints`paused, breakpoints`trace
      ensures breakpoints.Valid() && Now() == Made(outbound, sessions, old(Now()), Pop(t))
      ensures breakpoints.paused == old(breakpoints.paused) - {sessions[t].flowId}
    {
      HeldIsPaused(this, t);
      hide Breakpoints.Valid, InOrder, PausedFlow.Matches, Since, Verdict;
      ghost var trace := breakpoints.trace;
      var popped := breakpoints.PopPaused(sessions[t].flowId);
      var fate := popped.value.Settle(outbound, Since(trace, sessions[t].flowId).value);
      phases := phases[t := Settled(fate)];
    }

    /** One step of a session that can take it. */
    method Advance(m: Move)
      requires Valid() && Enabled(sessions, Now(), m)
      modifies this`phases, this`holder, breakpoints`paused, breakpoints`trace
      ensures Valid() && Now() == Made(outbound, sessions, old(Now()), m)
      ensures forall id | id in breakpoints.paused ::
        || (id in old(breakpoints.paused) && breakpoints.paused[id] == old(breakpoints.paused)[id])
        || fresh(breakpoints.paused[id])
    {
      MadeKeepsOrder(outbound, sessions, Now(), m);
      hide Breakpoints.Valid, InOrder, FateOf;
      match m {
        case Acquire(t) => holder, phases := Some(t), phases[t := Entered];
        case PauseFlow(t) => PauseStep(t);
        case Wake(t) => phases := phases[t := Resumed];
        case TimeOut(t) => phases := phases[t := Resumed];
        case Pop(t) => PopStep(t);
        case Leave(t) => holder, phases := None, phases[t := Finished(phases[t].fate)];
      }
    }

    /** One command, or one count that arrives. */
    method Perform(c: Command) returns (ok: bool)
      requires Valid()
      modifies breakpoints`trace, breakpoints.paused.Values
      ensures Valid() && (ok <==> Finds(old(breakpoints.trace), c)) && Now() == Given(old(Now()), c)
    {
      GivenKeepsOrder(outbound, sessions, Now(), c);
      hide Breakpoints.Valid, InOrder, Finds;
      ok := Execute(breakpoints, c);
    }
  }

  method Execute(breakpoints: Breakpoints, c: Command) returns (ok: bool)
    requires breakpoints.Valid()
    modifies breakpoints`trace, breakpoints.paused.Values
    ensures breakpoints.Valid() && (ok <==> Finds(old(breakpoints.trace), c))
    ensures breakpoints.trace
         == if ok && !c.CountArrives? then old(breakpoints.trace) + [EventOf(c)] else old(breakpoints.trace)
  {
    FindsThePaused(breakpoints, c);
    hide Breakpoints.Valid, Finds;
    match c {
      case Release(flowId, mutated, payload) => ok := breakpoints.Release(flowId, mutated, payload);
      case Drop(flowId) => ok := breakpoints.Drop(flowId);
      case ReAudit(flowId, curated, audit) => ok := breakpoints.ReAudit(flowId, curated, audit);
      case CountArrives(flowId, tokens) => ok := breakpoints.SetTokensBefore(flowId, tokens);
      case Shutdown => breakpoints.ClearAll(); ok := true;
    }
  }

  lemma FindsThePaused(breakpoints: Breakpoints, c: Command)
    requires breakpoints.Valid()
    ensures Finds(breakpoints.trace, c) <==> c.Shutdown? || c.flowId in breakpoints.paused
  {
    hide PausedFlow.Matches, Since;
  }

  lemma HeldIsPaused(gate: Gate, t: nat)
    requires gate.Valid() && t < |gate.sessions| && OnHold(gate.phases[t])
    ensures gate.sessions[t].flowId in gate.breakpoints.paused
    ensures Since(gate.breakpoints.trace, gate.sessions[t].flowId).Some?
  {
    hide PausedFlow.Matches, Since, Judged;
  }

  /** The fate of each session, once it has met it. */
  function Fates(phases: seq<Phase>): (fates: seq<Option<Outcome>>)
    ensures |fates| == |phases|
    ensures forall t | 0 <= t < |phases| ::
      fates[t] == if HasFate(phases[t]) then Some(phases[t].fate) else None
  {
    seq(|phases|, t requires 0 <= t < |phases| => if HasFate(phases[t]) then Some(phases[t].fate) else None)
  }

  /** Any schedule of steps and commands: exactly the steps that are ready succeed; a session
      has a fate exactly when its pop was made, and it is the one that the successful commands
      between its own pause and its pop ask for; and never are two flows paused at once. */
  method Run(outbound: Request -> Bytes, sessions: seq<Session>, schedule: seq<Step>)
    returns (fates: seq<Option<Outcome>>, done: seq<bool>)
    ensures |fates| == |sessions| && |done| == |schedule|
    ensures fates == Fates(Play(outbound, sessions, schedule).phases)
    ensures forall k | 0 <= k < |schedule| ::
      done[k] <==> Ready(sessions, Play(outbound, sessions, schedule[..k]), schedule[k])
    ensures forall t | 0 <= t < |sessions| ::
      fates[t].Some? <==> exists k | 0 <= k < |schedule| :: schedule[k] == Moves(Pop(t)) && done[k]
    ensures forall t | 0 <= t < |sessions| && fates[t].Some? ::
      exists k, n | 0 <= k < n < |schedule| ::
        && schedule[k] == Moves(PauseFlow(t)) && done[k] && schedule[n] == Moves(Pop(t)) && done[n]
        && FateAnswers(outbound, sessions[t], schedule, done, k, n, fates[t].value)
    ensures forall t | 0 <= t < |sessions| && fates[t].Some? ::
      Judged(outbound, Play(outbound, sessions, schedule).trace, sessions[t], fates[t].value)
    ensures forall k, id, other | 0 <= k <= |schedule| ::
      var trace := Play(outbound, sessions, schedule[..k]).trace;
      Since(trace, id).Some? && Since(trace, other).Some? ==> id == other
  {
    hide Since, Verdict, Breakpoints.Valid, InOrder, Judged, Play, Made, Given, Enabled, Finds, FateAnswers;
    var gate := new Gate(outbound, sessions);
    done := [];
    PlayNothing(outbound, sessions);
    assert schedule[..0] == [];
    for k := 0 to |schedule|
      invariant fresh(gate) && fresh(gate.breakpoints)
      invariant forall id | id in gate.breakpoints.paused :: fresh(gate.breakpoints.paused[id])
      invariant gate.Valid() && gate.sessions == sessions && gate.outbound == outbound && |done| == k
      invariant gate.Now() == Play(outbound, sessions, schedule[..k])
      invariant forall j | 0 <= j < k ::
        done[j] <==> Ready(sessions, Play(outbound, sessions, schedule[..j]), schedule[j])
    {
      var ok: bool;
      assert schedule[..k + 1] == schedule[..k] + [schedule[k]];
      PlayAppend(outbound, sessions, schedule[..k], schedule[k]);
      match schedule[k] {
        case Commands(c) =>
          ok := gate.Perform(c);
        case Moves(m) =>
          ok := gate.CanMove(m);
          if ok { gate.Advance(m); }
      }
      done := done + [ok];
    }
    assert schedule[..|schedule|] == schedule;
    fates := Fates(gate.phases);
    FatesAreDecided(outbound, sessions, schedule, done);
    forall t | 0 <= t < |sessions| && fates[t].Some?
      ensures exists k, n | 0 <= k < n < |schedule| ::
        && schedule[k] == Moves(PauseFlow(t)) && done[k] && schedule[n] == Moves(Pop(t)) && done[n]
        && FateAnswers(outbound, sessions[t], schedule, done, k, n, fates[t].value)
    {
      var k, n := FateIsAnswered(outbound, sessions, schedule, done, |schedule|, t);
    }
    forall k, id, other | 0 <= k <= |schedule|
      ensures var trace := Play(outbound, sessions, schedule[..k]).trace;
              Since(trace, id).Some? && Since(trace, other).Some? ==> id == other
    {
      var trace := Play(outbound, sessions, schedule[..k]).trace;
      if Since(trace, id).Some? && Since(trace, other).Some? {
        AtMostOneIsPaused(outbound, sessions, schedule[..k], id, other);
      }
    }
  }

  lemma PlayNothing(outbound: Request -> Bytes, sessions: seq<Session>)
    ensures Play(outbound, sessions, []) == Start(sessions)
  {
  }

  lemma PlayAppend(outbound: Request -> Bytes, sessions: seq<Session>, schedule: seq<Step>, step: Step)
    ensures Play(outbound, sessions, schedule + [step])
        == After(outbound, sessions, Play(outbound, sessions, schedule), step)
  {
    hide After;
    assert (schedule + [step])[..|schedule|] == schedule;
  }

  lemma FatesAreDecided(outbound: Request -> Bytes, sessions: seq<Session>, schedule: seq<Step>, done: seq<bool>)
    requires |done| == |schedule|
    requires forall k | 0 <= k < |schedule| ::
      done[k] <==> Ready(sessions, Play(outbound, sessions, schedule[..k]), schedule[k])
    ensures var s := Play(outbound, sessions, schedule);
      && |s.phases| == |sessions|
      && (forall t | 0 <= t < |sessions| ::
            HasFate(s.phases[t]) <==> exists k | 0 <= k < |schedule| :: schedule[k] == Moves(Pop(t)) && done[k])
      && (forall t | 0 <= t < |sessions| && HasFate(s.phases[t]) ::
            Judged(outbound, s.trace, sessions[t], s.phases[t].fate))
  {
    hide Play, Judged, Enabled, Since;
    PlayIsInOrder(outbound, sessions, schedule);
    forall t | 0 <= t < |sessions|
      ensures HasFate(Play(outbound, sessions, schedule).phases[t])
        <==> exists k | 0 <= k < |schedule| :: schedule[k] == Moves(Pop(t)) && done[k]
    {
      FateIffPopped(outbound, sessions, schedule, t);
    }
  }
}
