/** The breakpoint: requests paused one at a time, and the user's commands on them. */
module Breakpoint {
  import opened Options
  import opened Ir
  import opened OverrideAudit

  type Bytes = seq<bv8>

  /** The commands that took effect, in order: what a paused flow's fate is judged by. */
  datatype Event =
    | Paused(flowId: string, original: Request, curated: Request, audit: Option<Audit>)
    | Released(flowId: string, mutated: Option<Request>, payload: Option<Bytes>)
    | Dropped(flowId: string)
    | Cleared
    | ReAudited(flowId: string, curated: Request, audit: Option<Audit>)
    | Popped(flowId: string)

  predicate Concerns(e: Event, flowId: string) { e.Cleared? || e.flowId == flowId }

  /** The events on a paused flow since it was paused; `None` when it is not paused. */
  function Since(trace: seq<Event>, flowId: string): (events: Option<seq<Event>>)
    ensures events.Some? ==> events.value != [] && events.value[0].Paused? && events.value[0].flowId == flowId
  {
    if trace == [] then None
    else
      var front, e := trace[..|trace| - 1], trace[|trace| - 1];
      if !Concerns(e, flowId) then Since(front, flowId)
      else if e.Paused? then Some([e])
      else if e.Popped? then None
      else match Since(front, flowId)
        case None => None
        case Some(events) => Some(events + [e])
  }

  /** Some drop or shutdown hit the flow. */
  predicate WasDropped(events: seq<Event>) { exists e | e in events :: e.Dropped? || e.Cleared? }

  /** Some command woke the flow. */
  predicate WasWoken(events: seq<Event>) { exists e | e in events :: e.Dropped? || e.Cleared? || e.Released? }

  /** What the last release submitted. */
  function LastRelease(events: seq<Event>): (Option<Request>, Option<Bytes>) {
    if events == [] then (None, None)
    else
      var e := events[|events| - 1];
      if e.Released? then (e.mutated, e.payload) else LastRelease(events[..|events| - 1])
  }

  /** The curated request as last audited. */
  function LastAudit(events: seq<Event>): (Request, Option<Audit>)
    requires events != [] && events[0].Paused?
  {
    var e := events[|events| - 1];
    if e.ReAudited? || e.Paused? then (e.curated, e.audit) else LastAudit(events[..|events| - 1])
  }

  /** What becomes of a request at the breakpoint. */
  datatype Outcome =
    | Refused
    | Forwarded(finalIr: Request, mutatedManually: bool, audit: Option<Audit>, payload: Option<Bytes>)

  /** The fate that the commands decide: any drop wins; otherwise the last release, whose
      unedited form and whose absence both mean the curated request. Bytes are sent when they
      were submitted or the request differs from the original; an edit voids the audit. */
  function Verdict(outbound: Request -> Bytes, events: seq<Event>): Outcome
    requires events != [] && events[0].Paused?
  {
    if WasDropped(events) then Refused
    else
      var (mutated, payload) := LastRelease(events);
      var (curated, audit) := LastAudit(events);
      var final := if mutated.Some? then mutated.value else curated;
      Forwarded(final, final != curated, if final != curated then None else audit,
                if payload.Some? then payload
                else if final == events[0].original then None else Some(outbound(final)))
  }

  class PausedFlow {
    const flowId: string
    const originalIr: Request
    var curatedIr: Request
    var audit: Option<Audit>
    var mutatedIr: Option<Request>
    var releasePayload: Option<Bytes>
    var dropped: bool
    /** The flow's event is set. */
    var woken: bool
    var tokensBefore: Option<int>

    /** The fields say what the commands since the pause did. */
    ghost predicate Matches(events: seq<Event>)
      reads this
    {
      && events != [] && events[0].Paused? && events[0].flowId == flowId && events[0].original == originalIr
      && (dropped <==> WasDropped(events)) && (woken <==> WasWoken(events))
      && (mutatedIr, releasePayload) == LastRelease(events)
      && (curatedIr, audit) == LastAudit(events)
    }

    constructor (flowId: string, originalIr: Request, curatedIr: Request, audit: Option<Audit>)
      ensures this.flowId == flowId && Matches([Paused(flowId, originalIr, curatedIr, audit)])
    {
      this.flowId, this.originalIr, this.curatedIr, this.audit := flowId, originalIr, curatedIr, audit;
      mutatedIr, releasePayload, dropped, woken, tokensBefore := None, None, false, false, None;
    }

    method Submit(mutatedIr: Option<Request>, payload: Option<Bytes>, ghost events: seq<Event>)
      requires Matches(events)
      modifies this`mutatedIr, this`releasePayload, this`woken
      ensures Matches(events + [Released(flowId, mutatedIr, payload)])
    {
      hide WasDropped, WasWoken, LastRelease, LastAudit;
      EventAppend(events, Released(flowId, mutatedIr, payload));
      this.mutatedIr, releasePayload, woken := mutatedIr, payload, true;
    }

    method MarkDropped(ghost events: seq<Event>, ghost e: Event)
      requires Matches(events) && (e.Dropped? || e.Cleared?)
      modifies this`dropped, this`woken
      ensures Matches(events + [e])
    {
      hide WasDropped, WasWoken, LastRelease, LastAudit;
      EventAppend(events, e);
      dropped, woken := true, true;
    }

    method Curate(curatedIr: Request, audit: Option<Audit>, ghost events: seq<Event>)
      requires Matches(events)
      modifies this`curatedIr, this`audit
      ensures Matches(events + [ReAudited(flowId, curatedIr, audit)])
    {
      hide WasDropped, WasWoken, LastRelease, LastAudit;
      EventAppend(events, ReAudited(flowId, curatedIr, audit));
      this.curatedIr, this.audit := curatedIr, audit;
    }

    /** The request to forward, whether it was edited, and the audit to keep. */
    method Resolve() returns (final: Request, mutatedManually: bool, finalAudit: Option<Audit>)
      ensures mutatedIr.None? ==> final == curatedIr && !mutatedManually && finalAudit == audit
      ensures mutatedIr.Some? ==>
        final == mutatedIr.value && (mutatedManually <==> final != curatedIr)
        && finalAudit == (if mutatedManually then None else audit)
    {
      if mutatedIr.None? { return curatedIr, false, audit; }
      mutatedManually := mutatedIr.value != curatedIr;
      return mutatedIr.value, mutatedManually, if mutatedManually then None else audit;
    }

    /** The outcome of a flow that was taken out of the breakpoint. */
    method Settle(outbound: Request -> Bytes, ghost events: seq<Event>) returns (outcome: Outcome)
      requires Matches(events)
      ensures outcome == Verdict(outbound, events)
    {
      hide WasDropped, WasWoken, LastRelease, LastAudit;
      if dropped { return Refused; }
      var final, mutatedManually, finalAudit := Resolve();
      var payload := releasePayload;
      if payload.None? && final != originalIr { payload := Some(outbound(final)); }
      outcome := Forwarded(final, mutatedManually, finalAudit, payload);
    }
  }

  class Breakpoints {
    var armed: bool
    var paused: map<string, PausedFlow>
    /** Every command that took effect. */
    ghost var trace: seq<Event>

    /** Exactly the flows that were paused and not popped are here, each in the state its own
        commands put it in. */
    ghost predicate Valid()
      reads this, paused.Values
    {
      && (forall id :: id in paused <==> Since(trace, id).Some?)
      && (forall id | id in paused :: paused[id].flowId == id && paused[id].Matches(Since(trace, id).value))
    }

    constructor ()
      ensures Valid() && paused == map[] && trace == [] && !armed
    {
      armed, paused, trace := false, map[], [];
    }

    method Arm()
      modifies this`armed
      ensures armed
    {
      armed := true;
    }

    method Disarm()
      modifies this`armed
      ensures !armed
    {
      armed := false;
    }

    /** Registers a flow; a flow paused under the same id is replaced. */
    method Pause(flowId: string, originalIr: Request, curatedIr: Request, audit: Option<Audit>)
      requires Valid()
      modifies this`paused, this`trace
      ensures Valid() && trace == old(trace) + [Paused(flowId, originalIr, curatedIr, audit)]
      ensures paused.Keys == old(paused.Keys) + {flowId} && fresh(paused[flowId])
      ensures forall id | id in old(paused) && id != flowId :: paused[id] == old(paused)[id]
    {
      hide PausedFlow.Matches, Since;
      ghost var e := Paused(flowId, originalIr, curatedIr, audit);
      SinceAppend(trace, e);
      var pf := new PausedFlow(flowId, originalIr, curatedIr, audit);
      paused := paused[flowId := pf];
      trace := trace + [e];
    }

    method SetTokensBefore(flowId: string, tokens: Option<int>) returns (ok: bool)
      requires Valid()
      modifies if flowId in paused then {paused[flowId]} else {}
      ensures Valid() && (ok <==> flowId in paused) && (ok ==> paused[flowId].tokensBefore == tokens)
    {
      if flowId !in paused { return false; }
      paused[flowId].tokensBefore := tokens;
      ok := true;
    }

    /** A release succeeds exactly while the flow is paused, and then it is on record. */
    method Release(flowId: string, mutatedIr: Option<Request>, payload: Option<Bytes>) returns (ok: bool)
      requires Valid()
      modifies this`trace, if flowId in paused then {paused[flowId]} else {}
      ensures Valid() && (ok <==> flowId in paused)
      ensures trace == if ok then old(trace) + [Released(flowId, mutatedIr, payload)] else old(trace)
    {
      hide PausedFlow.Matches, Since;
      if flowId !in paused { return false; }
      ghost var e := Released(flowId, mutatedIr, payload);
      SinceAppend(trace, e);
      paused[flowId].Submit(mutatedIr, payload, Since(trace, flowId).value);
      trace := trace + [e];
      ok := true;
    }

    /** A drop succeeds exactly while the flow is paused, and then it is on record. */
    method Drop(flowId: string) returns (ok: bool)
      requires Valid()
      modifies this`trace, if flowId in paused then {paused[flowId]} else {}
      ensures Valid() && (ok <==> flowId in paused)
      ensures trace == if ok then old(trace) + [Dropped(flowId)] else old(trace)
    {
      hide PausedFlow.Matches, Since;
      if flowId !in paused { return false; }
      ghost var e := Dropped(flowId);
      SinceAppend(trace, e);
      paused[flowId].MarkDropped(Since(trace, flowId).value, e);
      trace := trace + [e];
      ok := true;
    }

    /** The overrides panel replaces the curated request of a paused flow, and its audit. */
    method ReAudit(flowId: string, curatedIr: Request, audit: Option<Audit>) returns (ok: bool)
      requires Valid()
      modifies this`trace, if flowId in paused then {paused[flowId]} else {}
      ensures Valid() && (ok <==> flowId in paused)
      ensures trace == if ok then old(trace) + [ReAudited(flowId, curatedIr, audit)] else old(trace)
    {
      hide PausedFlow.Matches, Since;
      if flowId !in paused { return false; }
      ghost var e := ReAudited(flowId, curatedIr, audit);
      SinceAppend(trace, e);
      paused[flowId].Curate(curatedIr, audit, Since(trace, flowId).value);
      trace := trace + [e];
      ok := true;
    }

    /** Takes a flow out, as its commands left it. */
    method PopPaused(flowId: string) returns (popped: Option<PausedFlow>)
      requires Valid()
      modifies this`paused, this`trace
      ensures Valid() && (popped.Some? <==> flowId in old(paused))
      ensures paused == old(paused) - {flowId}
      ensures trace == if popped.Some? then old(trace) + [Popped(flowId)] else old(trace)
      ensures popped.Some? ==>
        popped.value == old(paused)[flowId] && popped.value.Matches(Since(old(trace), flowId).value)
    {
      hide PausedFlow.Matches, Since;
      if flowId !in paused { return None; }
      popped := Some(paused[flowId]);
      SinceAppend(trace, Popped(flowId));
      paused := paused - {flowId};
      trace := trace + [Popped(flowId)];
    }

    /** Drops every paused flow. */
    method ClearAll()
      requires Valid()
      modifies this`trace, paused.Values
      ensures Valid() && trace == old(trace) + [Cleared]
    {
      hide PausedFlow.Matches, Since;
      SinceAppend(trace, Cleared);
      var rest := paused.Keys;
      while rest != {}
        invariant rest <= paused.Keys
        invariant forall id | id in rest :: paused[id].Matches(Since(trace, id).value)
        invariant forall id | id in paused.Keys - rest :: paused[id].Matches(Since(trace, id).value + [Cleared])
        modifies paused.Values
      {
        var id :| id in rest;
        paused[id].MarkDropped(Since(trace, id).value, Cleared);
        rest := rest - {id};
      }
      trace := trace + [Cleared];
    }
  }

  lemma SinceAppend(trace: seq<Event>, e: Event)
    ensures forall id ::
      Since(trace + [e], id)
      == if !Concerns(e, id) then Since(trace, id)
         else if e.Paused? then Some([e])
         else if e.Popped? || Since(trace, id).None? then None
         else Some(Since(trace, id).value + [e])
  {
    assert (trace + [e])[..|trace + [e]| - 1] == trace;
  }

  /** What one more event adds to the record of a flow. */
  ghost predicate EventsAfter(events: seq<Event>, e: Event)
    requires events != [] && events[0].Paused?
  {
    && (WasDropped(events + [e]) <==> WasDropped(events) || e.Dropped? || e.Cleared?)
    && (WasWoken(events + [e]) <==> WasWoken(events) || e.Dropped? || e.Cleared? || e.Released?)
    && LastRelease(events + [e]) == (if e.Released? then (e.mutated, e.payload) else LastRelease(events))
    && LastAudit(events + [e]) == (if e.ReAudited? || e.Paused? then (e.curated, e.audit) else LastAudit(events))
  }

  lemma EventAppend(events: seq<Event>, e: Event)
    requires events != [] && events[0].Paused?
    ensures EventsAfter(events, e)
  {
    var all := events + [e];
    assert all[..|all| - 1] == events;
    assert e in all && forall x :: x in all <==> x in events || x == e;
  }

  /** The release that counts is the last one, and without one nothing was submitted. */
  lemma {:induction false} LastReleaseCounts(events: seq<Event>, k: nat)
    requires k <= |events| && forall j | k < j < |events| :: !events[j].Released?
    ensures k < |events| && events[k].Released? ==> LastRelease(events) == (events[k].mutated, events[k].payload)
    ensures (forall e | e in events :: !e.Released?) ==> LastRelease(events) == (None, None)
  {
    if events != [] {
      var front, e := events[..|events| - 1], events[|events| - 1];
      assert e in events && forall x | x in front :: x in events;
      if k <= |front| { LastReleaseCounts(front, k); } else { LastReleaseCounts(front, |front|); }
    }
  }
}
