/** Process-local allocation of turn indices: each thread numbers its turns from zero. */
module CodexContinuity {
  import opened Options

  datatype Quality = Exact | Lossy

  datatype Allocation = Allocation(
    sessionId: string, threadId: string, turnId: Option<string>, turnIndex: nat, continuity: Quality)

  datatype Result<T> = Success(value: T) | Failure(error: string)

  datatype ThreadContinuity = ThreadContinuity(turnIndices: map<string, nat>, nextTurnIndex: nat)

  /** One call: the thread and the turn id, if any. */
  datatype Call = Call(threadId: string, turnId: Option<string>)

  // ---- what a thread's own calls determine ----

  /** The turn ids of one thread's calls, in order. */
  function Turns(history: seq<Call>, threadId: string): seq<Option<string>> {
    if history == [] then []
    else
      var front, c := Turns(history[..|history| - 1], threadId), history[|history| - 1];
      if c.threadId == threadId then front + [c.turnId] else front
  }

  /** A call takes a new index unless it repeats an earlier turn id. */
  predicate IsFresh(turns: seq<Option<string>>, turn: Option<string>) { turn.None? || turn !in turns }

  /** How many indices some calls have used up. */
  function Used(turns: seq<Option<string>>): nat {
    if turns == [] then 0
    else
      var front, turn := turns[..|turns| - 1], turns[|turns| - 1];
      Used(front) + if IsFresh(front, turn) then 1 else 0
  }

  /** The index a call gets after some calls: the next free one, or that of its first use. */
  function IndexFor(turns: seq<Option<string>>, turn: Option<string>): nat {
    if IsFresh(turns, turn) then Used(turns) else IndexFor(turns[..|turns| - 1], turn)
  }

  /** The indices handed out to a thread's calls. */
  function Indices(turns: seq<Option<string>>): (indices: seq<nat>)
    ensures |indices| == |turns|
  {
    if turns == [] then []
    else
      var front, turn := turns[..|turns| - 1], turns[|turns| - 1];
      Indices(front) + [IndexFor(front, turn)]
  }

  lemma UsedAppend(turns: seq<Option<string>>, turn: Option<string>)
    ensures Used(turns + [turn]) == Used(turns) + if IsFresh(turns, turn) then 1 else 0
  {
    assert (turns + [turn])[..|turns + [turn]| - 1] == turns;
  }

  /** A repeated turn keeps its index, however many calls follow. */
  lemma IndexIsKept(turns: seq<Option<string>>, turn: Option<string>, next: Option<string>)
    requires !IsFresh(turns, turn)
    ensures !IsFresh(turns + [next], turn) && IndexFor(turns + [next], turn) == IndexFor(turns, turn)
  {
    assert (turns + [next])[..|turns + [next]| - 1] == turns;
    assert turn in turns + [next];
  }

  lemma IndexOnFirstUse(turns: seq<Option<string>>, turn: Option<string>)
    requires turn.Some? && IsFresh(turns, turn)
    ensures IndexFor(turns + [turn], turn) == Used(turns)
  {
    assert (turns + [turn])[..|turns + [turn]| - 1] == turns;
    assert turn in turns + [turn];
  }

  lemma {:induction false} RepeatIsBelow(turns: seq<Option<string>>, turn: Option<string>)
    requires !IsFresh(turns, turn)
    ensures IndexFor(turns, turn) < Used(turns)
  {
    var front, last := turns[..|turns| - 1], turns[|turns| - 1];
    assert turns == front + [last];
    UsedAppend(front, last);
    if IsFresh(front, turn) { IndexOnFirstUse(front, turn); } else { RepeatIsBelow(front, turn); }
  }

  /** Every earlier use of a turn has the index a repetition would get. */
  lemma {:induction false} EarlierUses(turns: seq<Option<string>>, turn: Option<string>, k: nat)
    requires k < |turns| && turn.Some?
    ensures turns[k] == turn ==> !IsFresh(turns, turn) && Indices(turns)[k] == IndexFor(turns, turn)
  {
    var front, last := turns[..|turns| - 1], turns[|turns| - 1];
    assert turns == front + [last];
    if turns[k] == turn {
      if k < |front| {
        EarlierUses(front, turn, k);
        IndexIsKept(front, turn, last);
      } else if IsFresh(front, turn) {
        IndexOnFirstUse(front, turn);
      } else {
        IndexIsKept(front, turn, last);
      }
    }
  }

  /** The indices handed out in a thread are exactly `0..n-1`. */
  lemma {:induction false} IndicesAreInitial(turns: seq<Option<string>>, n: nat)
    ensures n in Indices(turns) <==> n < Used(turns)
  {
    if turns != [] {
      var front, turn := turns[..|turns| - 1], turns[|turns| - 1];
      assert turns == front + [turn];
      IndicesAreInitial(front, n);
      UsedAppend(front, turn);
      assert n in Indices(turns) <==> n in Indices(front) || n == IndexFor(front, turn);
      if !IsFresh(front, turn) { RepeatIsBelow(front, turn); }
    }
  }

  /** Two calls of a thread share an index exactly when they carry the same turn id. */
  lemma {:induction false} SharedIffSameTurn(turns: seq<Option<string>>, i: nat, j: nat)
    requires i < j < |turns|
    ensures Indices(turns)[i] == Indices(turns)[j] <==> turns[i].Some? && turns[i] == turns[j]
  {
    var front, turn := turns[..|turns| - 1], turns[|turns| - 1];
    assert turns == front + [turn];
    if j < |front| {
      SharedIffSameTurn(front, i, j);
    } else {
      IndicesAreInitial(front, Indices(front)[i]);
      assert front[i] in front;
      if turn.Some? { EarlierUses(front, turn, i); }
      if !IsFresh(front, turn) && front[i] != turn {
        var k :| 0 <= k < |front| && front[k] == turn;
        EarlierUses(front, turn, k);
        if i < k { SharedIffSameTurn(front, i, k); } else { SharedIffSameTurn(front, k, i); }
      }
    }
  }

  // ---- the allocator ----

  class CodexContinuityAllocator {
    var threads: map<string, ThreadContinuity>
    /** The calls that allocated something since the allocator was last cleared. */
    ghost var history: seq<Call>

    ghost predicate Valid()
      reads this
    {
      && (forall t | t !in threads :: Turns(history, t) == [])
      && forall t | t in threads :: Tracks(threads[t], Turns(history, t))
    }

    constructor ()
      ensures Valid() && history == []
    {
      threads, history := map[], [];
    }

    method Clear()
      modifies this
      ensures Valid() && history == []
    {
      threads, history := map[], [];
    }

    /** The index depends on the calls of this thread alone. */
    method Allocate(threadId: string, turnId: Option<string>, sessionId: Option<string>)
      returns (r: Result<Allocation>)
      requires Valid()
      modifies this
      ensures Valid()
      ensures threadId == "" ==> r.Failure? && history == old(history) && threads == old(threads)
      ensures threadId != "" ==>
        && history == old(history) + [Call(threadId, turnId)]
        && r == Success(Allocation(
                  if sessionId.Some? && sessionId.value != "" then sessionId.value else threadId,
                  threadId, turnId, IndexFor(Turns(old(history), threadId), turnId),
                  if turnId.Some? then Exact else Lossy))
    {
      hide Tracks, Turns, IndexFor, Used;
      if threadId == "" { return Failure("thread_id must be non-empty"); }
      var state := if threadId in threads then threads[threadId] else ThreadContinuity(map[], 0);
      ghost var turns := Turns(history, threadId);
      NothingTracked();
      TurnsAppend(history, Call(threadId, turnId));
      var session := if sessionId.Some? && sessionId.value != "" then sessionId.value else threadId;
      var turnIndex: nat;
      if turnId.None? {
        TrackedUnnamed(state, turns);
        turnIndex, state := AllocateLossy(state);
      } else if turnId.value in state.turnIndices {
        TrackedAgain(state, turns, turnId.value);
        turnIndex := state.turnIndices[turnId.value];
      } else {
        TrackedNew(state, turns, turnId.value);
        turnIndex := state.nextTurnIndex;
        state := ThreadContinuity(state.turnIndices[turnId.value := turnIndex], turnIndex + 1);
      }
      threads := threads[threadId := state];
      history := history + [Call(threadId, turnId)];
      r := Success(Allocation(session, threadId, turnId, turnIndex, if turnId.Some? then Exact else Lossy));
    }
  }

  method AllocateLossy(state: ThreadContinuity) returns (turnIndex: nat, after: ThreadContinuity)
    ensures turnIndex == state.nextTurnIndex && after == state.(nextTurnIndex := turnIndex + 1)
  {
    turnIndex, after := state.nextTurnIndex, state.(nextTurnIndex := state.nextTurnIndex + 1);
  }

  /** A thread's record holds its next free index and the index of every turn id seen. */
  ghost predicate Tracks(state: ThreadContinuity, turns: seq<Option<string>>) {
    && state.nextTurnIndex == Used(turns)
    && (forall id :: id in state.turnIndices <==> Some(id) in turns)
    && forall id | id in state.turnIndices :: state.turnIndices[id] == IndexFor(turns, Some(id))
  }

  lemma NothingTracked()
    ensures Tracks(ThreadContinuity(map[], 0), [])
  {
  }

  lemma TurnsAppend(history: seq<Call>, c: Call)
    ensures forall t ::
      Turns(history + [c], t) == if c.threadId == t then Turns(history, t) + [c.turnId] else Turns(history, t)
  {
    assert (history + [c])[..|history + [c]| - 1] == history;
  }

  /** A call without a turn id takes the next index. */
  lemma TrackedUnnamed(state: ThreadContinuity, turns: seq<Option<string>>)
    requires Tracks(state, turns)
    ensures IndexFor(turns, None) == state.nextTurnIndex
    ensures Tracks(state.(nextTurnIndex := state.nextTurnIndex + 1), turns + [None])
  {
    UsedAppend(turns, None);
    IndicesStay(state, turns, None);
    hide Used, IndexFor;
    assert forall id :: Some(id) in turns + [None] <==> Some(id) in turns;
  }

  /** A repeated turn keeps its index. */
  lemma TrackedAgain(state: ThreadContinuity, turns: seq<Option<string>>, id: string)
    requires Tracks(state, turns) && id in state.turnIndices
    ensures IndexFor(turns, Some(id)) == state.turnIndices[id] && Tracks(state, turns + [Some(id)])
  {
    hide Used, IndexFor;
    UsedAppend(turns, Some(id));
    IndicesStay(state, turns, Some(id));
    assert forall x :: Some(x) in turns + [Some(id)] <==> Some(x) in turns || x == id;
  }

  /** A new turn takes the next index, and keeps it from then on. */
  lemma TrackedNew(state: ThreadContinuity, turns: seq<Option<string>>, id: string)
    requires Tracks(state, turns) && id !in state.turnIndices
    ensures IndexFor(turns, Some(id)) == state.nextTurnIndex
    ensures Tracks(ThreadContinuity(state.turnIndices[id := state.nextTurnIndex], state.nextTurnIndex + 1),
                   turns + [Some(id)])
  {
    UsedAppend(turns, Some(id));
    IndicesStay(state, turns, Some(id));
    IndexOnFirstUse(turns, Some(id));
    assert IndexFor(turns, Some(id)) == state.nextTurnIndex;
    hide Used, IndexFor;
    assert forall x :: Some(x) in turns + [Some(id)] <==> Some(x) in turns || x == id;
  }

  lemma IndicesStay(state: ThreadContinuity, turns: seq<Option<string>>, turn: Option<string>)
    requires Tracks(state, turns)
    ensures forall id | id in state.turnIndices :: IndexFor(turns + [turn], Some(id)) == IndexFor(turns, Some(id))
  {
    hide IndexFor, Used;
    forall id | id in state.turnIndices ensures IndexFor(turns + [turn], Some(id)) == IndexFor(turns, Some(id)) {
      IndexIsKept(turns, Some(id), turn);
    }
  }
}
