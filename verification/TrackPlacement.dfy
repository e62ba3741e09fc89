/** To which track a request goes, in any run: read off its tool results, the calls that the
    tracks' responses made, and the spawns and waits still pending. */
module TrackPlacement {
  import opened Options
  import opened JsonValues
  import opened Ir
  import opened Tracks
  import opened TrackInvariants
  import opened TrackTree
  import opened TrackRuns

  predicate PendingSpawned(s: RunState, r: Block)
    requires r.ToolResultBlock?
  {
    r.toolUseId in s.openSpawns
  }

  predicate PendingWait(s: RunState, r: Block)
    requires r.ToolResultBlock?
  {
    r.toolUseId !in s.openSpawns && r.toolUseId in s.waitTargets
  }

  /** Some target of the wait is a track with this parent. */
  predicate WaitsUnder(s: RunState, r: Block, parent: string)
    requires r.ToolResultBlock?
  {
    PendingWait(s, r) && exists t | t in s.waitTargets[r.toolUseId] ::
      t in s.tracks && s.tracks[t].parentTrackId == Some(parent)
  }

  predicate SpawnedUnder(s: RunState, r: Block, parent: string)
    requires r.ToolResultBlock?
  {
    PendingSpawned(s, r) && s.openSpawns[r.toolUseId].parentTrackId == parent
  }

  predicate OwnedBy(s: RunState, r: Block, owner: string)
    requires r.ToolResultBlock?
  {
    r.toolUseId in s.toolUses && s.toolUses[r.toolUseId] == owner
  }

  /** The call was made by a track that is closed by now. */
  predicate IsStale(s: RunState, r: Block)
    requires r.ToolResultBlock?
  {
    r.toolUseId in s.toolUses && !IsOpen(s, s.toolUses[r.toolUseId])
  }

  predicate IsOpen(s: RunState, id: string) { id in s.tracks && s.tracks[id].status != Closed }

  // ---- what the results find ----

  /** The pending spawns that some results have not settled. */
  function Unsettled<T>(pending: map<string, T>, results: seq<Block>): map<string, T>
    requires AreResults(results)
  {
    map id | id in pending && (forall r | r in results :: r.toolUseId != id) :: pending[id]
  }

  lemma UnsettledStep<T>(pending: map<string, T>, front: seq<Block>, result: Block)
    requires AreResults(front + [result]) && AreResults(front) && result.ToolResultBlock?
    ensures Unsettled(pending, front + [result]) == Unsettled(pending, front) - {result.toolUseId}
  {
    var all := front + [result];
    forall id | id in pending
      ensures (forall r | r in all :: r.toolUseId != id)
        <==> (forall r | r in front :: r.toolUseId != id) && result.toolUseId != id
    {
      assert result in all && forall r | r in front :: r in all;
    }
  }

  /** The result of a spawn, or of a call that is not pending. */
  lemma SpawnStep(loads: Loads, s: RunState, result: Block)
    requires Known(s) && result.ToolResultBlock?
    requires result.toolUseId in s.openSpawns || result.toolUseId !in s.waitTargets
    ensures var s' := ResolveResult(loads, s, result);
            s'.openSpawns == s.openSpawns - {result.toolUseId} && s'.waitTargets == s.waitTargets
  {
    hide Known, ResolveSpawn;
    if result.toolUseId in s.openSpawns {
      SpawnerIsKnown(s, result.toolUseId);
      ResolveSpawnSettles(loads, s, s.openSpawns[result.toolUseId], result);
    }
  }

  /** Without waits among the results, the parents found are the spawners. */
  lemma {:induction false} SpawnersFound(loads: Loads, s: RunState, results: seq<Block>)
    requires Known(s) && AreResults(results) && s.openSpawns.Keys !! s.waitTargets.Keys
    requires forall r | r in results :: !PendingWait(s, r)
    ensures var (s', found) := ResolveAll(loads, s, results);
      && s'.openSpawns == Unsettled(s.openSpawns, results) && s'.waitTargets == s.waitTargets
      && forall p :: p in found.parents <==> exists r | r in results :: SpawnedUnder(s, r, p)
  {
    hide Known, ResolveResult;
    if results == [] {
      assert Unsettled(s.openSpawns, []) == s.openSpawns;
    } else {
      var front, result := results[..|results| - 1], results[|results| - 1];
      assert results == front + [result] && result in results && forall r | r in front :: r in results;
      SpawnersFound(loads, s, front);
      ResolveAllIsKnown(loads, s, front);
      var (s1, found) := ResolveAll(loads, s, front);
      UnsettledStep(s.openSpawns, front, result);
      SpawnStep(loads, s1, result);
      forall p ensures p in FoundBy(s1, found, result).parents <==> p in found.parents || SpawnedUnder(s, result, p) {
        SpawnersStep(s, s1, front, result, found, p);
      }
    }
  }

  lemma SpawnersStep(s: RunState, s1: RunState, front: seq<Block>, result: Block, found: Found, p: string)
    requires AreResults(front) && result.ToolResultBlock? && s.openSpawns.Keys !! s.waitTargets.Keys
    requires s1.openSpawns == Unsettled(s.openSpawns, front) && s1.waitTargets == s.waitTargets
    requires !PendingWait(s, result)
    requires p in found.parents <==> exists r | r in front :: SpawnedUnder(s, r, p)
    ensures p in FoundBy(s1, found, result).parents <==> p in found.parents || SpawnedUnder(s, result, p)
  {
    if result.toolUseId in s.openSpawns && result.toolUseId !in s1.openSpawns {
      var r :| r in front && r.toolUseId == result.toolUseId;
      assert SpawnedUnder(s, result, p) ==> SpawnedUnder(s, r, p);
    }
  }

  /** The result of a wait, or of a call that is not pending. */
  lemma WaitStep(loads: Loads, s: RunState, result: Block)
    requires Known(s) && result.ToolResultBlock? && result.toolUseId !in s.openSpawns
    ensures var s' := ResolveResult(loads, s, result);
            && s'.openSpawns == s.openSpawns && s'.waitTargets == s.waitTargets - {result.toolUseId}
            && SameParents(s.tracks, s'.tracks)
  {
    hide Known, Reported;
    var id := result.toolUseId;
    if id in s.waitTargets {
      var s' := s.(waitTargets := s.waitTargets - {id});
      WaitIsKnown(s, id, []);
      CloseReportedIsKnown(s', s.waitTargets[id], Reported(loads, result));
    }
  }

  /** Without spawns among the results, the parents found are those of the targets waited for. */
  lemma {:induction false} WaitersFound(loads: Loads, s: RunState, results: seq<Block>)
    requires Known(s) && AreResults(results) && forall r | r in results :: !PendingSpawned(s, r)
    ensures var (s', found) := ResolveAll(loads, s, results);
      && s'.openSpawns == s.openSpawns && s'.waitTargets == Unsettled(s.waitTargets, results)
      && SameParents(s.tracks, s'.tracks)
      && forall p :: p in found.parents <==> exists r | r in results :: WaitsUnder(s, r, p)
  {
    hide Known, ResolveResult;
    if results == [] {
      assert Unsettled(s.waitTargets, []) == s.waitTargets;
    } else {
      var front, result := results[..|results| - 1], results[|results| - 1];
      assert results == front + [result] && result in results && forall r | r in front :: r in results;
      WaitersFound(loads, s, front);
      ResolveAllIsKnown(loads, s, front);
      var (s1, found) := ResolveAll(loads, s, front);
      UnsettledStep(s.waitTargets, front, result);
      WaitStep(loads, s1, result);
      forall p ensures p in FoundBy(s1, found, result).parents <==> p in found.parents || WaitsUnder(s, result, p) {
        WaitersStep(s, s1, front, result, found, p);
      }
    }
  }

  lemma WaitersStep(s: RunState, s1: RunState, front: seq<Block>, result: Block, found: Found, p: string)
    requires AreResults(front) && result.ToolResultBlock? && !PendingSpawned(s, result) && s1.openSpawns == s.openSpawns
    requires s1.waitTargets == Unsettled(s.waitTargets, front) && SameParents(s.tracks, s1.tracks)
    requires p in found.parents <==> exists r | r in front :: WaitsUnder(s, r, p)
    ensures p in FoundBy(s1, found, result).parents <==> p in found.parents || WaitsUnder(s, result, p)
  {
    if result.toolUseId in s.waitTargets && result.toolUseId !in s1.waitTargets {
      var r :| r in front && r.toolUseId == result.toolUseId;
      assert WaitsUnder(s, result, p) ==> WaitsUnder(s, r, p);
    }
  }

  /** Without pending calls among the results, the owners found are the open ones, and a closed
      one leaves its mark. */
  lemma {:induction false} OwnersFound(loads: Loads, s: RunState, results: seq<Block>)
    requires AreResults(results) && forall r | r in results :: !PendingSpawned(s, r) && !PendingWait(s, r)
    ensures var (s', found) := ResolveAll(loads, s, results);
      && s' == s && found.parents == {}
      && (forall x :: x in found.owners <==> IsOpen(s, x) && exists r | r in results :: OwnedBy(s, r, x))
      && (found.stale <==> exists r | r in results :: IsStale(s, r))
  {
    if results != [] {
      var front, result := results[..|results| - 1], results[|results| - 1];
      assert results == front + [result] && result in results && forall r | r in front :: r in results;
      OwnersFound(loads, s, front);
      var found := ResolveAll(loads, s, front).1;
      forall x ensures (exists r | r in results :: OwnedBy(s, r, x))
        <==> (exists r | r in front :: OwnedBy(s, r, x)) || OwnedBy(s, result, x) {}
      assert (exists r | r in results :: IsStale(s, r))
        <==> (exists r | r in front :: IsStale(s, r)) || IsStale(s, result);
      hide ResolveAll;
    }
  }

  /** Whatever the ids, no result is left with a pending spawn: the second look can only find a
      wait, of a call whose id was used for a spawn as well. */
  lemma {:induction false} NoSpawnIsLeft(loads: Loads, s: RunState, results: seq<Block>)
    requires Known(s) && AreResults(results)
    ensures forall r | r in results :: r.toolUseId !in ResolveAll(loads, s, results).0.openSpawns
  {
    hide Known, ResolveResult, FoundBy;
    if results != [] {
      var front, result := results[..|results| - 1], results[|results| - 1];
      NoSpawnIsLeft(loads, s, front);
      ResolveAllIsKnown(loads, s, front);
      var s1 := ResolveAll(loads, s, front).0;
      if result.toolUseId in s1.openSpawns { SpawnStep(loads, s1, result); } else { WaitStep(loads, s1, result); }
      assert results == front + [result];
    }
  }

  ghost predicate OnlyUnder(s: RunState, r: Block, parent: string)
    requires r.ToolResultBlock?
  {
    WaitsUnder(s, r, parent) && forall p | WaitsUnder(s, r, p) :: p == parent
  }

  /** What the second look finds is the one parent of the targets of such a wait. */
  lemma {:induction false} SecondLookMeans(s: RunState, results: seq<Block>)
    requires AreResults(results) && forall r | r in results :: !PendingSpawned(s, r)
    ensures match SecondLook(s, results)
            case Some(p) => exists r | r in results :: OnlyUnder(s, r, p)
            case None => forall r, p | r in results && WaitsUnder(s, r, p) :: exists q :: q != p && WaitsUnder(s, r, q)
  {
    if results != [] {
      SecondLookMeans(s, results[1..]);
      assert results == [results[0]] + results[1..];
      var r, later := results[0], SecondLook(s, results[1..]);
      assert r in results && !PendingSpawned(s, r);
      if later.Some? {
        var x :| x in results[1..] && OnlyUnder(s, x, later.value);
        assert x in results && OnlyUnder(s, x, later.value);
      }
      if PendingWait(s, r) {
        var parents := ParentsOf(s, s.waitTargets[r.toolUseId]);
        forall p ensures p in parents <==> WaitsUnder(s, r, p) {}
        if |parents| == 1 {
          OnlyMember(parents);
          assert OnlyUnder(s, r, Only(parents)) && SecondLook(s, results) == Some(Only(parents));
        } else {
          forall p | p in parents ensures exists q :: q != p && q in parents {
            assert |parents - {p}| == |parents| - 1;
            var q :| q in parents - {p};
          }
        }
      }
      hide WaitsUnder, OnlyUnder;
    }
  }

  // ---- where the request goes ----

  /** The later rules: the Codex subagent that the request names, else one of the subagents or
      the run's own track. */
  ghost predicate PlacedLater(loads: Loads, s: RunState, request: Request, id: string) {
    var codex := CodexSubagentTrackId(loads, request);
    && (codex.Some? ==> id == codex.value)
    && (codex.None? ==> ChosenAmongSubagents(s, request, id))
  }

  lemma NotPointed(loads: Loads, s: RunState, request: Request)
    requires Known(s) && s.openSpawns.Keys !! s.waitTargets.Keys
    ensures var results := ToolResults(request.messages);
            var (s', found) := ResolveAll(loads, s, results);
            Pointed(s'.runId, found).None? ==> PlacedLater(loads, s', request, Classify(loads, s, request).1)
  {
    hide Known, ResolveAll, ToolResults, ChosenAmongSubagents, CodexSubagentTrackId, SecondLook, ObserveSignature,
         WithCodexTrack, WithSignature;
    var results := ToolResults(request.messages);
    SecondLookIsSilent(loads, s, results);
    ResolveAllIsKnown(loads, s, results);
    if CodexSubagentTrackId(loads, request).None? { AssignmentMeans(loads, ResolveAll(loads, s, results).0, request); }
  }

  lemma IsSingleton(ids: set<string>, x: string)
    requires forall p :: p in ids <==> p == x
    ensures ids == {x} && |ids| == 1 && Only(ids) == x
  {
    assert ids == {x};
  }

  lemma IsNotSingleton(ids: set<string>, x: string, y: string)
    requires x in ids && y in ids && x != y
    ensures |ids| != 1 && ids != {}
  {
    if |ids| == 1 { OnlyMember(ids); }
  }

  /** One parent found: the request is its. Two: the later rules decide. */
  lemma ParentsPlace(loads: Loads, s: RunState, request: Request)
    requires Known(s) && s.openSpawns.Keys !! s.waitTargets.Keys
    ensures var (s', found) := ResolveAll(loads, s, ToolResults(request.messages));
            var id := Classify(loads, s, request).1;
            && (forall x | x in found.parents && (forall p | p in found.parents :: p == x) :: id == x)
            && (forall x, y | x in found.parents && y in found.parents && x != y :: PlacedLater(loads, s', request, id))
  {
    hide ResolveAll, ToolResults, PlacedLater, ObserveSignature, WithCodexTrack, SecondLook, CodexSubagentTrackId,
         WithSignature, Known;
    var (s', found) := ResolveAll(loads, s, ToolResults(request.messages));
    NotPointed(loads, s, request);
    forall x | x in found.parents && (forall p | p in found.parents :: p == x)
      ensures Classify(loads, s, request).1 == x {
      IsSingleton(found.parents, x);
    }
    forall x, y | x in found.parents && y in found.parents && x != y ensures Pointed(s'.runId, found).None? {
      IsNotSingleton(found.parents, x, y);
    }
  }

  /** No parents: the one open owner, else the run when an owner is closed, else the later rules. */
  lemma OwnersPlace(loads: Loads, s: RunState, request: Request)
    requires Known(s) && s.openSpawns.Keys !! s.waitTargets.Keys
    requires ResolveAll(loads, s, ToolResults(request.messages)).1.parents == {}
    ensures var (s', found) := ResolveAll(loads, s, ToolResults(request.messages));
            var id := Classify(loads, s, request).1;
            && (forall x | x in found.owners && (forall p | p in found.owners :: p == x) :: id == x)
            && (found.owners == {} || (exists x, y :: x in found.owners && y in found.owners && x != y) ==>
                  if found.stale then id == s'.runId else PlacedLater(loads, s', request, id))
  {
    hide ResolveAll, ToolResults, PlacedLater, ObserveSignature, WithCodexTrack, SecondLook, CodexSubagentTrackId,
         WithSignature, Known;
    var (s', found) := ResolveAll(loads, s, ToolResults(request.messages));
    NotPointed(loads, s, request);
    forall x | x in found.owners && (forall p | p in found.owners :: p == x)
      ensures Classify(loads, s, request).1 == x {
      IsSingleton(found.owners, x);
    }
    if x, y :| x in found.owners && y in found.owners && x != y { IsNotSingleton(found.owners, x, y); }
  }

  // ---- whole runs ----

  /** A pending spawn was made by the track that it is recorded under. */
  ghost predicate SpawnsEmitted(s: RunState, calls: seq<Emission>) {
    forall id | id in s.openSpawns :: Emission(s.openSpawns[id].parentTrackId, id) in calls
  }

  lemma ObserveBlockSpawns(s: RunState, current: string, exchangeId: Option<string>, order: nat, b: Block)
    ensures var s' := ObserveBlock(s, current, exchangeId, order, b);
            forall id | id in s'.openSpawns ::
              || (id in s.openSpawns && s'.openSpawns[id] == s.openSpawns[id])
              || (b.ToolUseBlock? && id == b.id && s'.openSpawns[id].parentTrackId == current)
  {
    hide SetStatuses, StringList, AgentKillTargets, StringOrNone, SpawnedTrack;
    if b.ToolUseBlock? {
      var s' := s.(toolUses := s.toolUses[b.id := current]);
      var targets := StringList(Get(b.input, "targets", Null));
      StatusesOnly(s'.(waitTargets := s'.waitTargets[b.id := targets]), targets, Terminating);
      StatusesOnly(s', AgentKillTargets(b.input), Closed);
    }
  }

  lemma {:induction false} ObserveSpawns(
      s: RunState, calls: seq<Emission>, current: string, exchangeId: Option<string>, blocks: seq<Block>)
    requires SpawnsEmitted(s, calls)
    ensures SpawnsEmitted(Observe(s, current, exchangeId, blocks), calls + EmittedBy(current, blocks))
  {
    hide ObserveBlock;
    if blocks == [] {
      assert calls + [] == calls;
    } else {
      var front, b := blocks[..|blocks| - 1], blocks[|blocks| - 1];
      ObserveSpawns(s, calls, current, exchangeId, front);
      ObserveBlockSpawns(Observe(s, current, exchangeId, front), current, exchangeId, Spawns(front), b);
    }
  }

  lemma {:induction false} ResolveAllSpawns(loads: Loads, s: RunState, results: seq<Block>)
    requires Known(s) && AreResults(results)
    ensures var s' := ResolveAll(loads, s, results).0;
            forall id | id in s'.openSpawns :: id in s.openSpawns && s'.openSpawns[id] == s.openSpawns[id]
  {
    hide Known, ResolveResult;
    if results != [] {
      var front, result := results[..|results| - 1], results[|results| - 1];
      ResolveAllSpawns(loads, s, front);
      ResolveAllIsKnown(loads, s, front);
      ResultSpawns(loads, ResolveAll(loads, s, front).0, result);
    }
  }

  lemma ResultSpawns(loads: Loads, s: RunState, result: Block)
    requires Known(s) && result.ToolResultBlock?
    ensures var s' := ResolveResult(loads, s, result);
            forall id | id in s'.openSpawns :: id in s.openSpawns && s'.openSpawns[id] == s.openSpawns[id]
  {
    hide Known;
    if result.toolUseId in s.openSpawns { SpawnStep(loads, s, result); } else { WaitStep(loads, s, result); }
    hide ResolveResult;
  }

  lemma ClassifySpawns(loads: Loads, s: RunState, request: Request, calls: seq<Emission>)
    requires Known(s) && SpawnsEmitted(s, calls)
    ensures SpawnsEmitted(Classify(loads, s, request).0, calls)
  {
    hide Known, ResolveAll, AssignedTrack, Pointed, CodexSubagentTrackId, SecondLook, ToolResults, CodexDisplayName,
         RequestSignature;
    ResolveAllSpawns(loads, s, ToolResults(request.messages));
  }

  lemma {:induction false} RunSpawns(loads: Loads, runId: string, es: seq<Event>)
    requires Legal(loads, runId, es)
    ensures SpawnsEmitted(After(loads, runId, es), Emitted(es))
  {
    hide Classify, Observe, SpawnsEmitted;
    if es == [] {
      NoSpawns(runId);
    } else {
      var front, e := es[..|es| - 1], es[|es| - 1];
      var s := After(loads, runId, front);
      RunIsKnown(loads, runId, front);
      RunSpawns(loads, runId, front);
      match e {
        case Requested(request) => ClassifySpawns(loads, s, request, Emitted(front));
        case Responded(trackId, exchangeId, blocks) => ObserveSpawns(s, Emitted(front), trackId, exchangeId, blocks);
      }
      hide Known;
    }
  }

  lemma NoSpawns(runId: string)
    ensures SpawnsEmitted(NewRun(runId), [])
  {
  }

  /** With unique ids a call has one caller. */
  lemma OneCaller(calls: seq<Emission>, a: string, b: string, id: string)
    requires UniqueUses(calls) && Emission(a, id) in calls && Emission(b, id) in calls
    ensures a == b
  {
    var i :| 0 <= i < |calls| && calls[i] == Emission(a, id);
    var j :| 0 <= j < |calls| && calls[j] == Emission(b, id);
  }

  /** What a reachable state knows about its pending calls. */
  lemma ReachableState(loads: Loads, runId: string, es: seq<Event>)
    requires Legal(loads, runId, es) && UniqueUses(Emitted(es))
    ensures var s := After(loads, runId, es);
            && Known(s) && s.runId == runId && s.openSpawns.Keys !! s.waitTargets.Keys
            && (forall r: Block, x | r.ToolResultBlock? && r.toolUseId in s.openSpawns ::
                  SpawnedUnder(s, r, x) <==> Emission(x, r.toolUseId) in Emitted(es))
            && (forall r: Block, x | r.ToolResultBlock? ::
                  OwnedBy(s, r, x) <==> Emission(x, r.toolUseId) in Emitted(es))
  {
    hide After, Emitted, UniqueUses, Known;
    RunIsKnown(loads, runId, es);
    RunRecords(loads, runId, es);
    RunSpawns(loads, runId, es);
    var s, calls := After(loads, runId, es), Emitted(es);
    forall r: Block, x | r.ToolResultBlock? && r.toolUseId in s.openSpawns
      ensures SpawnedUnder(s, r, x) <==> Emission(x, r.toolUseId) in calls
    {
      if Emission(x, r.toolUseId) in calls {
        OneCaller(calls, x, s.openSpawns[r.toolUseId].parentTrackId, r.toolUseId);
      }
    }
    forall r: Block, x | r.ToolResultBlock? ensures OwnedBy(s, r, x) <==> Emission(x, r.toolUseId) in calls {
      if OwnedBy(s, r, x) { var c :| c in calls && c.toolUseId == r.toolUseId; }
    }
  }

  /** In any run with unique call ids: a request with results for pending spawns, all made by
      one track's responses, goes to that track, whatever plain results it has besides. */
  lemma SpawnerGetsItsResults(loads: Loads, runId: string, es: seq<Event>, request: Request, trackId: string)
    requires Legal(loads, runId, es) && UniqueUses(Emitted(es))
    requires var s, results := After(loads, runId, es), ToolResults(request.messages);
      && (exists r | r in results :: PendingSpawned(s, r))
      && forall r | r in results ::
           && !PendingWait(s, r)
           && (PendingSpawned(s, r) ==> Emission(trackId, r.toolUseId) in Emitted(es))
    ensures Classify(loads, After(loads, runId, es), request).1 == trackId
  {
    hide After, Classify, Emitted, ToolResults, UniqueUses, ResolveAll, Known;
    var s, results := After(loads, runId, es), ToolResults(request.messages);
    ReachableState(loads, runId, es);
    SpawnersFound(loads, s, results);
    var r :| r in results && PendingSpawned(s, r);
    assert SpawnedUnder(s, r, trackId);
    var parents := ResolveAll(loads, s, results).1.parents;
    assert trackId in parents && forall p | p in parents :: p == trackId;
    ParentsPlace(loads, s, request);
  }

  /** A request with results for pending waits goes to the one parent that their targets have. */
  lemma WaiterGetsItsResults(loads: Loads, runId: string, es: seq<Event>, request: Request, parent: string)
    requires Legal(loads, runId, es) && UniqueUses(Emitted(es))
    requires var s, results := After(loads, runId, es), ToolResults(request.messages);
      && (exists r | r in results :: WaitsUnder(s, r, parent))
      && (forall r | r in results :: !PendingSpawned(s, r))
      && (forall r, p | r in results && WaitsUnder(s, r, p) :: p == parent)
    ensures Classify(loads, After(loads, runId, es), request).1 == parent
  {
    hide After, Classify, Emitted, ToolResults, UniqueUses, ResolveAll, Known, WaitsUnder;
    var s, results := After(loads, runId, es), ToolResults(request.messages);
    ReachableState(loads, runId, es);
    WaitersFound(loads, s, results);
    var parents := ResolveAll(loads, s, results).1.parents;
    assert parent in parents && forall p | p in parents :: p == parent;
    ParentsPlace(loads, s, request);
  }

  /** Results that point to two parents place nothing: the later rules decide. */
  lemma TwoParentsPlaceNothing(
      loads: Loads, runId: string, es: seq<Event>, request: Request, x: Block, y: Block, a: string, b: string)
    requires Legal(loads, runId, es) && UniqueUses(Emitted(es)) && a != b
    requires var s, results := After(loads, runId, es), ToolResults(request.messages);
      && x in results && y in results
      && (|| ((forall r | r in results :: !PendingWait(s, r)) && PendingSpawned(s, x) && PendingSpawned(s, y)
              && Emission(a, x.toolUseId) in Emitted(es) && Emission(b, y.toolUseId) in Emitted(es))
          || ((forall r | r in results :: !PendingSpawned(s, r)) && WaitsUnder(s, x, a) && WaitsUnder(s, y, b)))
    ensures var s := After(loads, runId, es);
            var (id, s') := (Classify(loads, s, request).1, ResolveAll(loads, s, ToolResults(request.messages)).0);
            PlacedLater(loads, s', request, id)
  {
    hide After, Classify, Emitted, ToolResults, UniqueUses, ResolveAll, Known, WaitsUnder, PlacedLater;
    var s, results := After(loads, runId, es), ToolResults(request.messages);
    ReachableState(loads, runId, es);
    if PendingSpawned(s, x) {
      SpawnersFound(loads, s, results);
      assert SpawnedUnder(s, x, a) && SpawnedUnder(s, y, b);
    } else {
      WaitersFound(loads, s, results);
    }
    var parents := ResolveAll(loads, s, results).1.parents;
    assert a in parents && b in parents;
    ParentsPlace(loads, s, request);
  }

  /** Without results for pending calls: the request goes to the one open track whose calls it
      answers; when there is none or more than one, to the run if some caller is closed, and by
      the later rules otherwise. */
  lemma CallersDecide(loads: Loads, runId: string, es: seq<Event>, request: Request)
    requires Legal(loads, runId, es) && UniqueUses(Emitted(es))
    requires var s := After(loads, runId, es);
      forall r | r in ToolResults(request.messages) :: !PendingSpawned(s, r) && !PendingWait(s, r)
    ensures var s, id := After(loads, runId, es), Classify(loads, After(loads, runId, es), request).1;
            var results, calls := ToolResults(request.messages), Emitted(es);
            && (forall x | IsOpen(s, x) && Calls(calls, results, x)
                           && (forall y | IsOpen(s, y) && Calls(calls, results, y) :: y == x) :: id == x)
            && ((forall x | IsOpen(s, x) :: !Calls(calls, results, x))
                || (exists x, y :: x != y && IsOpen(s, x) && IsOpen(s, y) && Calls(calls, results, x)
                                   && Calls(calls, results, y)) ==>
                  if exists x :: Calls(calls, results, x) && !IsOpen(s, x) then id == runId
                  else PlacedLater(loads, s, request, id))
  {
    hide After, Classify, Emitted, ToolResults, UniqueUses, ResolveAll, Known, PlacedLater, IsOpen;
    var s, results := After(loads, runId, es), ToolResults(request.messages);
    var calls := Emitted(es);
    ReachableState(loads, runId, es);
    OwnersFound(loads, s, results);
    forall x ensures Calls(calls, results, x) <==> exists r | r in results :: OwnedBy(s, r, x) {}
    assert (exists r | r in results :: IsStale(s, r)) <==> exists x :: Calls(calls, results, x) && !IsOpen(s, x) by {
      if r :| r in results && IsStale(s, r) { assert OwnedBy(s, r, s.toolUses[r.toolUseId]); }
      if x :| Calls(calls, results, x) && !IsOpen(s, x) {
        var r :| r in results && OwnedBy(s, r, x);
        assert IsStale(s, r);
      }
    }
    OwnersPlace(loads, s, request);
  }

  /** Some of the results answer a call of this track. */
  predicate Calls(calls: seq<Emission>, results: seq<Block>, x: string)
    requires AreResults(results)
  {
    exists r | r in results :: Emission(x, r.toolUseId) in calls
  }
}
