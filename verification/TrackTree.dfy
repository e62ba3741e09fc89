/** The parents of a run's tracks form a tree under the run's own track, and exactly when a
    reported agent id breaks it. */
module TrackTree {
  import opened Options
  import opened JsonValues
  import opened Ir
  import opened Tracks
  import opened TrackInvariants

  type TrackMap = map<string, TrackRecord>

  /** `n` steps up the parents lead from one track to another. */
  predicate Reaches(tracks: TrackMap, id: string, goal: string, n: nat)
    decreases n
  {
    if n == 0 then id == goal
    else id in tracks && tracks[id].parentTrackId.Some? && Reaches(tracks, tracks[id].parentTrackId.value, goal, n - 1)
  }

  /** A track's ancestors, itself included. */
  ghost predicate Ancestor(tracks: TrackMap, goal: string, id: string) {
    exists n: nat :: Reaches(tracks, id, goal, n)
  }

  /** Every parent chain ends at the run's own track, which has no parent. */
  ghost predicate Tree(s: RunState) {
    && Known(s) && s.tracks[s.runId].parentTrackId == None
    && forall id | id in s.tracks :: Ancestor(s.tracks, s.runId, id)
  }

  /** The same tracks with the same parents. */
  ghost predicate SameParents(a: TrackMap, b: TrackMap) {
    a.Keys == b.Keys && forall id | id in a :: a[id].parentTrackId == b[id].parentTrackId
  }

  lemma {:induction false} ReachesAlike(a: TrackMap, b: TrackMap, id: string, goal: string, n: nat)
    requires SameParents(a, b)
    ensures Reaches(a, id, goal, n) == Reaches(b, id, goal, n)
    decreases n
  {
    if n > 0 && id in a && a[id].parentTrackId.Some? { ReachesAlike(a, b, a[id].parentTrackId.value, goal, n - 1); }
  }

  lemma SameParentsSameTree(s: RunState, s': RunState)
    requires Tree(s) && Known(s') && s'.runId == s.runId && SameParents(s.tracks, s'.tracks)
    ensures Tree(s')
  {
    forall id | id in s'.tracks ensures Ancestor(s'.tracks, s.runId, id) {
      var n: nat :| Reaches(s.tracks, id, s.runId, n);
      ReachesAlike(s.tracks, s'.tracks, id, s.runId, n);
    }
  }

  // ---- replacing a track ----

  /** The parents of every other track stay. */
  ghost predicate OthersStay(a: TrackMap, b: TrackMap, agent: string) {
    b.Keys == a.Keys + {agent} && forall id | id in a && id != agent :: b[id].parentTrackId == a[id].parentTrackId
  }

  /** A chain that avoids the replaced track is unchanged. */
  lemma {:induction false} AvoidingChain(a: TrackMap, b: TrackMap, agent: string, id: string, goal: string, n: nat)
    requires OthersStay(a, b, agent) && Reaches(a, id, goal, n) && !Ancestor(a, agent, id)
    ensures Reaches(b, id, goal, n)
    decreases n
  {
    assert Reaches(a, id, id, 0);
    if n > 0 {
      var p := a[id].parentTrackId.value;
      forall m: nat | Reaches(a, p, agent, m) ensures false { assert Reaches(a, id, agent, m + 1); }
      AvoidingChain(a, b, agent, p, goal, n - 1);
    }
  }

  /** Every chain to the root still ends there, through the replaced track or not. */
  lemma {:induction false} ChainThrough(a: TrackMap, b: TrackMap, agent: string, id: string, root: string, n: nat)
    requires OthersStay(a, b, agent) && Reaches(a, id, root, n) && Ancestor(b, root, agent)
    ensures Ancestor(b, root, id)
    decreases n
  {
    if id == agent {
    } else if n == 0 {
      assert Reaches(b, id, root, 0);
    } else {
      var p := a[id].parentTrackId.value;
      ChainThrough(a, b, agent, p, root, n - 1);
      var m: nat :| Reaches(b, p, root, m);
      assert Reaches(b, id, root, m + 1);
    }
  }

  /** A chain up to the replaced track is unchanged as far as that track. */
  lemma {:induction false} ChainUpTo(a: TrackMap, b: TrackMap, agent: string, id: string, n: nat)
    requires OthersStay(a, b, agent) && Reaches(a, id, agent, n)
    ensures Ancestor(b, agent, id)
    decreases n
  {
    if id == agent {
      assert Reaches(b, id, agent, 0);
    } else {
      var p := a[id].parentTrackId.value;
      ChainUpTo(a, b, agent, p, n - 1);
      var m: nat :| Reaches(b, p, agent, m);
      assert Reaches(b, id, agent, m + 1);
    }
  }

  /** Parents are unique, so a shorter chain is a part of a longer one. */
  lemma {:induction false} ChainRest(tracks: TrackMap, id: string, mid: string, n: nat, goal: string, m: nat)
    requires Reaches(tracks, id, mid, n) && Reaches(tracks, id, goal, m) && n <= m
    ensures Reaches(tracks, mid, goal, m - n)
    decreases n
  {
    if n > 0 { ChainRest(tracks, tracks[id].parentTrackId.value, mid, n - 1, goal, m - 1); }
  }

  /** From a cycle that misses the root, the root is never reached. */
  lemma {:induction false} CycleNeverEnds(tracks: TrackMap, id: string, k: nat, root: string, n: nat)
    requires k > 0 && Reaches(tracks, id, id, k)
    requires root != id && root in tracks && tracks[root].parentTrackId == None
    ensures !Reaches(tracks, id, root, n)
    decreases n
  {
    if Reaches(tracks, id, root, n) {
      if n < k {
        ChainRest(tracks, id, root, n, id, k);
      } else {
        ChainRest(tracks, id, id, k, root, n);
        CycleNeverEnds(tracks, id, k, root, n - k);
      }
    }
  }

  /** Putting a track under a known parent keeps the tree exactly when the track is neither
      the run's own nor an ancestor of that parent. */
  lemma PutTrackKeepsTree(s: RunState, t: TrackRecord)
    requires Tree(s) && t.parentTrackId.Some? && t.parentTrackId.value in s.tracks
    ensures Tree(PutTrack(s, t)) <==> t.trackId != s.runId && !Ancestor(s.tracks, t.trackId, t.parentTrackId.value)
  {
    hide Known;
    var s', agent, parent := PutTrack(s, t), t.trackId, t.parentTrackId.value;
    PutTrackIsKnown(s, t);
    KnownRoot(s);
    if agent != s.runId {
      if Ancestor(s.tracks, agent, parent) {
        var n: nat :| Reaches(s.tracks, parent, agent, n);
        ChainUpTo(s.tracks, s'.tracks, agent, parent, n);
        var m: nat :| Reaches(s'.tracks, parent, agent, m);
        assert Reaches(s'.tracks, agent, agent, m + 1);
        forall k: nat ensures !Reaches(s'.tracks, agent, s.runId, k) {
          CycleNeverEnds(s'.tracks, agent, m + 1, s.runId, k);
        }
      } else {
        var n: nat :| Reaches(s.tracks, parent, s.runId, n);
        AvoidingChain(s.tracks, s'.tracks, agent, parent, s.runId, n);
        assert Reaches(s'.tracks, agent, s.runId, n + 1);
        forall id | id in s'.tracks ensures Ancestor(s'.tracks, s.runId, id) {
          if id != agent {
            var k: nat :| Reaches(s.tracks, id, s.runId, k);
            ChainThrough(s.tracks, s'.tracks, agent, id, s.runId, k);
          }
        }
      }
    }
  }

  lemma {:induction false} NewIsNoAncestor(s: RunState, id: string, from: string, n: nat)
    requires Known(s) && id !in s.tracks && from in s.tracks
    ensures !Reaches(s.tracks, from, id, n)
    decreases n
  {
    if n > 0 && s.tracks[from].parentTrackId.Some? {
      NewIsNoAncestor(s, id, s.tracks[from].parentTrackId.value, n - 1);
    }
  }

  /** A new track is a leaf. */
  lemma AddLeafKeepsTree(s: RunState, t: TrackRecord)
    requires Tree(s) && t.parentTrackId.Some? && t.parentTrackId.value in s.tracks && t.trackId !in s.tracks
    ensures Tree(PutTrack(s, t))
  {
    hide Reaches;
    forall n: nat ensures !Reaches(s.tracks, t.parentTrackId.value, t.trackId, n) {
      NewIsNoAncestor(s, t.trackId, t.parentTrackId.value, n);
    }
    KnownRoot(s);
    PutTrackKeepsTree(s, t);
    hide Tree;
  }

  // ---- exchanges ----

  lemma SameShapeSameTree(s: RunState, s': RunState)
    requires Tree(s) && SameShape(s, s')
    ensures Tree(s')
  {
    SameShapeIsKnown(s, s');
    SameParentsSameTree(s, s');
  }

  /** A response only adds leaves. */
  lemma ObserveBlockKeepsTree(s: RunState, current: string, exchangeId: Option<string>, order: nat, b: Block)
    requires Tree(s) && current in s.tracks
    ensures Tree(ObserveBlock(s, current, exchangeId, order, b))
  {
    hide Tree, Known, SetStatuses, StringList, AgentKillTargets, RegisterAnthropicSpawn, AddSpawn;
    TreeIsKnown(s);
    if b.ToolUseBlock? {
      var s' := s.(toolUses := s.toolUses[b.id := current]);
      EmitIsKnown(s, b.id, current);
      SameTracksSameTree(s, s');
      if b.name == "Agent" {
        RegisterKeepsTree(s', AnthropicSpawn(current, b.id, b.input, exchangeId, order), current);
      } else if b.name == "spawn_agent" {
        CodexSpawnKeepsTree(s', CodexSpawn(current, b.id, b.input, exchangeId, order), current);
      } else if b.name == "wait_agent" {
        var targets := StringList(Get(b.input, "targets", Null));
        var s'' := s'.(waitTargets := s'.waitTargets[b.id := targets]);
        WaitIsKnown(s', b.id, targets);
        SameTracksSameTree(s', s'');
        SetStatusesIsKnown(s'', targets, Terminating);
        SameShapeSameTree(s'', SetStatuses(s'', targets, Terminating));
      } else if b.name == "agent_kill" {
        SetStatusesIsKnown(s', AgentKillTargets(b.input), Closed);
        SameShapeSameTree(s', SetStatuses(s', AgentKillTargets(b.input), Closed));
      }
    }
  }

  lemma TreeIsKnown(s: RunState)
    requires Tree(s)
    ensures Known(s)
  {
  }

  lemma SameTracksSameTree(s: RunState, s': RunState)
    requires Tree(s) && Known(s') && s'.tracks == s.tracks && s'.runId == s.runId
    ensures Tree(s')
  {
  }

  lemma RegisterKeepsTree(s: RunState, p: PendingSpawn, current: string)
    requires Tree(s) && current in s.tracks && p.parentTrackId == current
    ensures Tree(RegisterAnthropicSpawn(s, p))
  {
    hide Tree, Known, PutTrack;
    TreeIsKnown(s);
    AddSpawnIsKnown(s, p);
    SameTracksSameTree(s, AddSpawn(s, p));
    if p.spawnId !in s.tracks { AddLeafKeepsTree(AddSpawn(s, p), SpawnedTrack(p.spawnId, p, p.displayName)); }
  }

  lemma CodexSpawnKeepsTree(s: RunState, p: PendingSpawn, current: string)
    requires Tree(s) && current in s.tracks && p.parentTrackId == current
    ensures Tree(AddSpawn(s, p))
  {
    hide Tree, Known;
    TreeIsKnown(s);
    AddSpawnIsKnown(s, p);
    SameTracksSameTree(s, AddSpawn(s, p));
  }

  lemma {:induction false} ObserveKeepsTree(
      s: RunState, current: string, exchangeId: Option<string>, blocks: seq<Block>)
    requires Tree(s) && current in s.tracks
    ensures Tree(Observe(s, current, exchangeId, blocks))
  {
    hide Tree, ObserveBlock;
    if blocks != [] {
      var front := blocks[..|blocks| - 1];
      TreeIsKnown(s);
      ObserveKeepsTree(s, current, exchangeId, front);
      ObserveIsKnown(s, current, exchangeId, front);
      ObserveBlockKeepsTree(Observe(s, current, exchangeId, front), current, exchangeId, Spawns(front),
        blocks[|blocks| - 1]);
    }
  }

  /** The agent id that a result gives to a pending Codex spawn. */
  function ReportedAgent(loads: Loads, s: RunState, result: Block): Option<string>
    requires result.ToolResultBlock?
  {
    var id := result.toolUseId;
    if id in s.openSpawns && s.openSpawns[id].provider != "anthropic" then AgentId(loads, result) else None
  }

  /** The agent id is not the run's, nor that of the spawner or one of its ancestors. */
  ghost predicate SafeResult(loads: Loads, s: RunState, result: Block)
    requires result.ToolResultBlock?
  {
    ReportedAgent(loads, s, result).Some? ==>
      && ReportedAgent(loads, s, result).value != s.runId
      && !Ancestor(s.tracks, ReportedAgent(loads, s, result).value, s.openSpawns[result.toolUseId].parentTrackId)
  }

  /** A tool result keeps the tree exactly when it is safe. */
  lemma ResolveResultKeepsTree(loads: Loads, s: RunState, result: Block)
    requires Tree(s) && result.ToolResultBlock?
    ensures Tree(ResolveResult(loads, s, result)) <==> SafeResult(loads, s, result)
  {
    hide Tree, Known, Ancestor, ResolveSpawn, CloseReported, Reported, AgentId;
    var id := result.toolUseId;
    TreeIsKnown(s);
    if id in s.openSpawns {
      SpawnerIsKnown(s, id);
      ResolveSpawnKeepsTree(loads, s, s.openSpawns[id], result);
    } else if id in s.waitTargets {
      var s' := s.(waitTargets := s.waitTargets - {id});
      WaitIsKnown(s, id, []);
      SameTracksSameTree(s, s');
      CloseReportedIsKnown(s', s.waitTargets[id], Reported(loads, result));
      SameShapeSameTree(s', CloseReported(s', s.waitTargets[id], Reported(loads, result)));
    }
  }

  lemma ResolveSpawnKeepsTree(loads: Loads, s: RunState, p: PendingSpawn, result: Block)
    requires Tree(s) && result.ToolResultBlock? && p.parentTrackId in s.tracks
    ensures Tree(ResolveSpawn(loads, s, p, result)) <==>
      (p.provider != "anthropic" && AgentId(loads, result).Some? ==>
        AgentId(loads, result).value != s.runId && !Ancestor(s.tracks, AgentId(loads, result).value, p.parentTrackId))
  {
    hide Tree, Ancestor, Known, PutTrack, SetStatus, AgentId, SpawnedName;
    TreeIsKnown(s);
    ResolveSpawnIsKnown(loads, s, p, result);
    var agent := AgentId(loads, result);
    if p.provider == "anthropic" {
      var id := if p.trackId.Some? && p.trackId.value != "" then p.trackId.value else p.spawnId;
      var s' := SetStatus(s, id, Closed);
      SetStatusShape(s, id, Closed);
      SameShapeSameTree(s, s');
      SameTracksSameTree(s', RemoveSpawn(s', p.spawnId));
    } else if agent.None? {
      SameTracksSameTree(s, RemoveSpawn(s, p.spawnId));
    } else {
      var t := SpawnedTrack(agent.value, p, SpawnedName(loads, p, result));
      var s' := PutTrack(s, t);
      PutTrackIsKnown(s, t);
      PutTrackKeepsTree(s, t);
      RemovalIsNeutral(s', p.spawnId);
    }
  }

  lemma RemovalIsNeutral(s: RunState, id: string)
    requires Known(s)
    ensures Tree(RemoveSpawn(s, id)) <==> Tree(s)
  {
    RemoveSpawnIsKnown(s, id);
  }

  /** Every result is safe when its turn comes. */
  ghost predicate SafeResults(loads: Loads, s: RunState, results: seq<Block>)
    requires AreResults(results)
  {
    results == [] ||
    var front := results[..|results| - 1];
    SafeResults(loads, s, front) && SafeResult(loads, ResolveAll(loads, s, front).0, results[|results| - 1])
  }

  lemma {:induction false} ResolveAllKeepsTree(loads: Loads, s: RunState, results: seq<Block>)
    requires Tree(s) && AreResults(results) && SafeResults(loads, s, results)
    ensures Tree(ResolveAll(loads, s, results).0)
  {
    hide Tree, SafeResult, ResolveResult, FoundBy;
    if results != [] {
      var front, result := results[..|results| - 1], results[|results| - 1];
      ResolveAllKeepsTree(loads, s, front);
      ResolveResultKeepsTree(loads, ResolveAll(loads, s, front).0, result);
    }
  }

  lemma SomeResults(results: seq<Block>, k: nat)
    requires AreResults(results) && k <= |results|
    ensures AreResults(results[..k])
  {
  }

  /** The results are safe exactly when the tracks form a tree after each of them. */
  lemma {:induction false} SafeIffTrees(loads: Loads, s: RunState, results: seq<Block>)
    requires Tree(s) && AreResults(results)
    ensures SafeResults(loads, s, results) <==>
      forall k | 0 <= k <= |results| :: AreResults(results[..k]) && Tree(ResolveAll(loads, s, results[..k]).0)
  {
    hide Tree, SafeResult, ResolveResult, FoundBy;
    forall k | 0 <= k <= |results| ensures AreResults(results[..k]) { SomeResults(results, k); }
    if results == [] {
      assert results[..0] == [];
    } else {
      var last := |results| - 1;
      var front, result := results[..last], results[last];
      SafeIffTrees(loads, s, front);
      forall k | 0 <= k <= last ensures front[..k] == results[..k] {}
      assert front[..last] == front && results[..|results|] == results;
      if Tree(ResolveAll(loads, s, front).0) { ResolveResultKeepsTree(loads, ResolveAll(loads, s, front).0, result); }
    }
  }

  /** A request whose agent ids are safe keeps the tree. */
  lemma ClassifyKeepsTree(loads: Loads, s: RunState, request: Request)
    requires Tree(s) && SafeResults(loads, s, ToolResults(request.messages))
    ensures Tree(Classify(loads, s, request).0)
  {
    hide Tree, SafeResults, ResolveAll, AssignedTrack, ToolResults, Known, ObserveSignature, Pointed, WithCodexTrack;
    var results := ToolResults(request.messages);
    TreeIsKnown(s);
    ResolveAllIsKnown(loads, s, results);
    ResolveAllKeepsTree(loads, s, results);
    var (s1, found) := ResolveAll(loads, s, results);
    var pointed := Pointed(s1.runId, found);
    var s2 := WithCodexTrack(loads, s1, request, pointed);
    CodexTrackKeepsTree(loads, s1, request, pointed);
    var id := AssignedTrack(loads, s1, request, pointed);
    if id in s2.tracks {
      TreeIsKnown(s2);
      ObserveSignatureIsKnown(loads, s2, id, request);
      SignatureKeepsParents(loads, s2, id, request);
      SameParentsSameTree(s2, ObserveSignature(loads, s2, id, request));
    }
  }

  lemma CodexTrackKeepsTree(loads: Loads, s: RunState, request: Request, pointed: Option<string>)
    requires Tree(s)
    ensures Tree(WithCodexTrack(loads, s, request, pointed))
  {
    hide Tree, Known, PutTrack, CodexSubagentTrackId, SecondLook, ToolResults;
    TreeIsKnown(s);
    KnownRoot(s);
    var codex := CodexSubagentTrackId(loads, request);
    if codex.Some? && codex.value !in s.tracks {
      AddLeafKeepsTree(s, TrackRecord(codex.value, Some(s.runId), None, Subagent, Open, None, None, None, None));
    }
  }

  lemma SignatureKeepsParents(loads: Loads, s: RunState, id: string, request: Request)
    requires id in s.tracks
    ensures SameParents(s.tracks, ObserveSignature(loads, s, id, request).tracks)
    ensures ObserveSignature(loads, s, id, request).runId == s.runId
  {
    hide CodexDisplayName, RequestSignature;
  }
}
