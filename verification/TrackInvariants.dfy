/** What holds of a run's tracks after any exchanges: every reference is known, the parents
    form a tree under the run, and tool results go back to the track that made the calls. */
module TrackInvariants {
  import opened Options
  import opened JsonValues
  import opened Ir
  import opened Tracks

  // ---- known references ----

  /** No id is listed twice. */
  ghost predicate Once(ids: seq<string>) { forall i, j | 0 <= i < j < |ids| :: ids[i] != ids[j] }

  /** Every track sits under its own id and every reference to a track is to a known one. */
  ghost predicate Known(s: RunState) {
    && s.runId in s.tracks && (forall id :: id in s.order <==> id in s.tracks) && Once(s.order)
    && (forall id | id in s.tracks :: s.tracks[id].trackId == id)
    && (forall id | id in s.tracks && s.tracks[id].parentTrackId.Some? :: s.tracks[id].parentTrackId.value in s.tracks)
    && (forall id | id in s.openSpawns :: s.openSpawns[id].spawnId == id && s.openSpawns[id].parentTrackId in s.tracks)
    && (forall id | id in s.toolUses :: s.toolUses[id] in s.tracks)
  }

  /** No track is lost. */
  ghost predicate Grows(s: RunState, s': RunState) { s'.runId == s.runId && s.tracks.Keys <= s'.tracks.Keys }

  lemma PutTrackIsKnown(s: RunState, t: TrackRecord)
    requires Known(s) && (t.parentTrackId.Some? ==> t.parentTrackId.value in s.tracks)
    ensures Known(PutTrack(s, t)) && Grows(s, PutTrack(s, t))
  {
  }

  lemma SetStatusIsKnown(s: RunState, id: string, status: Status)
    requires Known(s)
    ensures Known(SetStatus(s, id, status)) && SameShape(s, SetStatus(s, id, status))
  {
    SetStatusShape(s, id, status);
    SameShapeIsKnown(s, SetStatus(s, id, status));
    hide Known, SetStatus, SameShape;
  }

  lemma SetStatusShape(s: RunState, id: string, status: Status)
    ensures SameShape(s, SetStatus(s, id, status))
  {
  }

  lemma SameShapeIsKnown(s: RunState, s': RunState)
    requires Known(s) && SameShape(s, s')
    ensures Known(s')
  {
  }

  /** Only statuses differ. */
  ghost predicate SameShape(s: RunState, s': RunState) {
    && s' == s.(tracks := s'.tracks) && s'.tracks.Keys == s.tracks.Keys
    && forall id | id in s.tracks :: s'.tracks[id] == s.tracks[id].(status := s'.tracks[id].status)
  }

  lemma {:induction false} SetStatusesIsKnown(s: RunState, ids: seq<string>, status: Status)
    requires Known(s)
    ensures Known(SetStatuses(s, ids, status)) && SameShape(s, SetStatuses(s, ids, status))
  {
    hide Known, SetStatus;
    if ids != [] {
      SetStatusesIsKnown(s, ids[..|ids| - 1], status);
      SetStatusIsKnown(SetStatuses(s, ids[..|ids| - 1], status), ids[|ids| - 1], status);
    }
  }

  lemma {:induction false} CloseReportedIsKnown(s: RunState, targets: seq<string>, reported: set<string>)
    requires Known(s)
    ensures Known(CloseReported(s, targets, reported)) && SameShape(s, CloseReported(s, targets, reported))
  {
    hide Known, SetStatus;
    if targets != [] {
      var front := targets[..|targets| - 1];
      CloseReportedIsKnown(s, front, reported);
      SetStatusIsKnown(CloseReported(s, front, reported), targets[|targets| - 1], Closed);
    }
  }

  lemma AddSpawnIsKnown(s: RunState, p: PendingSpawn)
    requires Known(s) && p.parentTrackId in s.tracks
    ensures Known(AddSpawn(s, p))
  {
  }

  lemma ObserveBlockIsKnown(s: RunState, current: string, exchangeId: Option<string>, order: nat, b: Block)
    requires Known(s) && current in s.tracks
    ensures var s' := ObserveBlock(s, current, exchangeId, order, b); Known(s') && Grows(s, s')
  {
    hide Known, SetStatuses, StringList, AgentKillTargets, RegisterAnthropicSpawn, AddSpawn, AnthropicSpawn, CodexSpawn;
    if b.ToolUseBlock? {
      var s' := s.(toolUses := s.toolUses[b.id := current]);
      EmitIsKnown(s, b.id, current);
      if b.name == "Agent" {
        RegisterIsKnown(s', current, b.id, b.input, exchangeId, order);
      } else if b.name == "spawn_agent" {
        CodexSpawnIsKnown(s', current, b.id, b.input, exchangeId, order);
      } else if b.name == "wait_agent" {
        var targets := StringList(Get(b.input, "targets", Null));
        WaitIsKnown(s', b.id, targets);
        SetStatusesIsKnown(s'.(waitTargets := s'.waitTargets[b.id := targets]), targets, Terminating);
      } else if b.name == "agent_kill" {
        SetStatusesIsKnown(s', AgentKillTargets(b.input), Closed);
      }
    }
  }

  lemma RegisterIsKnown(
    s: RunState, current: string, id: string, input: Fields, exchangeId: Option<string>, order: nat)
    requires Known(s) && current in s.tracks
    ensures var s' := RegisterAnthropicSpawn(s, AnthropicSpawn(current, id, input, exchangeId, order));
            Known(s') && Grows(s, s')
  {
    hide Known, PutTrack;
    var p := AnthropicSpawn(current, id, input, exchangeId, order);
    AddSpawnIsKnown(s, p);
    PutTrackIsKnown(AddSpawn(s, p), SpawnedTrack(p.spawnId, p, p.displayName));
  }

  lemma CodexSpawnIsKnown(
    s: RunState, current: string, id: string, input: Fields, exchangeId: Option<string>, order: nat)
    requires Known(s) && current in s.tracks
    ensures var s' := AddSpawn(s, CodexSpawn(current, id, input, exchangeId, order)); Known(s') && Grows(s, s')
  {
    hide Known;
    AddSpawnIsKnown(s, CodexSpawn(current, id, input, exchangeId, order));
  }

  lemma EmitIsKnown(s: RunState, id: string, current: string)
    requires Known(s) && current in s.tracks
    ensures Known(s.(toolUses := s.toolUses[id := current]))
  {
  }

  lemma WaitIsKnown(s: RunState, id: string, targets: seq<string>)
    requires Known(s)
    ensures Known(s.(waitTargets := s.waitTargets[id := targets])) && Known(s.(waitTargets := s.waitTargets - {id}))
  {
  }

  lemma SpawnerIsKnown(s: RunState, id: string)
    requires Known(s) && id in s.openSpawns
    ensures s.openSpawns[id].spawnId == id && s.openSpawns[id].parentTrackId in s.tracks
  {
  }

  lemma RemoveSpawnIsKnown(s: RunState, id: string)
    requires Known(s)
    ensures Known(RemoveSpawn(s, id))
  {
  }

  lemma {:induction false} ObserveIsKnown(s: RunState, current: string, exchangeId: Option<string>, blocks: seq<Block>)
    requires Known(s) && current in s.tracks
    ensures var s' := Observe(s, current, exchangeId, blocks); Known(s') && Grows(s, s')
  {
    hide Known, ObserveBlock;
    if blocks != [] {
      var front := blocks[..|blocks| - 1];
      ObserveIsKnown(s, current, exchangeId, front);
      ObserveBlockIsKnown(Observe(s, current, exchangeId, front), current, exchangeId, Spawns(front),
        blocks[|blocks| - 1]);
    }
  }

  /** One tool result keeps references known, and finds only known tracks. */
  lemma ResolveResultIsKnown(loads: Loads, s: RunState, found: Found, result: Block)
    requires Known(s) && result.ToolResultBlock?
    ensures var s' := ResolveResult(loads, s, result); Known(s') && Grows(s, s')
    ensures var found' := FoundBy(s, found, result);
            (forall p | p in found'.parents :: p in found.parents || p in s.tracks)
            && (forall o | o in found'.owners :: o in found.owners || o in s.tracks)
  {
    var id := result.toolUseId;
    if id in s.openSpawns {
      var p := s.openSpawns[id];
      ResolveSpawnIsKnown(loads, s, p, result);
    } else if id in s.waitTargets {
      WaitIsKnown(s, id, []);
      CloseReportedIsKnown(s.(waitTargets := s.waitTargets - {id}), s.waitTargets[id], Reported(loads, result));
    }
    hide ResolveSpawn, CloseReported, Reported;
  }

  lemma ResolveSpawnIsKnown(loads: Loads, s: RunState, p: PendingSpawn, result: Block)
    requires Known(s) && result.ToolResultBlock? && p.parentTrackId in s.tracks
    ensures var s' := ResolveSpawn(loads, s, p, result); Known(s') && Grows(s, s')
  {
    hide Known, PutTrack, SetStatus, AgentId, SpawnedName;
    var agent := AgentId(loads, result);
    if p.provider == "anthropic" {
      var id := if p.trackId.Some? && p.trackId.value != "" then p.trackId.value else p.spawnId;
      SetStatusIsKnown(s, id, Closed);
      RemoveSpawnIsKnown(SetStatus(s, id, Closed), p.spawnId);
    } else if agent.None? {
      RemoveSpawnIsKnown(s, p.spawnId);
    } else {
      var t := SpawnedTrack(agent.value, p, SpawnedName(loads, p, result));
      PutTrackIsKnown(s, t);
      RemoveSpawnIsKnown(PutTrack(s, t), p.spawnId);
    }
  }

  lemma {:induction false} ResolveAllIsKnown(loads: Loads, s: RunState, results: seq<Block>)
    requires Known(s) && AreResults(results)
    ensures var (s', found) := ResolveAll(loads, s, results);
            Known(s') && Grows(s, s') && found.parents <= s'.tracks.Keys && found.owners <= s'.tracks.Keys
  {
    hide Known, ResolveResult, FoundBy;
    if results != [] {
      var front, result := results[..|results| - 1], results[|results| - 1];
      ResolveAllIsKnown(loads, s, front);
      var (s', found) := ResolveAll(loads, s, front);
      ResolveResultIsKnown(loads, s', found, result);
    }
  }

  lemma {:induction false} SecondLookIsKnown(s: RunState, results: seq<Block>)
    requires Known(s) && AreResults(results)
    ensures SecondLook(s, results).Some? ==> SecondLook(s, results).value in s.tracks
  {
    if results != [] { SecondLookIsKnown(s, results[1..]); }
  }

  /** A request is always assigned to a known track, so nothing it looks up is missing. */
  lemma ClassifyIsKnown(loads: Loads, s: RunState, request: Request)
    requires Known(s)
    ensures var (s', id) := Classify(loads, s, request); Known(s') && Grows(s, s') && id in s'.tracks
  {
    var results := ToolResults(request.messages);
    var (s1, found) := ResolveAll(loads, s, results);
    ResolveAllIsKnown(loads, s, results);
    AssignedIsKnown(loads, s1, request, found);
    var pointed := Pointed(s1.runId, found);
    var s2 := WithCodexTrack(loads, s1, request, pointed);
    ObserveSignatureIsKnown(loads, s2, AssignedTrack(loads, s1, request, pointed), request);
    hide Known, ResolveAll, AssignedTrack, WithCodexTrack, ObserveSignature, Pointed;
  }

  lemma AssignedIsKnown(loads: Loads, s: RunState, request: Request, found: Found)
    requires Known(s) && found.parents <= s.tracks.Keys && found.owners <= s.tracks.Keys
    ensures var pointed := Pointed(s.runId, found);
            var s' := WithCodexTrack(loads, s, request, pointed);
            Known(s') && Grows(s, s') && AssignedTrack(loads, s, request, pointed) in s'.tracks
  {
    PointedIsFound(s.runId, found);
    KnownRoot(s);
    hide Known, Pointed, WithCodexTrack, AssignedTrack;
    PlacedIsKnown(loads, s, request, Pointed(s.runId, found));
  }

  /** Wherever the results point, if to a known track, the assigned track is known. */
  lemma PlacedIsKnown(loads: Loads, s: RunState, request: Request, pointed: Option<string>)
    requires Known(s) && (pointed.Some? ==> pointed.value in s.tracks)
    ensures var s' := WithCodexTrack(loads, s, request, pointed);
            Known(s') && Grows(s, s') && AssignedTrack(loads, s, request, pointed) in s'.tracks
  {
    hide CodexSubagentTrackId, SecondLook, RequestSignature, ToolResults, WithSignature, Known, PutTrack;
    KnownRoot(s);
    SecondLookIsKnown(s, ToolResults(request.messages));
    var codex := CodexSubagentTrackId(loads, request);
    if codex.Some? {
      PutTrackIsKnown(s, TrackRecord(codex.value, Some(s.runId), None, Subagent, Open, None, None, None, None));
      PutTrackAdds(s, TrackRecord(codex.value, Some(s.runId), None, Subagent, Open, None, None, None, None));
    }
    var unassigned := WithSignature(s, s.order, None);
    var matching := WithSignature(s, s.order, Some(RequestSignature(request)));
    assert unassigned != [] ==> unassigned[0] in unassigned;
    assert |matching| == 1 ==> matching[0] in matching;
  }

  lemma PointedIsFound(runId: string, found: Found)
    ensures var p := Pointed(runId, found);
            p.Some? ==> p.value in found.parents || p.value in found.owners || p.value == runId
  {
  }

  lemma KnownRoot(s: RunState)
    requires Known(s)
    ensures s.runId in s.tracks && forall id | id in s.order :: id in s.tracks
  {
  }

  lemma PutTrackAdds(s: RunState, t: TrackRecord)
    ensures t.trackId in PutTrack(s, t).tracks
  {
  }

  lemma ObserveSignatureIsKnown(loads: Loads, s: RunState, id: string, request: Request)
    requires Known(s) && id in s.tracks
    ensures Known(ObserveSignature(loads, s, id, request)) && Grows(s, ObserveSignature(loads, s, id, request))
  {
    hide CodexDisplayName, RequestSignature;
  }

  // ---- the choice among subagents ----

  /** An active subagent that carries this signature, or none yet. */
  predicate Carries(s: RunState, id: string, signature: Option<Signature>) {
    ActiveSubagent(s, id) && s.tracks[id].signature == signature
  }

  /** The first of the listed ids that carries the signature. */
  ghost predicate IsFirst(s: RunState, ids: seq<string>, signature: Option<Signature>, id: string) {
    exists i | 0 <= i < |ids| ::
      ids[i] == id && Carries(s, id, signature) && forall j | 0 <= j < i :: !Carries(s, ids[j], signature)
  }

  lemma {:induction false} FirstFound(s: RunState, ids: seq<string>, signature: Option<Signature>)
    ensures WithSignature(s, ids, signature) != [] ==> IsFirst(s, ids, signature, WithSignature(s, ids, signature)[0])
  {
    if ids != [] {
      var front, last := ids[..|ids| - 1], |ids| - 1;
      FirstFound(s, front, signature);
      var found := WithSignature(s, front, signature);
      if found != [] {
        var i :| 0 <= i < |front| && front[i] == found[0] && Carries(s, found[0], signature)
                 && forall j | 0 <= j < i :: !Carries(s, front[j], signature);
        assert ids[i] == found[0] && forall j | 0 <= j < i :: !Carries(s, ids[j], signature);
      } else {
        forall j | 0 <= j < last ensures !Carries(s, ids[j], signature) { assert ids[j] in front; }
        if Carries(s, ids[last], signature) { assert IsFirst(s, ids, signature, ids[last]); }
      }
    }
  }

  /** Among ids listed once, one is found exactly when one carries the signature. */
  lemma {:induction false} OneFound(s: RunState, ids: seq<string>, signature: Option<Signature>, id: string)
    requires Once(ids)
    ensures WithSignature(s, ids, signature) == [id]
      <==> id in ids && Carries(s, id, signature) && forall u | u in ids && Carries(s, u, signature) :: u == id
  {
    if ids != [] {
      var front, last := ids[..|ids| - 1], ids[|ids| - 1];
      assert ids == front + [last];
      OnceAppend(front, last);
      hide Once;
      OneFound(s, front, signature, id);
      NoneFound(s, front, signature);
      var found := WithSignature(s, front, signature);
      assert WithSignature(s, ids, signature) == if Carries(s, last, signature) then found + [last] else found;
      assert |found + [last]| == |found| + 1 && (found + [last])[|found|] == last;
      assert found + [last] == [id] <==> found == [] && last == id;
    }
  }

  lemma OnceAppend(ids: seq<string>, id: string)
    ensures Once(ids + [id]) <==> Once(ids) && id !in ids
  {
    var all := ids + [id];
    if Once(all) {
      forall i, j | 0 <= i < j < |ids| ensures ids[i] != ids[j] { assert all[i] != all[j]; }
      forall i | 0 <= i < |ids| ensures ids[i] != id { assert all[i] != all[|ids|]; }
    }
  }

  lemma NoneFound(s: RunState, ids: seq<string>, signature: Option<Signature>)
    ensures WithSignature(s, ids, signature) == [] <==> forall u | u in ids :: !Carries(s, u, signature)
  {
    hide ActiveSubagent;
    var found := WithSignature(s, ids, signature);
    if found != [] { assert found[0] in found && Carries(s, found[0], signature); }
  }

  /** The earliest active subagent still without a signature; else the one active subagent with
      the request's signature, if there is exactly one; else the run's own track. */
  ghost predicate ChosenAmongSubagents(s: RunState, request: Request, id: string) {
    var signature := Some(RequestSignature(request));
    && ((exists u :: Carries(s, u, None)) ==> IsFirst(s, s.order, None, id))
    && ((forall u :: !Carries(s, u, None)) ==>
          && (forall u | Carries(s, u, signature) && (forall x | Carries(s, x, signature) :: x == u) :: id == u)
          && ((forall u :: !Carries(s, u, signature)) ==> id == s.runId)
          && ((exists u, x :: u != x && Carries(s, u, signature) && Carries(s, x, signature)) ==> id == s.runId))
  }

  /** A request that neither its results nor a Codex id place is placed among the subagents. */
  lemma AssignmentMeans(loads: Loads, s: RunState, request: Request)
    requires Known(s) && SecondLook(s, ToolResults(request.messages)) == None
        && CodexSubagentTrackId(loads, request) == None
    ensures ChosenAmongSubagents(s, request, AssignedTrack(loads, s, request, None))
  {
    var signature := Some(RequestSignature(request));
    FirstFound(s, s.order, None);
    NoneFound(s, s.order, None);
    CarriersAreListed(s);
    var matching := WithSignature(s, s.order, signature);
    forall u ensures matching == [u] <==>
      u in s.order && Carries(s, u, signature) && forall x | x in s.order && Carries(s, x, signature) :: x == u
    {
      OneFound(s, s.order, signature, u);
    }
    if |matching| == 1 { assert matching == [matching[0]]; }
    hide Known, SecondLook, CodexSubagentTrackId, ToolResults, RequestSignature, WithSignature, Carries, IsFirst;
  }

  lemma CarriersAreListed(s: RunState)
    requires Known(s)
    ensures forall u, signature | Carries(s, u, signature) :: u in s.order
  {
  }
}
