/** Whole runs: any sequence of requests and responses, and to which track a request's tool
    results send it. */
module TrackRuns {
  import opened Options
  import opened JsonValues
  import opened Ir
  import opened Tracks
  import opened TrackInvariants
  import opened TrackTree

  /** A request arrives, or a response of some track does. */
  datatype Event =
    | Requested(request: Request)
    | Responded(trackId: string, exchangeId: Option<string>, blocks: seq<Block>)

  function Step(loads: Loads, s: RunState, e: Event): RunState {
    match e
    case Requested(request) => Classify(loads, s, request).0
    case Responded(trackId, exchangeId, blocks) => Observe(s, trackId, exchangeId, blocks)
  }

  function After(loads: Loads, runId: string, es: seq<Event>): RunState {
    if es == [] then NewRun(runId) else Step(loads, After(loads, runId, es[..|es| - 1]), es[|es| - 1])
  }

  /** Responses belong to tracks that requests were assigned to, or any other known track. */
  predicate Legal(loads: Loads, runId: string, es: seq<Event>) {
    es == [] ||
    var front, e := es[..|es| - 1], es[|es| - 1];
    Legal(loads, runId, front) && (e.Responded? ==> e.trackId in After(loads, runId, front).tracks)
  }

  /** In every reachable state all references are known, and a further request is assigned to
      a known track. */
  lemma {:induction false} RunIsKnown(loads: Loads, runId: string, es: seq<Event>)
    requires Legal(loads, runId, es)
    ensures Known(After(loads, runId, es)) && After(loads, runId, es).runId == runId
  {
    hide Classify, Observe;
    if es == [] {
    } else {
      var front, e := es[..|es| - 1], es[|es| - 1];
      RunIsKnown(loads, runId, front);
      var s := After(loads, runId, front);
      match e {
        case Requested(request) => ClassifyIsKnown(loads, s, request);
        case Responded(trackId, exchangeId, blocks) => ObserveIsKnown(s, trackId, exchangeId, blocks);
      }
      hide Known;
    }
  }

  /** Reported agent ids are never the run's own nor an ancestor of their spawner. */
  ghost predicate SafeRun(loads: Loads, runId: string, es: seq<Event>) {
    es == [] ||
    var front, e := es[..|es| - 1], es[|es| - 1];
    && SafeRun(loads, runId, front)
    && (e.Requested? ==> SafeResults(loads, After(loads, runId, front), ToolResults(e.request.messages)))
  }

  /** Then every parent chain leads to the run's own track, in every reachable state. */
  lemma {:induction false} RunIsTree(loads: Loads, runId: string, es: seq<Event>)
    requires Legal(loads, runId, es) && SafeRun(loads, runId, es)
    ensures Tree(After(loads, runId, es))
  {
    hide Classify, Observe, SafeResults, Known;
    if es == [] {
      RunIsKnown(loads, runId, es);
      assert Reaches(NewRun(runId).tracks, runId, runId, 0);
    } else {
      hide Tree;
      var front, e := es[..|es| - 1], es[|es| - 1];
      RunIsTree(loads, runId, front);
      var s := After(loads, runId, front);
      match e {
        case Requested(request) => ClassifyKeepsTree(loads, s, request);
        case Responded(trackId, exchangeId, blocks) => ObserveKeepsTree(s, trackId, exchangeId, blocks);
      }
    }
  }

  /** At every moment of the run, between the results of one request too, the parent chains
      lead to the run's own track. */
  ghost predicate AlwaysTree(loads: Loads, runId: string, es: seq<Event>) {
    es == [] ||
    var front, e := es[..|es| - 1], es[|es| - 1];
    && AlwaysTree(loads, runId, front)
    && (e.Requested? ==>
          var results := ToolResults(e.request.messages);
          forall k | 0 <= k <= |results| ::
            AreResults(results[..k]) && Tree(ResolveAll(loads, After(loads, runId, front), results[..k]).0))
  }

  /** The agent ids are safe exactly when the tracks form a tree at every moment of the run. */
  lemma {:induction false} SafeRunIffTrees(loads: Loads, runId: string, es: seq<Event>)
    requires Legal(loads, runId, es)
    ensures SafeRun(loads, runId, es) <==> AlwaysTree(loads, runId, es)
  {
    hide Tree, SafeResults, ResolveAll, ToolResults, After;
    if es != [] {
      var front, e := es[..|es| - 1], es[|es| - 1];
      SafeRunIffTrees(loads, runId, front);
      if SafeRun(loads, runId, front) {
        RunIsTree(loads, runId, front);
        if e.Requested? { SafeIffTrees(loads, After(loads, runId, front), ToolResults(e.request.messages)); }
      }
    }
  }

  // ---- an agent id that breaks the tree ----

  /** The run's own track spawns a Codex agent, and the spawn is reported to have the run's id. */
  function SpawnOfItself(runId: string, reported: string): seq<Event> {
    var spawn := ToolUseBlock("c", "spawn_agent", map[], None);
    var result := ToolResultBlock("c", [TextBlock(reported, None)], false, None);
    var request := Request("", "codex", [], [], [Message("user", [result], None)],
                           Sampling(1, Null, Null, Null, []), Metadata(None, None, None, map[]), false, map[]);
    [Responded(runId, None, [spawn]), Requested(request)]
  }

  /** Such a run is legal, and the run's own track ends up as its own parent. */
  lemma ReportedRunIdBreaksTheTree(loads: Loads, runId: string, reported: string)
    requires runId != "" && loads(reported) == Some(Obj(map["agent_id" := Str(runId)]))
    ensures var es := SpawnOfItself(runId, reported);
            && Legal(loads, runId, es) && !SafeRun(loads, runId, es) && !Tree(After(loads, runId, es))
  {
    var es := SpawnOfItself(runId, reported);
    var request := es[1].request;
    SpawnIsPending(loads, runId, es);
    OneResult(request.messages, request.messages[0].content[0]);
    hide Classify, Known, ToolResults, SafeResults, Tree, After;
    var s := After(loads, runId, es[..1]);
    assert After(loads, runId, es) == Classify(loads, s, request).0 by { AfterRequest(loads, runId, es); }
    RunIdReported(loads, s, request, request.messages[0].content[0]);
  }

  lemma AfterRequest(loads: Loads, runId: string, es: seq<Event>)
    requires es != [] && es[|es| - 1].Requested?
    ensures After(loads, runId, es) == Classify(loads, After(loads, runId, es[..|es| - 1]), es[|es| - 1].request).0
  {
    hide Classify;
  }

  lemma {:induction false} OneResult(messages: seq<Message>, result: Block)
    requires |messages| == 1 && messages[0].content == [result] && result.ToolResultBlock?
    ensures ToolResults(messages) == [result]
  {
    var content := messages[0].content;
    assert content[1..] == [] && messages[1..] == [] && content[0] == result;
    assert BlockResults(content) == [result] + BlockResults(content[1..]);
    assert ToolResults(messages) == BlockResults(content) + ToolResults(messages[1..]);
  }

  lemma {:induction false} SpawnIsPending(loads: Loads, runId: string, es: seq<Event>)
    requires |es| == 2 && es[0] == Responded(runId, None, [ToolUseBlock("c", "spawn_agent", map[], None)])
        && es[1].Requested?
    ensures Legal(loads, runId, es) && Legal(loads, runId, es[..1])
    ensures var s := After(loads, runId, es[..1]);
      s.runId == runId && "c" in s.openSpawns && s.openSpawns["c"].provider == "codex"
  {
    assert es[..1][..0] == [] && es[..1][0] == es[0];
    var blocks := es[0].blocks;
    assert blocks[..0] == [];
    assert After(loads, runId, es[..1][..0]) == NewRun(runId);
    assert After(loads, runId, es[..1]) == Observe(NewRun(runId), runId, None, blocks);
    assert Observe(NewRun(runId), runId, None, blocks)
        == ObserveBlock(Observe(NewRun(runId), runId, None, blocks[..0]), runId, None, Spawns(blocks[..0]), blocks[0]);
    assert Legal(loads, runId, es[..1][..0]);
    assert Legal(loads, runId, es[..1]);
    assert es[..|es| - 1] == es[..1];
  }

  /** After a result with the run's id: the run's own track has a parent. */
  lemma RunIdReported(loads: Loads, s: RunState, request: Request, result: Block)
    requires ToolResults(request.messages) == [result] && request.metadata.providerMetadata == map[]
    requires result.ToolResultBlock? && |result.content| == 1 && result.content[0].TextBlock?
    requires s.runId != "" && loads(result.content[0].text) == Some(Obj(map["agent_id" := Str(s.runId)]))
    requires result.toolUseId in s.openSpawns && s.openSpawns[result.toolUseId].provider == "codex"
    ensures !SafeResults(loads, s, ToolResults(request.messages)) && !Tree(Classify(loads, s, request).0)
  {
    hide Known, ResolveResult, SafeResult, ToolResults, SecondLook, AssignedTrack, ObserveSignature, Ancestor;
    var results := [result];
    assert results[..0] == [];
    ResolveNothing(loads, s);
    ItsResult(loads, s, result);
    var (s1, found) := ResolveAll(loads, s, results);
    assert s1 == ResolveResult(loads, s, result);
    var id := AssignedTrack(loads, s1, request, Pointed(s1.runId, found));
    if id in s1.tracks { SignatureKeepsParents(loads, s1, id, request); }
  }

  lemma ResolveNothing(loads: Loads, s: RunState)
    ensures ResolveAll(loads, s, []).0 == s
  {
  }

  lemma ItsResult(loads: Loads, s: RunState, result: Block)
    requires result.ToolResultBlock? && |result.content| == 1 && result.content[0].TextBlock?
    requires s.runId != "" && loads(result.content[0].text) == Some(Obj(map["agent_id" := Str(s.runId)]))
    requires result.toolUseId in s.openSpawns && s.openSpawns[result.toolUseId].provider == "codex"
    ensures !SafeResult(loads, s, result)
    ensures var s' := ResolveResult(loads, s, result);
      s'.runId == s.runId && s.runId in s'.tracks && s'.tracks[s.runId].parentTrackId.Some?
  {
    assert result.content[..0] == [];
    assert JoinedText(result.content) == "" + result.content[0].text == result.content[0].text;
  }

  // ---- who made a call ----

  /** A tool call and the track whose response made it. */
  datatype Emission = Emission(trackId: string, toolUseId: string)

  function EmittedBy(trackId: string, blocks: seq<Block>): seq<Emission> {
    if blocks == [] then []
    else
      var front, b := EmittedBy(trackId, blocks[..|blocks| - 1]), blocks[|blocks| - 1];
      if b.ToolUseBlock? then front + [Emission(trackId, b.id)] else front
  }

  function Emitted(es: seq<Event>): seq<Emission> {
    if es == [] then []
    else
      var front, e := Emitted(es[..|es| - 1]), es[|es| - 1];
      if e.Responded? then front + EmittedBy(e.trackId, e.blocks) else front
  }

  ghost predicate UniqueUses(calls: seq<Emission>) {
    forall i, j | 0 <= i < j < |calls| :: calls[i].toolUseId != calls[j].toolUseId
  }

  /** The recorded owners are the callers, and no call is both a spawn and a wait. */
  ghost predicate Recorded(s: RunState, calls: seq<Emission>) {
    && (forall c | c in calls :: c.toolUseId in s.toolUses && s.toolUses[c.toolUseId] == c.trackId)
    && (forall id | id in s.toolUses :: exists c | c in calls :: c.toolUseId == id)
    && s.openSpawns.Keys <= s.toolUses.Keys && s.waitTargets.Keys <= s.toolUses.Keys
    && s.openSpawns.Keys !! s.waitTargets.Keys
  }

  function WaitOf(b: Block): set<string>
    requires b.ToolUseBlock?
  {
    if b.name == "wait_agent" && StringList(Get(b.input, "targets", Null)) != [] then {b.id} else {}
  }

  /** What a block of a response adds to the calls on record. */
  lemma ObserveBlockRecords(s: RunState, current: string, exchangeId: Option<string>, order: nat, b: Block)
    requires Known(s)
    ensures var s' := ObserveBlock(s, current, exchangeId, order, b);
      if b.ToolUseBlock? then
        && s'.toolUses == s.toolUses[b.id := current]
        && s'.openSpawns.Keys == s.openSpawns.Keys + (if IsSpawn(b) then {b.id} else {})
        && s'.waitTargets.Keys == s.waitTargets.Keys + WaitOf(b)
      else s' == s
  {
    hide Known, SetStatuses, StringList, AgentKillTargets, RegisterAnthropicSpawn, AddSpawn;
    if b.ToolUseBlock? {
      var s' := s.(toolUses := s.toolUses[b.id := current]);
      if b.name == "Agent" {
        RegisterRecords(s', AnthropicSpawn(current, b.id, b.input, exchangeId, order));
      } else if b.name == "spawn_agent" {
        RegisterRecords(s', CodexSpawn(current, b.id, b.input, exchangeId, order));
      } else if b.name == "wait_agent" {
        var targets := StringList(Get(b.input, "targets", Null));
        StatusesOnly(s'.(waitTargets := s'.waitTargets[b.id := targets]), targets, Terminating);
      } else if b.name == "agent_kill" {
        StatusesOnly(s', AgentKillTargets(b.input), Closed);
      }
    }
  }

  lemma RegisterRecords(s: RunState, p: PendingSpawn)
    ensures var s' := AddSpawn(s, p);
      s'.toolUses == s.toolUses && s'.waitTargets == s.waitTargets
      && s'.openSpawns.Keys == s.openSpawns.Keys + {p.spawnId}
    ensures var s' := RegisterAnthropicSpawn(s, p);
      s'.toolUses == s.toolUses && s'.waitTargets == s.waitTargets
      && s'.openSpawns.Keys == s.openSpawns.Keys + {p.spawnId}
  {
  }

  lemma {:induction false} StatusesOnly(s: RunState, ids: seq<string>, status: Status)
    ensures SetStatuses(s, ids, status) == s.(tracks := SetStatuses(s, ids, status).tracks)
  {
    if ids != [] { StatusesOnly(s, ids[..|ids| - 1], status); }
  }

  lemma UniquePrefix(calls: seq<Emission>, more: seq<Emission>)
    requires UniqueUses(calls + more)
    ensures UniqueUses(calls)
  {
    var all := calls + more;
    forall i, j | 0 <= i < j < |calls| ensures calls[i].toolUseId != calls[j].toolUseId {
      assert all[i].toolUseId != all[j].toolUseId;
    }
  }

  lemma FreshCall(calls: seq<Emission>, c: Emission)
    requires UniqueUses(calls + [c])
    ensures forall d | d in calls :: d.toolUseId != c.toolUseId
  {
    var all := calls + [c];
    forall i | 0 <= i < |calls| ensures calls[i].toolUseId != c.toolUseId {
      assert all[i].toolUseId != all[|calls|].toolUseId;
    }
  }

  lemma RecordsCall(s: RunState, calls: seq<Emission>, s': RunState, c: Emission, spawn: bool, wait: bool)
    requires Recorded(s, calls) && UniqueUses(calls + [c]) && !(spawn && wait)
    requires s'.toolUses == s.toolUses[c.toolUseId := c.trackId]
    requires s'.openSpawns.Keys == s.openSpawns.Keys + if spawn then {c.toolUseId} else {}
    requires s'.waitTargets.Keys == s.waitTargets.Keys + if wait then {c.toolUseId} else {}
    ensures Recorded(s', calls + [c])
  {
    CallerOnRecord(s, calls, s', c);
    assert c.toolUseId !in s.toolUses;
    hide UniqueUses;
  }

  lemma CallerOnRecord(s: RunState, calls: seq<Emission>, s': RunState, c: Emission)
    requires Recorded(s, calls) && UniqueUses(calls + [c]) && s'.toolUses == s.toolUses[c.toolUseId := c.trackId]
    ensures c.toolUseId !in s.toolUses
    ensures forall d | d in calls + [c] :: d.toolUseId in s'.toolUses && s'.toolUses[d.toolUseId] == d.trackId
    ensures forall id | id in s'.toolUses :: exists d | d in calls + [c] :: d.toolUseId == id
  {
    FreshCall(calls, c);
    hide UniqueUses;
    var after := calls + [c];
    forall id | id in s'.toolUses ensures exists d | d in after :: d.toolUseId == id {
      if id == c.toolUseId {
        assert c in after;
      } else {
        var d :| d in calls && d.toolUseId == id;
        assert d in after;
      }
    }
  }

  lemma {:induction false} ObserveRecords(
    s: RunState, calls: seq<Emission>, current: string, exchangeId: Option<string>, blocks: seq<Block>)
    requires Known(s) && current in s.tracks && Recorded(s, calls) && UniqueUses(calls + EmittedBy(current, blocks))
    ensures Recorded(Observe(s, current, exchangeId, blocks), calls + EmittedBy(current, blocks))
  {
    hide Known, ObserveBlock, Recorded, UniqueUses;
    if blocks == [] {
      assert calls + [] == calls;
    } else {
      var front, b := blocks[..|blocks| - 1], blocks[|blocks| - 1];
      var before := Observe(s, current, exchangeId, front);
      ObserveIsKnown(s, current, exchangeId, front);
      ObserveBlockRecords(before, current, exchangeId, Spawns(front), b);
      var calls' := calls + EmittedBy(current, front);
      if b.ToolUseBlock? {
        var c := Emission(current, b.id);
        assert calls + EmittedBy(current, blocks) == calls' + [c];
        UniquePrefix(calls', [c]);
        ObserveRecords(s, calls, current, exchangeId, front);
        RecordsCall(before, calls', ObserveBlock(before, current, exchangeId, Spawns(front), b), c, IsSpawn(b),
          WaitOf(b) != {});
      } else {
        ObserveRecords(s, calls, current, exchangeId, front);
      }
    }
  }

  /** Requests leave the owners alone and only settle spawns and waits. */
  ghost predicate Settles(s: RunState, s': RunState) {
    s'.toolUses == s.toolUses && s'.openSpawns.Keys <= s.openSpawns.Keys && s'.waitTargets.Keys <= s.waitTargets.Keys
  }

  lemma {:induction false} CloseReportedOnly(s: RunState, targets: seq<string>, reported: set<string>)
    ensures CloseReported(s, targets, reported) == s.(tracks := CloseReported(s, targets, reported).tracks)
  {
    if targets != [] { CloseReportedOnly(s, targets[..|targets| - 1], reported); }
  }

  /** A result settles its own call: afterwards it is neither a pending spawn nor a wait. */
  lemma ResolveResultSettles(loads: Loads, s: RunState, result: Block)
    requires Known(s) && result.ToolResultBlock?
    ensures var s' := ResolveResult(loads, s, result);
      Settles(s, s')
      && (s.openSpawns.Keys !! s.waitTargets.Keys ==>
            result.toolUseId !in s'.openSpawns && result.toolUseId !in s'.waitTargets)
  {
    hide Known, Reported, CloseReported, ResolveSpawn;
    var id := result.toolUseId;
    if id in s.openSpawns {
      SpawnerIsKnown(s, id);
      ResolveSpawnSettles(loads, s, s.openSpawns[id], result);
    } else if id in s.waitTargets {
      CloseReportedOnly(s.(waitTargets := s.waitTargets - {id}), s.waitTargets[id], Reported(loads, result));
    }
  }

  lemma ResolveSpawnSettles(loads: Loads, s: RunState, p: PendingSpawn, result: Block)
    requires result.ToolResultBlock?
    ensures var s' := ResolveSpawn(loads, s, p, result);
      s'.toolUses == s.toolUses && s'.openSpawns == s.openSpawns - {p.spawnId} && s'.waitTargets == s.waitTargets
  {
    hide AgentId, SpawnedName;
  }

  lemma {:induction false} ResolveAllSettles(loads: Loads, s: RunState, results: seq<Block>)
    requires Known(s) && AreResults(results)
    ensures var s' := ResolveAll(loads, s, results).0;
      Settles(s, s')
      && (s.openSpawns.Keys !! s.waitTargets.Keys ==>
            forall r | r in results :: r.toolUseId !in s'.openSpawns && r.toolUseId !in s'.waitTargets)
  {
    hide Known, ResolveResult, FoundBy;
    if results != [] {
      var front, result := results[..|results| - 1], results[|results| - 1];
      ResolveAllSettles(loads, s, front);
      ResolveAllIsKnown(loads, s, front);
      ResolveResultSettles(loads, ResolveAll(loads, s, front).0, result);
      assert results == front + [result];
    }
  }

  /** The second look never finds anything, as the first one settled every result, unless a
      call's id was used for both a spawn and a wait. */
  lemma SecondLookIsSilent(loads: Loads, s: RunState, results: seq<Block>)
    requires Known(s) && AreResults(results) && s.openSpawns.Keys !! s.waitTargets.Keys
    ensures SecondLook(ResolveAll(loads, s, results).0, results) == None
  {
    ResolveAllSettles(loads, s, results);
    NothingToSee(ResolveAll(loads, s, results).0, results);
    hide ResolveAll, SecondLook;
  }

  lemma {:induction false} NothingToSee(s: RunState, results: seq<Block>)
    requires AreResults(results)
    requires forall r | r in results :: r.toolUseId !in s.openSpawns && r.toolUseId !in s.waitTargets
    ensures SecondLook(s, results) == None
  {
    if results != [] {
      assert results[0] in results;
      NothingToSee(s, results[1..]);
    }
  }

  lemma ClassifySettles(loads: Loads, s: RunState, request: Request)
    requires Known(s)
    ensures Settles(s, Classify(loads, s, request).0)
  {
    hide Known, ResolveAll, AssignedTrack, Pointed, CodexSubagentTrackId, SecondLook, ToolResults, CodexDisplayName,
         RequestSignature;
    ResolveAllSettles(loads, s, ToolResults(request.messages));
  }

  /** With unique call ids, the owner on record is the caller, in every reachable state. */
  lemma {:induction false} RunRecords(loads: Loads, runId: string, es: seq<Event>)
    requires Legal(loads, runId, es) && UniqueUses(Emitted(es))
    ensures Recorded(After(loads, runId, es), Emitted(es))
  {
    hide Classify, Observe, UniqueUses;
    if es != [] {
      var front, e := es[..|es| - 1], es[|es| - 1];
      var s := After(loads, runId, front);
      RunIsKnown(loads, runId, front);
      match e {
        case Requested(request) =>
          RunRecords(loads, runId, front);
          ClassifySettles(loads, s, request);
        case Responded(trackId, exchangeId, blocks) =>
          UniquePrefix(Emitted(front), EmittedBy(trackId, blocks));
          RunRecords(loads, runId, front);
          ObserveRecords(s, Emitted(front), trackId, exchangeId, blocks);
      }
      hide Known;
    }
  }

  // ---- attribution ----

  /** All results answer calls on record for one track that is not closed, and none of them
      is a pending spawn or wait. */
  predicate AnswersOnly(s: RunState, results: seq<Block>, trackId: string)
    requires AreResults(results)
  {
    forall r | r in results ::
      && r.toolUseId !in s.openSpawns && r.toolUseId !in s.waitTargets
      && r.toolUseId in s.toolUses && s.toolUses[r.toolUseId] == trackId
  }

  lemma {:induction false} ResolvesToOwner(loads: Loads, s: RunState, results: seq<Block>, trackId: string)
    requires AreResults(results) && AnswersOnly(s, results, trackId)
    requires trackId in s.tracks && s.tracks[trackId].status != Closed
    ensures ResolveAll(loads, s, results)
         == (s, Found({}, if results == [] then {} else {trackId}, false))
  {
    if results != [] {
      var front, result := results[..|results| - 1], results[|results| - 1];
      assert results == front + [result] && result in results;
      ResolvesToOwner(loads, s, front, trackId);
      assert {trackId} + {trackId} == {trackId} && {} + {trackId} == {trackId};
    }
  }

  /** Such a request is assigned to that track. */
  lemma OwnerIsAssigned(loads: Loads, s: RunState, request: Request, trackId: string)
    requires var results := ToolResults(request.messages); results != [] && AnswersOnly(s, results, trackId)
    requires trackId in s.tracks && s.tracks[trackId].status != Closed
    ensures Classify(loads, s, request).1 == trackId
  {
    ResolvesToOwner(loads, s, ToolResults(request.messages), trackId);
    assert |{trackId}| == 1 && Only({trackId}) == trackId;
    hide ToolResults, ResolveAll, ObserveSignature, WithCodexTrack, AnswersOnly;
  }

  /** In any run with unique call ids: a request whose results all answer calls that one
      track's responses made goes to that track, unless it is closed or one of the calls is a
      spawn or wait still pending. */
  lemma CallerGetsItsResults(loads: Loads, runId: string, es: seq<Event>, request: Request, trackId: string)
    requires Legal(loads, runId, es) && UniqueUses(Emitted(es))
    requires var s, results := After(loads, runId, es), ToolResults(request.messages);
      && results != []
      && (forall r | r in results :: Emission(trackId, r.toolUseId) in Emitted(es))
      && (forall r | r in results :: r.toolUseId !in s.openSpawns && r.toolUseId !in s.waitTargets)
      && trackId in s.tracks && s.tracks[trackId].status != Closed
    ensures Classify(loads, After(loads, runId, es), request).1 == trackId
  {
    hide After, Classify, Emitted, ToolResults, UniqueUses;
    RunRecords(loads, runId, es);
    var s, results := After(loads, runId, es), ToolResults(request.messages);
    forall r | r in results ensures r.toolUseId in s.toolUses && s.toolUses[r.toolUseId] == trackId {
      assert Emission(trackId, r.toolUseId) in Emitted(es);
    }
    OwnerIsAssigned(loads, s, request, trackId);
  }

  /** In any run with unique call ids, the second look at the tool results is idle. */
  lemma SecondLookIsIdle(loads: Loads, runId: string, es: seq<Event>, request: Request)
    requires Legal(loads, runId, es) && UniqueUses(Emitted(es))
    ensures var results := ToolResults(request.messages);
            SecondLook(ResolveAll(loads, After(loads, runId, es), results).0, results) == None
  {
    hide After, Emitted, ToolResults, UniqueUses, ResolveAll;
    RunRecords(loads, runId, es);
    RunIsKnown(loads, runId, es);
    SecondLookIsSilent(loads, After(loads, runId, es), ToolResults(request.messages));
  }
}
