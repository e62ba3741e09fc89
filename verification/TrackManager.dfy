/** The track manager as it runs: per-run dictionaries updated in place, block by block and
    result by result, each method computing what its function in `Tracks` says. */
module TrackManager {
  import opened Options
  import opened JsonValues
  import opened Ir
  import opened Tracks
  import opened TrackInvariants

  class RunTracks {
    const runId: string
    var tracks: map<string, TrackRecord>
    var order: seq<string>
    var openSpawns: map<string, PendingSpawn>
    var waitTargets: map<string, seq<string>>
    var toolUses: map<string, string>

    function State(): RunState
      reads this
    {
      RunState(runId, tracks, order, openSpawns, waitTargets, toolUses)
    }

    ghost predicate Valid()
      reads this
    {
      Known(State())
    }

    constructor (runId: string)
      ensures Valid() && State() == NewRun(runId) && this.runId == runId
    {
      this.runId := runId;
      tracks := map[runId := TrackRecord(runId, None, None, Parent, Open, None, None, None, None)];
      order, openSpawns, waitTargets, toolUses := [runId], map[], map[], map[];
    }

    method Put(t: TrackRecord)
      modifies this`tracks, this`order
      ensures State() == PutTrack(old(State()), t)
    {
      if t.trackId !in tracks { order := order + [t.trackId]; }
      tracks := tracks[t.trackId := t];
    }

    method SetTo(id: string, status: Status)
      modifies this`tracks
      ensures State() == SetStatus(old(State()), id, status)
    {
      if id in tracks { tracks := tracks[id := tracks[id].(status := status)]; }
    }

    method SetAllTo(ids: seq<string>, status: Status)
      modifies this`tracks
      ensures State() == SetStatuses(old(State()), ids, status)
    {
      hide SetStatus;
      for i := 0 to |ids|
        invariant State() == SetStatuses(old(State()), ids[..i], status)
      {
        assert ids[..i + 1][..i] == ids[..i];
        SetTo(ids[i], status);
      }
      assert ids[..|ids|] == ids;
    }

    // ---- responses ----

    method RegisterAnthropic(p: PendingSpawn)
      modifies this`openSpawns, this`tracks, this`order
      ensures State() == RegisterAnthropicSpawn(old(State()), p)
    {
      openSpawns := openSpawns[p.spawnId := p];
      if p.spawnId !in tracks { Put(SpawnedTrack(p.spawnId, p, p.displayName)); }
    }

    method RegisterCodex(p: PendingSpawn)
      modifies this`openSpawns
      ensures State() == AddSpawn(old(State()), p)
    {
      openSpawns := openSpawns[p.spawnId := p];
    }

    method ObserveToolUse(current: string, exchangeId: Option<string>, order: nat, b: Block)
      requires b.ToolUseBlock?
      modifies this
      ensures State() == ObserveBlock(old(State()), current, exchangeId, order, b)
    {
      hide RegisterAnthropicSpawn, SetStatuses, StringList, AgentKillTargets;
      toolUses := toolUses[b.id := current];
      if b.name == "Agent" {
        RegisterAnthropic(AnthropicSpawn(current, b.id, b.input, exchangeId, order));
      } else if b.name == "spawn_agent" {
        RegisterCodex(CodexSpawn(current, b.id, b.input, exchangeId, order));
      } else if b.name == "wait_agent" {
        var targets := StringList(Get(b.input, "targets", Null));
        if targets != [] {
          waitTargets := waitTargets[b.id := targets];
          SetAllTo(targets, Terminating);
        }
      } else if b.name == "agent_kill" {
        SetAllTo(AgentKillTargets(b.input), Closed);
      }
    }

    /** A response of a known track. */
    method ObserveResponse(current: string, content: seq<Block>, exchangeId: Option<string>)
      requires Valid() && current in tracks
      modifies this
      ensures Valid() && State() == Observe(old(State()), current, exchangeId, content)
    {
      hide ObserveBlock;
      var spawnOrder := 0;
      for i := 0 to |content|
        invariant State() == Observe(old(State()), current, exchangeId, content[..i])
        invariant spawnOrder == Spawns(content[..i])
      {
        assert content[..i + 1][..i] == content[..i];
        NotAToolUse(State(), current, exchangeId, spawnOrder, content[i]);
        if content[i].ToolUseBlock? {
          ObserveToolUse(current, exchangeId, spawnOrder, content[i]);
          if content[i].name == "Agent" || content[i].name == "spawn_agent" { spawnOrder := spawnOrder + 1; }
        }
      }
      assert content[..|content|] == content;
      ObserveIsKnown(old(State()), current, exchangeId, content);
      hide Known;
    }

    // ---- requests ----

    method ResolveSpawnToolResult(loads: Loads, p: PendingSpawn, result: Block)
      requires result.ToolResultBlock?
      modifies this`openSpawns, this`tracks, this`order
      ensures State() == ResolveSpawn(loads, old(State()), p, result)
    {
      hide AgentId, SpawnedName;
      if p.provider == "anthropic" {
        SetTo(if p.trackId.Some? && p.trackId.value != "" then p.trackId.value else p.spawnId, Closed);
      } else {
        var agent := AgentId(loads, result);
        if agent.Some? { Put(SpawnedTrack(agent.value, p, SpawnedName(loads, p, result))); }
      }
      openSpawns := openSpawns - {p.spawnId};
    }

    method ResolveWaitResult(loads: Loads, targets: seq<string>, result: Block)
      requires result.ToolResultBlock?
      modifies this`tracks
      ensures State() == CloseReported(old(State()), targets, Reported(loads, result))
    {
      hide SetStatus, Reported;
      var reported := Reported(loads, result);
      for i := 0 to |targets|
        invariant State() == CloseReported(old(State()), targets[..i], reported)
      {
        assert targets[..i + 1][..i] == targets[..i];
        if targets[i] in reported { SetTo(targets[i], Closed); }
      }
      assert targets[..|targets|] == targets;
    }

    /** Settles the results one by one, collecting the tracks they point to. */
    method ResolveToolResults(loads: Loads, results: seq<Block>) returns (pointed: Option<string>)
      requires AreResults(results)
      modifies this
      ensures (State(), pointed)
           == (var (s, found) := ResolveAll(loads, old(State()), results); (s, Pointed(s.runId, found)))
    {
      hide ResolveSpawn, CloseReported, Reported, ParentsOf, Pointed;
      var parents: set<string>, owners: set<string>, stale := {}, {}, false;
      for i := 0 to |results|
        invariant ResolveAll(loads, old(State()), results[..i]) == (State(), Found(parents, owners, stale))
      {
        assert results[..i + 1][..i] == results[..i];
        var id := results[i].toolUseId;
        if id in openSpawns {
          parents := parents + {openSpawns[id].parentTrackId};
          ResolveSpawnToolResult(loads, openSpawns[id], results[i]);
        } else if id in waitTargets {
          var targets := waitTargets[id];
          parents := parents + ParentsOf(State(), targets);
          waitTargets := waitTargets - {id};
          ResolveWaitResult(loads, targets, results[i]);
        } else if id in toolUses {
          var owner := toolUses[id];
          if owner in tracks && tracks[owner].status != Closed {
            owners := owners + {owner};
          } else {
            stale := true;
          }
        }
      }
      assert results[..|results|] == results;
      pointed := Pointed(runId, Found(parents, owners, stale));
    }

    method AssignRequest(loads: Loads, request: Request, pointed: Option<string>) returns (id: string)
      modifies this`tracks, this`order
      ensures id == AssignedTrack(loads, old(State()), request, pointed)
      ensures State() == WithCodexTrack(loads, old(State()), request, pointed)
      ensures old(Valid()) && (pointed.Some? ==> pointed.value in old(tracks)) ==> Valid() && id in tracks
    {
      hide SecondLook, CodexSubagentTrackId, WithSignature, RequestSignature, ToolResults;
      if Known(State()) && (pointed.Some? ==> pointed.value in tracks) {
        PlacedIsKnown(loads, State(), request, pointed);
      }
      hide Known;
      if pointed.Some? { return pointed.value; }
      var again := SecondLook(State(), ToolResults(request.messages));
      if again.Some? { return again.value; }
      var codex := CodexSubagentTrackId(loads, request);
      if codex.Some? {
        if codex.value !in tracks {
          Put(TrackRecord(codex.value, Some(runId), None, Subagent, Open, None, None, None, None));
        }
        return codex.value;
      }
      var unassigned := WithSignature(State(), order, None);
      if unassigned != [] { return unassigned[0]; }
      var matching := WithSignature(State(), order, Some(RequestSignature(request)));
      if |matching| == 1 { return matching[0]; }
      return runId;
    }

    method ObserveRequestSignature(loads: Loads, id: string, request: Request)
      requires id in tracks
      modifies this`tracks
      ensures State() == ObserveSignature(loads, old(State()), id, request)
    {
      hide CodexDisplayName, RequestSignature;
      var t := tracks[id];
      if t.signature.None? { t := t.(signature := Some(RequestSignature(request))); }
      if id != runId && t.displayName.None? {
        var name := CodexDisplayName(loads, request, id);
        if name.Some? { t := t.(displayName := name); }
      }
      tracks := tracks[id := t];
    }

    /** A request always finds its track: nothing that is looked up is missing. */
    method ClassifyRequest(loads: Loads, request: Request) returns (assignment: TrackAssignment)
      requires Valid()
      modifies this
      ensures Valid() && old(tracks.Keys) <= tracks.Keys && assignment.trackId in tracks
      ensures var (s, id) := Classify(loads, old(State()), request);
              State() == s && id in tracks && assignment == AssignmentOf(tracks[id])
    {
      hide Known, ResolveAll, AssignedTrack, WithCodexTrack, ObserveSignature, Pointed, ToolResults;
      ClassifyIsKnown(loads, State(), request);
      AssignmentNamesTrack(loads, State(), request);
      ghost var before := State();
      var pointed := ResolveToolResults(loads, ToolResults(request.messages));
      ResolveAllIsKnown(loads, before, ToolResults(request.messages));
      AssignedIsKnown(loads, State(), request, ResolveAll(loads, before, ToolResults(request.messages)).1);
      var id := AssignRequest(loads, request, pointed);
      ObserveRequestSignature(loads, id, request);
      assignment := AssignmentOf(tracks[id]);
    }

    method Record(loads: Loads, request: Request, response: Option<seq<Block>>, exchangeId: Option<string>)
      returns (assignment: TrackAssignment)
      requires Valid()
      modifies this
      ensures Valid()
      ensures var (s, id) := Classify(loads, old(State()), request);
        id in s.tracks && assignment == AssignmentOf(s.tracks[id])
        && State() == if response.Some? then Observe(s, id, exchangeId, response.value) else s
    {
      hide Known, Classify, Observe, AssignmentOf;
      AssignmentNamesTrack(loads, State(), request);
      AssignmentKeepsId();
      assignment := ClassifyRequest(loads, request);
      if response.Some? { ObserveResponse(assignment.trackId, response.value, exchangeId); }
    }
  }

  lemma NotAToolUse(s: RunState, current: string, exchangeId: Option<string>, order: nat, b: Block)
    ensures !b.ToolUseBlock? ==> ObserveBlock(s, current, exchangeId, order, b) == s
  {
  }

  lemma AssignmentNamesTrack(loads: Loads, s: RunState, request: Request)
    requires Known(s)
    ensures var (s', id) := Classify(loads, s, request); id in s'.tracks && s'.tracks[id].trackId == id
  {
    hide Classify;
    ClassifyIsKnown(loads, s, request);
    var (s', id) := Classify(loads, s, request);
    KnownName(s', id);
  }

  lemma KnownName(s: RunState, id: string)
    requires Known(s) && id in s.tracks
    ensures s.tracks[id].trackId == id
  {
  }

  class Manager {
    var runs: map<string, RunTracks>

    ghost predicate Valid()
      reads this, runs.Values
    {
      forall r | r in runs :: runs[r].runId == r && runs[r].Valid()
    }

    /** The state of a run, which a run not seen before starts with. */
    ghost function StateOf(runId: string): RunState
      reads this, runs.Values
    {
      if runId in runs then runs[runId].State() else NewRun(runId)
    }

    constructor ()
      ensures Valid() && runs == map[]
    {
      runs := map[];
    }

    method RunOf(runId: string) returns (run: RunTracks)
      requires Valid()
      modifies this
      ensures Valid() && runId in runs && run == runs[runId]
      ensures runId in old(runs) ==> runs == old(runs)
      ensures runId !in old(runs) ==> fresh(run) && runs == old(runs)[runId := run] && run.State() == NewRun(runId)
    {
      if runId !in runs {
        var created := new RunTracks(runId);
        runs := runs[runId := created];
      }
      run := runs[runId];
    }

    /** One exchange of one run; the other runs are untouched. */
    method RecordExchange(
      loads: Loads, runId: string, request: Request, response: Option<seq<Block>>, exchangeId: Option<string>)
      returns (assignment: TrackAssignment)
      requires Valid()
      modifies this, runs.Values
      ensures Valid()
      ensures var (s, id) := Classify(loads, old(StateOf(runId)), request);
        id in s.tracks && assignment == AssignmentOf(s.tracks[id])
        && StateOf(runId) == if response.Some? then Observe(s, id, exchangeId, response.value) else s
      ensures forall r | r != runId :: (r in runs <==> r in old(runs)) && StateOf(r) == old(StateOf(r))
    {
      hide Classify, Observe, AssignmentOf, RunTracks.Valid;
      var run := RunOf(runId);
      assignment := run.Record(loads, request, response, exchangeId);
    }
  }

  lemma AssignmentKeepsId()
    ensures forall t: TrackRecord :: AssignmentOf(t).trackId == t.trackId
  {
  }
}
