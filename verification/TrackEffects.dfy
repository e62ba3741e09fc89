/** What one block of a response, one tool result and one request do to the tracks, told by
    the fields of the wire that they are read from. */
module TrackEffects {
  import opened Options
  import opened JsonValues
  import opened Ir
  import opened Tracks

  /** The value is a string that is not empty. */
  predicate IsName(v: Json, name: string) { v == Str(name) && name != "" }

  predicate TextIs(fields: Fields, key: string, name: Option<string>) {
    match name
    case Some(s) => key in fields && IsName(fields[key], s)
    case None => key !in fields || !fields[key].Str? || fields[key].s == ""
  }

  lemma NameIsRead(fields: Fields, key: string)
    ensures TextIs(fields, key, StringOrNone(Get(fields, key, Null)))
  {
  }

  /** The strings of a list under a key. */
  predicate Lists(fields: Fields, key: string, name: string) {
    key in fields && fields[key].List? && Str(name) in fields[key].items
  }

  lemma {:induction false} StringsAre(items: seq<Json>, name: string)
    ensures name in Strings(items) <==> Str(name) in items
  {
    if items != [] {
      StringsAre(items[1..], name);
      assert items == [items[0]] + items[1..];
    }
  }

  lemma ListIsRead(fields: Fields, key: string, name: string)
    ensures name in StringList(Get(fields, key, Null)) <==> Lists(fields, key, name)
  {
    var v := Get(fields, key, Null);
    if v.List? { StringsAre(v.items, name); }
  }

  /** The same tracks, but for the status of some of them. */
  ghost predicate StatusSet(before: RunState, after: RunState, chosen: string -> bool, status: Status) {
    && after.tracks.Keys == before.tracks.Keys
    && forall id | id in before.tracks ::
         after.tracks[id] == if chosen(id) then before.tracks[id].(status := status) else before.tracks[id]
  }

  lemma OneMoreSet(before: RunState, s: RunState, ids: seq<string>, id: string, status: Status)
    requires StatusSet(before, s, x => x in ids, status)
    ensures StatusSet(before, SetStatus(s, id, status), x => x in ids + [id], status)
  {
  }

  lemma {:induction false} StatusesAreSet(s: RunState, ids: seq<string>, status: Status)
    ensures StatusSet(s, SetStatuses(s, ids, status), id => id in ids, status)
    ensures SetStatuses(s, ids, status) == s.(tracks := SetStatuses(s, ids, status).tracks)
  {
    if ids != [] {
      var front, last := ids[..|ids| - 1], ids[|ids| - 1];
      StatusesAreSet(s, front, status);
      assert ids == front + [last];
      OneMoreSet(s, SetStatuses(s, front, status), front, last, status);
      hide StatusSet;
    }
  }

  lemma {:induction false} ReportedAreClosed(s: RunState, targets: seq<string>, reported: set<string>)
    ensures StatusSet(s, CloseReported(s, targets, reported), id => id in targets && id in reported, Closed)
    ensures CloseReported(s, targets, reported) == s.(tracks := CloseReported(s, targets, reported).tracks)
  {
    if targets != [] {
      var front, last := targets[..|targets| - 1], targets[|targets| - 1];
      ReportedAreClosed(s, front, reported);
      assert targets == front + [last];
      OneMoreClosed(s, CloseReported(s, front, reported), front, last, reported);
      hide StatusSet;
    }
  }

  lemma OneMoreClosed(before: RunState, s: RunState, ids: seq<string>, id: string, reported: set<string>)
    requires StatusSet(before, s, x => x in ids && x in reported, Closed)
    ensures StatusSet(before, if id in reported then SetStatus(s, id, Closed) else s,
                      x => x in ids + [id] && x in reported, Closed)
  {
  }

  // ---- one block of a response ----

  /** A new subagent's track: a child of the spawner, open, under its display name, with the
      place of its spawn and no signature yet. */
  ghost predicate NewChild(
      t: TrackRecord, id: string, parent: string, name: Option<string>, exchangeId: Option<string>, spawnId: string,
      order: Option<nat>)
  {
    && t.trackId == id && t.parentTrackId == Some(parent) && t.role == Subagent && t.status == Open
    && t.displayName == name && t.signature == None
    && t.spawnExchangeId == exchangeId && t.spawnToolUseId == Some(spawnId) && t.spawnOrder == order
  }

  predicate PendingAgent(s: RunState, id: string) {
    && id in s.openSpawns && s.openSpawns[id].provider == "anthropic"
    && s.openSpawns[id].spawnId == id && s.openSpawns[id].trackId == Some(id)
  }

  predicate PendingCodex(s: RunState, id: string) {
    id in s.openSpawns && s.openSpawns[id].provider == "codex" && s.openSpawns[id].spawnId == id
  }

  /** Every call is on record under the track that made it. */
  lemma CallRecorded(s: RunState, current: string, exchangeId: Option<string>, order: nat, b: Block)
    requires b.ToolUseBlock?
    ensures ObserveBlock(s, current, exchangeId, order, b).toolUses == s.toolUses[b.id := current]
    ensures ObserveBlock(s, current, exchangeId, order, b).runId == s.runId
  {
    hide StringList, AgentKillTargets, SetStatuses, StatusSet;
    var s' := s.(toolUses := s.toolUses[b.id := current]);
    var targets := StringList(Get(b.input, "targets", Null));
    StatusesAreSet(s'.(waitTargets := s'.waitTargets[b.id := targets]), targets, Terminating);
    StatusesAreSet(s', AgentKillTargets(b.input), Closed);
  }

  /** An `Agent` call has a track at once, named by its type, unless its id has one already. */
  lemma AgentSpawns(s: RunState, current: string, exchangeId: Option<string>, order: nat, b: Block)
    requires b.ToolUseBlock? && b.name == "Agent"
    ensures var s' := ObserveBlock(s, current, exchangeId, order, b);
            && PendingAgent(s', b.id) && s'.openSpawns[b.id].parentTrackId == current
            && s'.waitTargets == s.waitTargets && s'.openSpawns.Keys == s.openSpawns.Keys + {b.id}
            && (forall id | id in s.tracks :: id in s'.tracks && s'.tracks[id] == s.tracks[id])
            && (b.id in s.tracks ==> s'.tracks == s.tracks && s'.order == s.order)
            && (b.id !in s.tracks ==>
                  && s'.tracks.Keys == s.tracks.Keys + {b.id} && s'.order == s.order + [b.id]
                  && var t := s'.tracks[b.id];
                     && NewChild(t, b.id, current, t.displayName, exchangeId, b.id, Some(order))
                     && TextIs(b.input, "subagent_type", t.displayName))
  {
    NameIsRead(b.input, "subagent_type");
    hide StringOrNone, TextIs;
  }

  /** A Codex spawn waits for its result to get a track. */
  lemma CodexSpawns(s: RunState, current: string, exchangeId: Option<string>, order: nat, b: Block)
    requires b.ToolUseBlock? && b.name == "spawn_agent"
    ensures var s' := ObserveBlock(s, current, exchangeId, order, b);
            && s'.tracks == s.tracks && s'.order == s.order && s'.waitTargets == s.waitTargets
            && s'.openSpawns.Keys == s.openSpawns.Keys + {b.id} && PendingCodex(s', b.id)
            && var p := s'.openSpawns[b.id];
               && p.parentTrackId == current && TextIs(b.input, "agent_type", p.displayName)
               && p.spawnExchangeId == exchangeId && p.spawnToolUseId == Some(b.id) && p.spawnOrder == Some(order)
  {
    NameIsRead(b.input, "agent_type");
    hide StringOrNone, TextIs;
  }

  /** A wait marks its targets as terminating and is pending, unless it names none. */
  lemma WaitTerminates(s: RunState, current: string, exchangeId: Option<string>, order: nat, b: Block)
    requires b.ToolUseBlock? && b.name == "wait_agent"
    ensures var s' := ObserveBlock(s, current, exchangeId, order, b);
            && StatusSet(s, s', id => Lists(b.input, "targets", id), Terminating)
            && s'.openSpawns == s.openSpawns && s'.order == s.order
            && (if exists id :: Lists(b.input, "targets", id) then
                  && s'.waitTargets.Keys == s.waitTargets.Keys + {b.id}
                  && forall id :: id in s'.waitTargets[b.id] <==> Lists(b.input, "targets", id)
                else s'.waitTargets == s.waitTargets)
  {
    hide StringList, SetStatuses, Lists;
    var s' := s.(toolUses := s.toolUses[b.id := current]);
    var targets := StringList(Get(b.input, "targets", Null));
    forall id ensures id in targets <==> Lists(b.input, "targets", id) { ListIsRead(b.input, "targets", id); }
    StatusesAreSet(s'.(waitTargets := s'.waitTargets[b.id := targets]), targets, Terminating);
    if targets != [] { assert targets[0] in targets; }
  }

  /** A kill closes its targets: those listed, or else the single one. */
  lemma KillCloses(s: RunState, current: string, exchangeId: Option<string>, order: nat, b: Block)
    requires b.ToolUseBlock? && b.name == "agent_kill"
    ensures var s' := ObserveBlock(s, current, exchangeId, order, b);
            var killed := (id: string) =>
              if exists x :: Lists(b.input, "targets", x) then Lists(b.input, "targets", id)
              else "target" in b.input && IsName(b.input["target"], id);
            && StatusSet(s, s', killed, Closed)
            && s'.openSpawns == s.openSpawns && s'.order == s.order && s'.waitTargets == s.waitTargets
  {
    hide StringList, SetStatuses, Lists;
    var s' := s.(toolUses := s.toolUses[b.id := current]);
    var targets := StringList(Get(b.input, "targets", Null));
    forall id ensures id in targets <==> Lists(b.input, "targets", id) { ListIsRead(b.input, "targets", id); }
    if targets != [] { assert targets[0] in targets; }
    StatusesAreSet(s', AgentKillTargets(b.input), Closed);
  }

  /** The order of a spawn is the number of spawns before it in its response. */
  lemma {:induction false} SpawnsAreCounted(blocks: seq<Block>)
    ensures Spawns(blocks) == |set i | 0 <= i < |blocks| && IsSpawn(blocks[i])|
  {
    if blocks != [] {
      var front, last := blocks[..|blocks| - 1], |blocks| - 1;
      SpawnsAreCounted(front);
      var before := set i | 0 <= i < |front| && IsSpawn(front[i]);
      var all := set i | 0 <= i < |blocks| && IsSpawn(blocks[i]);
      assert all == if IsSpawn(blocks[last]) then before + {last} else before;
    }
  }

  // ---- one tool result ----

  /** The text of a result decodes to an object. */
  predicate Reports(loads: Loads, result: Block, report: Fields)
    requires result.ToolResultBlock?
  {
    loads(JoinedText(result.content)) == Some(Obj(report))
  }

  /** The result of an `Agent` call closes the track of that call. */
  lemma AgentResultCloses(loads: Loads, s: RunState, result: Block)
    requires result.ToolResultBlock? && PendingAgent(s, result.toolUseId)
    ensures var s' := ResolveResult(loads, s, result);
            && StatusSet(s, s', id => id == result.toolUseId, Closed)
            && s'.openSpawns == s.openSpawns - {result.toolUseId} && s'.order == s.order
            && s'.waitTargets == s.waitTargets && s'.toolUses == s.toolUses
  {
  }

  /** The result of a Codex spawn that reports an agent id makes its track, under the nickname
      reported, else the name of the call, else the id. */
  lemma CodexResultSpawns(loads: Loads, s: RunState, result: Block, report: Fields, id: string)
    requires result.ToolResultBlock? && PendingCodex(s, result.toolUseId)
    requires Reports(loads, result, report) && TextIs(report, "agent_id", Some(id))
    ensures var s', p := ResolveResult(loads, s, result), s.openSpawns[result.toolUseId];
            && s'.openSpawns == s.openSpawns - {result.toolUseId}
            && s'.waitTargets == s.waitTargets && s'.toolUses == s.toolUses
            && s'.order == (if id in s.tracks then s.order else s.order + [id])
            && s'.tracks == s.tracks[id := s'.tracks[id]]
            && (var t := s'.tracks[id];
                && t.trackId == id && t.parentTrackId == Some(p.parentTrackId) && t.role == Subagent
                && t.status == Open && t.signature == None && t.spawnExchangeId == p.spawnExchangeId
                && t.spawnToolUseId == p.spawnToolUseId && t.spawnOrder == p.spawnOrder
                && (TextIs(report, "nickname", t.displayName)
                    || (TextIs(report, "nickname", None)
                        && t.displayName == if p.displayName in {None, Some("")} then Some(id) else p.displayName)))
  {
    hide JoinedText;
    assert JsonPayload(loads, result) == Some(report) && AgentId(loads, result) == Some(id);
    NameIsRead(report, "nickname");
    SpawnedNameIs(loads, s.openSpawns[result.toolUseId], result, report, id);
    hide SpawnedName, AgentId, JsonPayload, TextIs, Reports;
  }

  lemma SpawnedNameIs(loads: Loads, p: PendingSpawn, result: Block, report: Fields, id: string)
    requires result.ToolResultBlock? && Reports(loads, result, report) && TextIs(report, "agent_id", Some(id))
    ensures var name := SpawnedName(loads, p, result);
            || TextIs(report, "nickname", name)
            || (TextIs(report, "nickname", None)
                && name == if p.displayName in {None, Some("")} then Some(id) else p.displayName)
  {
    hide JoinedText;
  }

  /** Without an agent id nothing is made. */
  lemma NoAgentNoTrack(loads: Loads, s: RunState, result: Block)
    requires result.ToolResultBlock? && PendingCodex(s, result.toolUseId)
    requires forall report, id :: Reports(loads, result, report) ==> !TextIs(report, "agent_id", Some(id))
    ensures ResolveResult(loads, s, result) == s.(openSpawns := s.openSpawns - {result.toolUseId})
  {
    hide JoinedText;
    var payload := JsonPayload(loads, result);
    if payload.Some? {
      assert Reports(loads, result, payload.value);
      assert forall id :: !TextIs(payload.value, "agent_id", Some(id));
      NameIsRead(payload.value, "agent_id");
    }
  }

  /** The report says something about this target, and not that the wait timed out. */
  ghost predicate ReportsStatus(loads: Loads, result: Block, id: string)
    requires result.ToolResultBlock?
  {
    exists report: Fields | Reports(loads, result, report) ::
      && !("timed_out" in report && report["timed_out"] == Bool(true))
      && "status" in report && report["status"].Obj? && id in report["status"].fields
  }

  /** The result of a wait closes exactly the targets whose status it reports, unless it timed
      out. */
  lemma WaitResultCloses(loads: Loads, s: RunState, result: Block)
    requires result.ToolResultBlock? && result.toolUseId !in s.openSpawns && result.toolUseId in s.waitTargets
    ensures var s', targets := ResolveResult(loads, s, result), s.waitTargets[result.toolUseId];
            && StatusSet(s, s', id => id in targets && ReportsStatus(loads, result, id), Closed)
            && s'.waitTargets == s.waitTargets - {result.toolUseId} && s'.openSpawns == s.openSpawns
            && s'.order == s.order && s'.toolUses == s.toolUses
  {
    hide JoinedText;
    var targets, s1 := s.waitTargets[result.toolUseId], s.(waitTargets := s.waitTargets - {result.toolUseId});
    ReportedAreClosed(s1, targets, Reported(loads, result));
    var payload := JsonPayload(loads, result);
    if payload.Some? { assert Reports(loads, result, payload.value); }
    forall report | Reports(loads, result, report) ensures payload == Some(report) {}
    hide CloseReported;
  }

  // ---- one request ----

  /** The part of a text before the first mark. */
  predicate IsHead(head: string, s: string, mark: char) {
    mark !in head && (s == head || (|head| < |s| && s[..|head|] == head && s[|head|] == mark))
  }

  lemma {:induction false} BeforeFirstIsHead(s: string, mark: char)
    ensures IsHead(BeforeFirst(s, mark), s, mark)
  {
    if s != "" && s[0] != mark {
      BeforeFirstIsHead(s[1..], mark);
      assert s == [s[0]] + s[1..];
    }
  }

  /** The part of a text after the last mark. */
  predicate IsTail(tail: string, s: string, mark: char) {
    mark !in tail && (s == tail || (|tail| < |s| && s[|s| - |tail|..] == tail && s[|s| - |tail| - 1] == mark))
  }

  lemma {:induction false} AfterLastIsTail(s: string, mark: char)
    ensures IsTail(AfterLast(s, mark), s, mark)
  {
    if mark in s {
      assert s == [s[0]] + s[1..];
      if !(s[0] == mark && mark !in s[1..]) { AfterLastIsTail(s[1..], mark); }
    }
  }

  /** What the turn metadata, a text that decodes to an object, says under a key. */
  predicate TurnSays(loads: Loads, metadata: Fields, key: string, name: string) {
    && "x-codex-turn-metadata" in metadata && metadata["x-codex-turn-metadata"].Str?
    && metadata["x-codex-turn-metadata"].s != ""
    && var turn := loads(metadata["x-codex-turn-metadata"].s);
       turn.Some? && turn.value.Obj? && TextIs(turn.value.fields, key, Some(name))
  }

  /** A Codex request names its subagent by the head of its window id, and without a window id
      by the session of its turn, provided that it says it comes from a subagent. */
  lemma CodexSubagentIsNamed(loads: Loads, request: Request, id: string)
    ensures var m := request.metadata.providerMetadata;
            CodexSubagentTrackId(loads, request) == Some(id) <==>
              && request.provider == "codex" && ("x-openai-subagent" in m || "x-codex-parent-thread-id" in m)
              && (if TextIs(m, "x-codex-window-id", None) then TurnSays(loads, m, "session_id", id)
                  else IsHead(id, m["x-codex-window-id"].s, ':'))
  {
    var m := request.metadata.providerMetadata;
    if !TextIs(m, "x-codex-window-id", None) {
      var window := m["x-codex-window-id"].s;
      BeforeFirstIsHead(window, ':');
      if IsHead(id, window, ':') { OneHead(id, BeforeFirst(window, ':'), window, ':'); }
    }
    hide BeforeFirst, IsHead;
  }

  lemma HeadEnds(head: string, s: string, mark: char)
    requires IsHead(head, s, mark)
    ensures head <= s && (forall i | 0 <= i < |head| :: s[i] != mark) && (|head| < |s| ==> s[|head|] == mark)
  {
    forall i | 0 <= i < |head| ensures s[i] != mark { assert head[i] in head; }
  }

  lemma OneHead(a: string, b: string, s: string, mark: char)
    requires IsHead(a, s, mark) && IsHead(b, s, mark)
    ensures a == b
  {
    HeadEnds(a, s, mark);
    HeadEnds(b, s, mark);
    hide IsHead;
  }

  /** The first request of a track fixes its signature, the number of tools and the end of the
      client's version; the run's own track never takes a name. */
  lemma SignatureIsFixed(loads: Loads, s: RunState, id: string, request: Request)
    requires id in s.tracks
    ensures var s' := ObserveSignature(loads, s, id, request);
            && s' == s.(tracks := s'.tracks) && s'.tracks == s.tracks[id := s'.tracks[id]]
            && var t, t' := s.tracks[id], s'.tracks[id];
               && t' == t.(signature := t'.signature, displayName := t'.displayName)
               && (t.signature.Some? ==> t'.signature == t.signature)
               && (t.signature.None? ==> t'.signature.Some? && SignatureRead(t'.signature.value, request))
               && (t.displayName.Some? || id == s.runId ==> t'.displayName == t.displayName)
  {
    hide CodexDisplayName, CcVersionSuffix, SignatureRead;
    SignatureIsRead(request);
  }

  ghost predicate SignatureRead(signature: Signature, request: Request) {
    var m := request.metadata.providerMetadata;
    var version :=
      if "cc_version" in m && Truthy(m["cc_version"]) then m["cc_version"]
      else Get(m, "x-claude-code-version", Null);
    && signature.toolsCount == |request.tools|
    && match signature.ccVersionSuffix
       case None => !version.Str?
       case Some(suffix) => version.Str? && IsTail(suffix, version.s, '.')
  }

  lemma SignatureIsRead(request: Request)
    ensures SignatureRead(RequestSignature(request), request)
  {
    var m := request.metadata.providerMetadata;
    var first := Get(m, "cc_version", Null);
    var value := if Truthy(first) then first else Get(m, "x-claude-code-version", Null);
    if value.Str? { AfterLastIsTail(value.s, '.'); }
    hide AfterLast, IsTail;
  }

  /** The turn metadata says nothing under a key. */
  ghost predicate TurnSilent(loads: Loads, metadata: Fields, key: string) {
    forall name :: !TurnSays(loads, metadata, key, name)
  }

  /** The first of three names in the turn metadata. */
  ghost predicate TurnNames(loads: Loads, metadata: Fields, name: string) {
    || TurnSays(loads, metadata, "subagent_nickname", name)
    || (TurnSilent(loads, metadata, "subagent_nickname")
        && (|| TurnSays(loads, metadata, "nickname", name)
            || (TurnSilent(loads, metadata, "nickname") && TurnSays(loads, metadata, "name", name))))
  }

  lemma TurnIsRead(loads: Loads, metadata: Fields, key: string, name: string)
    ensures TurnSays(loads, metadata, key, name) <==>
      TurnMetadata(loads, metadata).Some?
      && StringOrNone(Get(TurnMetadata(loads, metadata).value, key, Null)) == Some(name)
  {
  }

  lemma TurnNamesIs(loads: Loads, metadata: Fields, name: string)
    ensures NameFromTurnMetadata(loads, metadata) == Some(name) <==> TurnNames(loads, metadata, name)
  {
    hide TurnMetadata, TurnSays, StringOrNone;
    var turn := TurnMetadata(loads, metadata);
    forall key, x ensures TurnSays(loads, metadata, key, x) <==>
      turn.Some? && StringOrNone(Get(turn.value, key, Null)) == Some(x)
    {
      TurnIsRead(loads, metadata, key, x);
    }
    if turn.Some? {
      var first := StringOrNone(Get(turn.value, "subagent_nickname", Null));
      var second := StringOrNone(Get(turn.value, "nickname", Null));
      if first.Some? { assert TurnSays(loads, metadata, "subagent_nickname", first.value); }
      if second.Some? { assert TurnSays(loads, metadata, "nickname", second.value); }
    }
  }

  /** A Codex subagent's name: with a window id only for the track it names, from its nickname
      or else from the turn; without a window id from the turn. */
  lemma CodexNameIs(loads: Loads, request: Request, id: string, name: string)
    ensures var m := request.metadata.providerMetadata;
            CodexDisplayName(loads, request, id) == Some(name) <==>
              if TextIs(m, "x-codex-window-id", None) then TurnNames(loads, m, name)
              else
                && IsHead(id, m["x-codex-window-id"].s, ':')
                && (|| TextIs(m, "x-codex-subagent-nickname", Some(name))
                    || (TextIs(m, "x-codex-subagent-nickname", None) && TurnNames(loads, m, name)))
  {
    hide NameFromTurnMetadata, TurnNames, IsHead, BeforeFirst;
    var m := request.metadata.providerMetadata;
    TurnNamesIs(loads, m, name);
    if !TextIs(m, "x-codex-window-id", None) {
      var window := m["x-codex-window-id"].s;
      BeforeFirstIsHead(window, ':');
      if IsHead(id, window, ':') { OneHead(id, BeforeFirst(window, ':'), window, ':'); }
    }
  }

  /** A subagent named by a request for the first time is an open child of the run's own track. */
  lemma CodexTrackIsAdded(loads: Loads, s: RunState, request: Request, id: string)
    requires CodexSubagentTrackId(loads, request) == Some(id) && SecondLook(s, ToolResults(request.messages)) == None
    ensures var s' := WithCodexTrack(loads, s, request, None);
            if id in s.tracks then s' == s
            else
              && s'.tracks.Keys == s.tracks.Keys + {id} && s'.order == s.order + [id]
              && s' == s.(tracks := s'.tracks, order := s'.order)
              && (forall x | x in s.tracks :: s'.tracks[x] == s.tracks[x])
              && var t := s'.tracks[id];
                 && t.trackId == id && t.parentTrackId == Some(s.runId) && t.role == Subagent && t.status == Open
                 && t.displayName == None && t.signature == None
                 && t.spawnExchangeId == None && t.spawnToolUseId == None && t.spawnOrder == None
  {
    hide CodexSubagentTrackId, SecondLook, ToolResults;
  }

  /** An assignment tells the track's own fields, and where it was spawned if anything is known. */
  lemma AssignmentTells(t: TrackRecord)
    ensures var a := AssignmentOf(t);
            && a.trackId == t.trackId && a.parentTrackId == t.parentTrackId && a.displayName == t.displayName
            && a.role == t.role
            && (a.spawnAnchor.None? <==> t.spawnExchangeId.None? && t.spawnToolUseId.None? && t.spawnOrder.None?)
            && (a.spawnAnchor.Some? ==>
                  && a.spawnAnchor.value.spawnExchangeId == t.spawnExchangeId
                  && a.spawnAnchor.value.spawnToolUseId == t.spawnToolUseId
                  && a.spawnAnchor.value.spawnOrder == t.spawnOrder)
  {
  }
}
