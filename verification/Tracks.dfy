/** What one exchange does to the tracks of a run: the parent's and its subagents'. */
module Tracks {
  import opened Options
  import opened JsonValues
  import opened Ir

  datatype Role = Parent | Subagent
  datatype Status = Open | Terminating | Closed

  datatype Signature = Signature(toolsCount: nat, ccVersionSuffix: Option<string>)

  datatype TrackRecord = TrackRecord(
    trackId: string, parentTrackId: Option<string>, displayName: Option<string>, role: Role, status: Status,
    signature: Option<Signature>, spawnExchangeId: Option<string>, spawnToolUseId: Option<string>,
    spawnOrder: Option<nat>)

  datatype PendingSpawn = PendingSpawn(
    spawnId: string, provider: string, parentTrackId: string, displayName: Option<string>, trackId: Option<string>,
    spawnExchangeId: Option<string>, spawnToolUseId: Option<string>, spawnOrder: Option<nat>)

  datatype SpawnAnchor = SpawnAnchor(
    spawnExchangeId: Option<string>, spawnToolUseId: Option<string>, spawnOrder: Option<nat>)

  datatype TrackAssignment = TrackAssignment(
    trackId: string, parentTrackId: Option<string>, displayName: Option<string>, role: Role,
    spawnAnchor: Option<SpawnAnchor>)

  /** A run's state. `order` lists the tracks as they were added. */
  datatype RunState = RunState(
    runId: string, tracks: map<string, TrackRecord>, order: seq<string>, openSpawns: map<string, PendingSpawn>,
    waitTargets: map<string, seq<string>>, toolUses: map<string, string>)

  function NewRun(runId: string): RunState {
    RunState(runId, map[runId := TrackRecord(runId, None, None, Parent, Open, None, None, None, None)], [runId],
             map[], map[], map[])
  }

  // ---- reading requests ----

  function StringOrNone(v: Json): Option<string> { if v.Str? && v.s != "" then Some(v.s) else None }

  function OrElse(a: Option<string>, b: Option<string>): Option<string> { if a.Some? then a else b }

  function Strings(items: seq<Json>): seq<string> {
    if items == [] then []
    else if items[0].Str? then [items[0].s] + Strings(items[1..]) else Strings(items[1..])
  }

  function StringList(v: Json): seq<string> { if v.List? then Strings(v.items) else [] }

  function AgentKillTargets(input: Fields): seq<string> {
    var targets := StringList(Get(input, "targets", Null));
    if targets != [] then targets
    else
      var target := StringOrNone(Get(input, "target", Null));
      if target.Some? then [target.value] else []
  }

  function BlockResults(blocks: seq<Block>): (results: seq<Block>)
    ensures forall b | b in results :: b.ToolResultBlock?
  {
    if blocks == [] then []
    else if blocks[0].ToolResultBlock? then [blocks[0]] + BlockResults(blocks[1..]) else BlockResults(blocks[1..])
  }

  /** The tool results of a request, in order. */
  function ToolResults(messages: seq<Message>): (results: seq<Block>)
    ensures forall b | b in results :: b.ToolResultBlock?
  {
    if messages == [] then [] else BlockResults(messages[0].content) + ToolResults(messages[1..])
  }

  /** A decoded object, or nothing. */
  function ObjectIn(loads: Loads, text: string): Option<Fields> {
    var decoded := loads(text);
    if decoded.Some? && decoded.value.Obj? then Some(decoded.value.fields) else None
  }

  function JsonPayload(loads: Loads, result: Block): Option<Fields>
    requires result.ToolResultBlock?
  {
    ObjectIn(loads, JoinedText(result.content))
  }

  /** What follows the last occurrence of a character, or the whole text. */
  function AfterLast(s: string, c: char): string {
    if c !in s then s else if s[0] == c && c !in s[1..] then s[1..] else AfterLast(s[1..], c)
  }

  /** What precedes the first occurrence of a character, or the whole text. */
  function BeforeFirst(s: string, c: char): string {
    if s == "" || s[0] == c then "" else [s[0]] + BeforeFirst(s[1..], c)
  }

  function CcVersionSuffix(request: Request): Option<string> {
    var metadata := request.metadata.providerMetadata;
    var first := Get(metadata, "cc_version", Null);
    var value := if Truthy(first) then first else Get(metadata, "x-claude-code-version", Null);
    if value.Str? then Some(AfterLast(value.s, '.')) else None
  }

  function RequestSignature(request: Request): Signature {
    Signature(|request.tools|, CcVersionSuffix(request))
  }

  function TurnMetadata(loads: Loads, metadata: Fields): Option<Fields> {
    match StringOrNone(Get(metadata, "x-codex-turn-metadata", Null))
    case None => None
    case Some(text) => ObjectIn(loads, text)
  }

  function CodexSubagentTrackId(loads: Loads, request: Request): Option<string> {
    var metadata := request.metadata.providerMetadata;
    if request.provider != "codex" then None
    else if "x-openai-subagent" !in metadata && "x-codex-parent-thread-id" !in metadata then None
    else
      match StringOrNone(Get(metadata, "x-codex-window-id", Null))
      case Some(window) => Some(BeforeFirst(window, ':'))
      case None =>
        match TurnMetadata(loads, metadata)
        case None => None
        case Some(payload) => StringOrNone(Get(payload, "session_id", Null))
  }

  function NameFromTurnMetadata(loads: Loads, metadata: Fields): Option<string> {
    match TurnMetadata(loads, metadata)
    case None => None
    case Some(payload) =>
      OrElse(StringOrNone(Get(payload, "subagent_nickname", Null)),
             OrElse(StringOrNone(Get(payload, "nickname", Null)), StringOrNone(Get(payload, "name", Null))))
  }

  function CodexDisplayName(loads: Loads, request: Request, trackId: string): Option<string> {
    var metadata := request.metadata.providerMetadata;
    match StringOrNone(Get(metadata, "x-codex-window-id", Null))
    case Some(window) =>
      if BeforeFirst(window, ':') == trackId then
        OrElse(StringOrNone(Get(metadata, "x-codex-subagent-nickname", Null)), NameFromTurnMetadata(loads, metadata))
      else None
    case None => NameFromTurnMetadata(loads, metadata)
  }

  // ---- responses ----

  /** Puts a track under its own id, in its old place if it had one. */
  function PutTrack(s: RunState, t: TrackRecord): RunState {
    s.(tracks := s.tracks[t.trackId := t],
       order := if t.trackId in s.tracks then s.order else s.order + [t.trackId])
  }

  /** Sets the status of a track that exists. */
  function SetStatus(s: RunState, id: string, status: Status): RunState {
    if id in s.tracks then s.(tracks := s.tracks[id := s.tracks[id].(status := status)]) else s
  }

  function SetStatuses(s: RunState, ids: seq<string>, status: Status): RunState {
    if ids == [] then s else SetStatus(SetStatuses(s, ids[..|ids| - 1], status), ids[|ids| - 1], status)
  }

  function SpawnedTrack(id: string, p: PendingSpawn, displayName: Option<string>): TrackRecord {
    TrackRecord(id, Some(p.parentTrackId), displayName, Subagent, Open, None, p.spawnExchangeId, p.spawnToolUseId,
                p.spawnOrder)
  }

  function AnthropicSpawn(
      parent: string, id: string, input: Fields, exchangeId: Option<string>, order: nat): PendingSpawn
  {
    PendingSpawn(id, "anthropic", parent, StringOrNone(Get(input, "subagent_type", Null)), Some(id), exchangeId,
                 Some(id), Some(order))
  }

  function CodexSpawn(
      parent: string, id: string, input: Fields, exchangeId: Option<string>, order: nat): PendingSpawn
  {
    PendingSpawn(id, "codex", parent, StringOrNone(Get(input, "agent_type", Null)), None, exchangeId,
                 Some(id), Some(order))
  }

  function AddSpawn(s: RunState, p: PendingSpawn): RunState { s.(openSpawns := s.openSpawns[p.spawnId := p]) }

  function RegisterAnthropicSpawn(s: RunState, p: PendingSpawn): RunState {
    if p.spawnId in s.tracks then AddSpawn(s, p)
    else PutTrack(AddSpawn(s, p), SpawnedTrack(p.spawnId, p, p.displayName))
  }

  predicate IsSpawn(b: Block) { b.ToolUseBlock? && b.name in {"Agent", "spawn_agent"} }

  /** One block of a response of this track. */
  function ObserveBlock(s: RunState, current: string, exchangeId: Option<string>, order: nat, b: Block): RunState {
    if !b.ToolUseBlock? then s
    else
      var s' := s.(toolUses := s.toolUses[b.id := current]);
      if b.name == "Agent" then RegisterAnthropicSpawn(s', AnthropicSpawn(current, b.id, b.input, exchangeId, order))
      else if b.name == "spawn_agent" then AddSpawn(s', CodexSpawn(current, b.id, b.input, exchangeId, order))
      else if b.name == "wait_agent" then
        var targets := StringList(Get(b.input, "targets", Null));
        if targets == [] then s'
        else SetStatuses(s'.(waitTargets := s'.waitTargets[b.id := targets]), targets, Terminating)
      else if b.name == "agent_kill" then SetStatuses(s', AgentKillTargets(b.input), Closed)
      else s'
  }

  /** How many spawns some blocks contain. */
  function Spawns(blocks: seq<Block>): nat {
    if blocks == [] then 0 else Spawns(blocks[..|blocks| - 1]) + if IsSpawn(blocks[|blocks| - 1]) then 1 else 0
  }

  /** A whole response; a spawn's order is the number of spawns before it in the response. */
  function Observe(s: RunState, current: string, exchangeId: Option<string>, blocks: seq<Block>): RunState {
    if blocks == [] then s
    else
      var front := blocks[..|blocks| - 1];
      ObserveBlock(Observe(s, current, exchangeId, front), current, exchangeId, Spawns(front), blocks[|blocks| - 1])
  }

  // ---- tool results ----

  /** The candidates found so far: parents of the subagents concerned, and owners of the calls. */
  datatype Found = Found(parents: set<string>, owners: set<string>, stale: bool)

  function RemoveSpawn(s: RunState, id: string): RunState { s.(openSpawns := s.openSpawns - {id}) }

  function AgentId(loads: Loads, result: Block): Option<string>
    requires result.ToolResultBlock?
  {
    match JsonPayload(loads, result)
    case None => None
    case Some(payload) => StringOrNone(Get(payload, "agent_id", Null))
  }

  function SpawnedName(loads: Loads, p: PendingSpawn, result: Block): Option<string>
    requires result.ToolResultBlock?
  {
    match JsonPayload(loads, result)
    case None => None
    case Some(payload) =>
      OrElse(StringOrNone(Get(payload, "nickname", Null)),
             OrElse(if p.displayName == Some("") then None else p.displayName,
                    StringOrNone(Get(payload, "agent_id", Null))))
  }

  function ResolveSpawn(loads: Loads, s: RunState, p: PendingSpawn, result: Block): RunState
    requires result.ToolResultBlock?
  {
    if p.provider == "anthropic" then
      RemoveSpawn(SetStatus(s, if p.trackId.Some? && p.trackId.value != "" then p.trackId.value else p.spawnId, Closed),
                  p.spawnId)
    else
      match AgentId(loads, result)
      case None => RemoveSpawn(s, p.spawnId)
      case Some(agent) => RemoveSpawn(PutTrack(s, SpawnedTrack(agent, p, SpawnedName(loads, p, result))), p.spawnId)
  }

  /** The targets that a wait's result reports on. */
  function Reported(loads: Loads, result: Block): set<string>
    requires result.ToolResultBlock?
  {
    match JsonPayload(loads, result)
    case None => {}
    case Some(payload) =>
      if Get(payload, "timed_out", Null) == Bool(true) then {}
      else
        match Get(payload, "status", Null)
        case Obj(statuses) => statuses.Keys
        case _ => {}
  }

  function CloseReported(s: RunState, targets: seq<string>, reported: set<string>): RunState {
    if targets == [] then s
    else
      var front, target := CloseReported(s, targets[..|targets| - 1], reported), targets[|targets| - 1];
      if target in reported then SetStatus(front, target, Closed) else front
  }

  /** The parents of the targets that exist and have one. */
  function ParentsOf(s: RunState, targets: seq<string>): (parents: set<string>)
    ensures forall p :: p in parents <==>
      exists t | t in targets :: t in s.tracks && s.tracks[t].parentTrackId == Some(p)
  {
    if targets == [] then {}
    else
      var front, t := ParentsOf(s, targets[..|targets| - 1]), targets[|targets| - 1];
      if t in s.tracks && s.tracks[t].parentTrackId.Some? then front + {s.tracks[t].parentTrackId.value} else front
  }

  /** One tool result: a pending spawn, else a wait, else a call of some track. */
  function ResolveResult(loads: Loads, s: RunState, result: Block): RunState
    requires result.ToolResultBlock?
  {
    var id := result.toolUseId;
    if id in s.openSpawns then ResolveSpawn(loads, s, s.openSpawns[id], result)
    else if id in s.waitTargets then
      CloseReported(s.(waitTargets := s.waitTargets - {id}), s.waitTargets[id], Reported(loads, result))
    else s
  }

  function FoundBy(s: RunState, found: Found, result: Block): Found
    requires result.ToolResultBlock?
  {
    var id := result.toolUseId;
    if id in s.openSpawns then found.(parents := found.parents + {s.openSpawns[id].parentTrackId})
    else if id in s.waitTargets then found.(parents := found.parents + ParentsOf(s, s.waitTargets[id]))
    else if id in s.toolUses then
      var owner := s.toolUses[id];
      if owner in s.tracks && s.tracks[owner].status != Closed then found.(owners := found.owners + {owner})
      else found.(stale := true)
    else found
  }

  const NOTHING_FOUND := Found({}, {}, false)

  predicate AreResults(results: seq<Block>) { forall r | r in results :: r.ToolResultBlock? }

  function ResolveAll(loads: Loads, s: RunState, results: seq<Block>): (RunState, Found)
    requires AreResults(results)
  {
    if results == [] then (s, NOTHING_FOUND)
    else
      var (s', found) := ResolveAll(loads, s, results[..|results| - 1]);
      var result := results[|results| - 1];
      (ResolveResult(loads, s', result), FoundBy(s', found, result))
  }

  lemma OnlyMember(ids: set<string>)
    requires |ids| == 1
    ensures forall a, b | a in ids && b in ids :: a == b
  {
    var x :| x in ids;
    assert |ids - {x}| == 0;
    assert forall y | y in ids :: y == x || y in ids - {x};
  }

  /** The one member of a set. */
  function Only(ids: set<string>): (id: string)
    requires |ids| == 1
    ensures ids == {id}
  {
    OnlyMember(ids);
    var id :| id in ids;
    id
  }

  /** Which track the tool results point to. */
  function Pointed(runId: string, found: Found): Option<string> {
    if |found.parents| == 1 then Some(Only(found.parents))
    else if found.parents != {} then None
    else if |found.owners| == 1 then Some(Only(found.owners))
    else if found.stale then Some(runId)
    else None
  }

  // ---- assignment ----

  /** The second look at the tool results, on the state the first one left. */
  function SecondLook(s: RunState, results: seq<Block>): Option<string>
    requires AreResults(results)
  {
    if results == [] then None
    else
      var id := results[0].toolUseId;
      if id in s.openSpawns then Some(s.openSpawns[id].parentTrackId)
      else if id in s.waitTargets && |ParentsOf(s, s.waitTargets[id])| == 1 then
        Some(Only(ParentsOf(s, s.waitTargets[id])))
      else SecondLook(s, results[1..])
  }

  predicate ActiveSubagent(s: RunState, id: string) {
    id in s.tracks && s.tracks[id].role == Subagent && s.tracks[id].status != Closed
  }

  /** The active subagents among some tracks that carry a signature, or none. */
  function WithSignature(s: RunState, ids: seq<string>, signature: Option<Signature>): (found: seq<string>)
    ensures forall id :: id in found <==> id in ids && ActiveSubagent(s, id) && s.tracks[id].signature == signature
  {
    if ids == [] then []
    else
      var front, id := WithSignature(s, ids[..|ids| - 1], signature), ids[|ids| - 1];
      if ActiveSubagent(s, id) && s.tracks[id].signature == signature then front + [id] else front
  }

  /** Which track a request belongs to: the one its results point to, else a Codex subagent,
      else a new subagent, else the one with its signature, else the run's own. */
  function AssignedTrack(loads: Loads, s: RunState, request: Request, pointed: Option<string>): string {
    var results := ToolResults(request.messages);
    var codex := CodexSubagentTrackId(loads, request);
    var unassigned := WithSignature(s, s.order, None);
    var matching := WithSignature(s, s.order, Some(RequestSignature(request)));
    if pointed.Some? then pointed.value
    else if SecondLook(s, results).Some? then SecondLook(s, results).value
    else if codex.Some? then codex.value
    else if unassigned != [] then unassigned[0]
    else if |matching| == 1 then matching[0]
    else s.runId
  }

  /** A Codex subagent seen for the first time becomes a child of the run's own track. */
  function WithCodexTrack(loads: Loads, s: RunState, request: Request, pointed: Option<string>): RunState {
    var codex := CodexSubagentTrackId(loads, request);
    if pointed.None? && SecondLook(s, ToolResults(request.messages)).None? && codex.Some?
      && codex.value !in s.tracks then
      PutTrack(s, TrackRecord(codex.value, Some(s.runId), None, Subagent, Open, None, None, None, None))
    else s
  }

  function ObserveSignature(loads: Loads, s: RunState, id: string, request: Request): RunState
    requires id in s.tracks
  {
    var t := s.tracks[id];
    var t' := if t.signature.None? then t.(signature := Some(RequestSignature(request))) else t;
    var name := if id == s.runId || t.displayName.Some? then None else CodexDisplayName(loads, request, id);
    s.(tracks := s.tracks[id := if name.Some? then t'.(displayName := name) else t'])
  }

  /** The state after a request, and the track it belongs to. */
  function Classify(loads: Loads, s: RunState, request: Request): (RunState, string) {
    var (s1, found) := ResolveAll(loads, s, ToolResults(request.messages));
    var pointed := Pointed(s1.runId, found);
    var id := AssignedTrack(loads, s1, request, pointed);
    var s2 := WithCodexTrack(loads, s1, request, pointed);
    (if id in s2.tracks then ObserveSignature(loads, s2, id, request) else s2, id)
  }

  function AssignmentOf(t: TrackRecord): TrackAssignment {
    TrackAssignment(
      t.trackId, t.parentTrackId, t.displayName, t.role,
      if t.spawnExchangeId.Some? || t.spawnToolUseId.Some? || t.spawnOrder.Some? then
        Some(SpawnAnchor(t.spawnExchangeId, t.spawnToolUseId, t.spawnOrder))
      else None)
  }
}
