# Transport Matters: a verified model of the proxy core

Transport Matters sits between a coding agent and its model provider. It rewrites
requests by user overrides, parses and prints the provider's wire format, streams the
agent's terminal to viewers, sorts exchanges into parent and subagent tracks, pauses
requests for inspection and counts tokens. This project models that core in Dafny and
proves what a user relies on. `dafny verify dfyconfig.toml` checks all of it.

- **Override pipeline** (`OverrideTargets`, `OverridePlan`, `OverrideOpsMessages`,
  `OverrideOpsMetadata`, `Sanitize`, `OverrideAudit`, `Overrides`, `OverrideEffects`,
  `ExtrasOrder`, `OverrideOrder`, `OverrideState`). Overrides name positions of the original
  request but are applied one by one to a shrinking copy.
  `Overrides.ApplyOverrides` runs that fold on a mutable context and returns the one-shot
  edit of the original; a store's listing order does not matter, except for edits of the
  provider extras that are not independent; sanitizing is the greatest clean sub-request;
  every ledger line is exact and the deltas add up.
- **Anthropic adapter** (`AnthropicAdapter`, `AnthropicReading`, `AnthropicRoundTrip`,
  `AnthropicRequests`, `AnthropicSse`, `AnthropicWire`). What each field is read
  from, the exact conditions under which parsing undoes printing and printing undoes parsing,
  and the reassembly of an event stream into what the whole message gives.
- **Canonical JSON** (`Decimals`, `Texts`, `Canonicalization`, `JsonReader`). A key-sorting
  printer whose output determines the value and is JSON for it (RFC 8259, sections 4, 5 and 7).
- **Terminal streaming** (`OscColorResponder`, `ScrollbackRing`, `TerminalFanout`). A scanner
  for colour queries (ECMA-48, section 8.3.89, and xterm's BEL terminator) that does not
  depend on chunking, a bounded scrollback, and viewers whose snapshot and live chunks join
  without gap or duplicate.
- **Tracks** (`Tracks`, `TrackInvariants`, `TrackTree`, `TrackRuns`, `TrackPlacement`,
  `TrackEffects`, `TrackManager`). Whole runs of requests and responses: references stay known,
  parents form a tree exactly when the reported agent ids allow it, and tool results return to
  the track that made the calls.
- **Breakpoint** (`Breakpoint`, `PauseSession`, `PauseGate`). Every interleaving of sessions, user
  commands, timeouts and shutdowns, and the fate that each asks for.
- **Token counts and turn indices** (`Counting`, `TokenCounter`, `CodexContinuity`).

`Options`, `JsonValues`, `Ir` and `OverrideTypes` hold the shared data. Code that updates
state in place is a class or a loop proved against a function; the laws are lemmas about
those functions, or invariants of the classes. Python's runtime pieces (`json.loads`,
`json.dumps`, float printing, the digest, the clock, dictionary iteration order and the lax
coercions of the validated models) are parameters. The results hold whatever they do, except
that `AnthropicAdapter.Faithful` asks coercions to leave values of the right type alone and
`TokenCounter.CollisionFree` asks the digest to be free of collisions.

## Where the code and its documentation differ

- `adapters/anthropic.py:4-5` promises that printing a parsed request gives the raw request
  back. The code does so for normal forms only (`AnthropicRequests.RequestNormalForm`): string
  shorthands become lists, defaults and empty lists are left out, and messages without
  content are dropped (`AnthropicRequests.StringContentIsNotPrintedBack`). Parsing after printing
  is the identity except for a model that is the bare prefix or starts with the doubled one
  (`AnthropicRequests.RequestRoundTrip`, `AnthropicRequests.BarePrefixIsNotReadBack`).
- `overrides.py:107-112` says a truncation limit is an integer; as `bool` is an integer type,
  `True` is accepted as the limit 1.
- `breakpoint.py:103` says a pause re-arms for the next request; the code leaves the mode as
  it is.
- `override_ops_messages.py:53-70` reports the delta of the last matching tool only, so the
  tool deltas add up only while each name given a description occurs once
  (`OverrideOpsMessages.DescriptionDeltaConserved`).
- `run_terminal.py:211-213` queues a close marker on overload, but the queue is still full at
  that point, so an overloaded viewer never receives it (`TerminalFanout.Fanout.Append`).

## Model

| member | source | states |
|---|---|---|
| Overrides.ApplyOverrides | api/src/transport_matters/overrides.py:141-166 | The sequential, index-adjusted fold over the priority-sorted list returns the one-shot edit of the original request (toggled-off tools, parts and blocks dropped, texts rewritten at original positions, results truncated, then sanitized). The ledger holds one line per override with exactly its applied flag, delta and curated text; its system deltas always sum to the change in system characters, its tool deltas sum to the change in tool characters when every tool name that is given a description occurs once, and the six counts are those of the request before and after. |
| Overrides.OverrideApplyContext.ApplyOverrideValue | api/src/transport_matters/overrides.py:183-205 | Dispatch on the kind keeps the current request the declarative edit of the original and reports exactly whether the override took effect, its delta (see `Overrides.Delta`) and its curated value. |
| Overrides.OverrideApplyContext.ApplyToolToggle | api/src/transport_matters/overrides.py:208-223 | A tool toggle on the shrunk request is a tool dropped from the original; the delta is the exact change in tool characters, whatever names occur twice. |
| Overrides.OverrideApplyContext.ApplyToolDescription | api/src/transport_matters/overrides.py:226-238 | A description edit on the shrunk request is that edit of the original; the delta reported is the one at the last tool of that name. |
| Overrides.OverrideApplyContext.ApplySystemPartToggle | api/src/transport_matters/overrides.py:241-261 | A system toggle at the shifted index removes the part at the original index; out-of-range, negative and already removed indices do nothing. |
| Overrides.OverrideApplyContext.ApplySystemPartText | api/src/transport_matters/overrides.py:264-282 | A system rewrite at the shifted index rewrites the part at the original index, or nothing when that part is gone. |
| Overrides.OverrideApplyContext.ApplyTruncateToolResult | api/src/transport_matters/overrides.py:285-303 | Truncation of one tool result commutes with the block removals already made; the delta is the exact change in result text; a limit that is not a positive integer is refused, and `True` counts as the limit 1. |
| Overrides.OverrideApplyContext.ApplyMessageBlockToggle | api/src/transport_matters/overrides.py:306-332 | A block toggle at the shifted place removes the block at its original place, per message; the delta is the exact change in canonical message characters. |
| Overrides.OverrideApplyContext.ApplyMessageText | api/src/transport_matters/overrides.py:335-352 | A text rewrite at the shifted place rewrites the block at its original place, if it is a text block and still there; the delta is the exact change in raw text. |
| Overrides.OverrideApplyContext.ApplySamplingOverride | api/src/transport_matters/overrides.py:355-370 | A decodable, well-shaped sampling value is set; anything else leaves the request alone; the delta is 0. |
| Overrides.OverrideApplyContext.ApplyProviderExtrasOverride | api/src/transport_matters/overrides.py:373-388 | A dotted-path edit of the extras touches nothing but the extras; the delta is 0. |
| Overrides.SortIsStable | api/src/transport_matters/overrides.py:154-157 | Sorting by priority permutes the list into priority order and keeps the order within one priority. |
| OverrideEffects.ResultTruncated | api/src/transport_matters/overrides.py:285-303 | On top of any list of overrides: a truncation changes nothing but the results for its id in user messages; one longer than the limit becomes a single text block with its first `limit` characters and exactly ` [truncated]` after them, every other stays, and a limit that is not positive does nothing. |
| OverrideEffects.ToolToggled | api/src/transport_matters/overrides.py:208-223 | On top of any list: a tool toggled off goes with every tool of its name, and nothing else does. |
| OverrideEffects.ToolDescribed | api/src/transport_matters/overrides.py:226-238 | On top of any list: the text becomes the description of every tool of that name, and nothing else changes. |
| OverrideEffects.SamplingOverridden | api/src/transport_matters/overrides.py:355-370 | On top of any list: a decoded value of the right shape replaces the field it names and no other; anything else is refused. |
| OverrideEffects.ExtrasOverridden | api/src/transport_matters/overrides.py:373-388 | On top of any list: a value set is read back at its path and a null takes the path away, unrelated paths stay, and a refused key or a blocked way changes nothing. |
| OverrideEffects.OtherValuesAreIdle | api/src/transport_matters/overrides.py:208-388 | A value of the wrong type, and a toggle that is on, change nothing. |
| OverrideEffects.AuditKeepsTheText | api/src/transport_matters/overrides.py:226-352 | The audit keeps the text an applied override leaves, that of the last result of a truncation as cut, and none for the other kinds. |
| OverrideEffects.AppliedWhenSomethingGoes | api/src/transport_matters/overrides.py:208-261 | A toggle-off is reported as applied if and only if it takes something away from the request as edited so far. |
| OverrideEffects.SystemIsOriginalParts | api/src/transport_matters/overrides.py:241-282 | Whatever the list: the curated system is made of the original parts whose `system:i` is not toggled off, in their order, each with the last text given to its place. |
| OverrideEffects.MessagesAreOriginalBlocks | api/src/transport_matters/overrides.py:306-352 | Whatever the list: the curated messages are the sanitized form of the original ones without the blocks whose `msg:m:blk:b` is toggled off, each text block with the last text given to its place. |
| OverrideTypes.PrioritiesAreOrdered | api/src/transport_matters/overrides.py:79-93 | The nine kinds are applied in the documented order. |
| OverrideOrder.OrderIndependence | api/src/transport_matters/overrides.py:79-93 | Permuting a uniquely keyed list of overrides never changes the resulting system, tools, messages or sampling, and when its edits of the extras are pairwise independent it changes nothing at all. |
| OverrideOrder.TwoOverridesCommuteExactly | api/src/transport_matters/overrides.py:373-388 | Two overrides of different keys give the same request in both orders, for every request, if and only if their edits of the extras are independent. |
| OverrideOrder.ExtrasCommuteExactly | api/src/transport_matters/override_ops_metadata.py:84-103 | Two edits of the extras commute on all extras if and only if one key is refused, the paths are unrelated, both delete, both are the same edit, or one path leads into a value that the other sets and that the edit leaves alone. |
| OverrideOrder.PermutedExtras | api/src/transport_matters/override_ops_metadata.py:84-103 | Any permutation of pairwise independent edits leaves the same extras. |
| OverrideOrder.RelatedExtrasDiffer | api/src/transport_matters/override_ops_metadata.py:84-103 | Setting `a.b` and deleting `a` on empty extras gives different requests in the two orders. |
| ExtrasOrder.CommutesExactly | api/src/transport_matters/override_ops_metadata.py:54-81 | The same condition for two edits of nested dictionaries, path by path. |
| ExtrasOrder.UnrelatedCommute | api/src/transport_matters/override_ops_metadata.py:54-81 | Set or deleted, unrelated paths commute on every dictionary, blocked ways and pruning included. |
| ExtrasOrder.SetKeeps | api/src/transport_matters/override_ops_metadata.py:54-81 | After a successful set, an edit inside the new value has no effect exactly when the value is no dictionary, blocks the way, holds the new leaf already, or has nothing to delete and to prune. |
| Overrides.PermutedPlan | api/src/transport_matters/overrides.py:141-166 | All permutations ask for the same edit. |
| Overrides.KeysAreSlots | api/src/transport_matters/overrides.py:96-113 | Two overrides with different kind or target never name the same position, since targets parse injectively. |
| Overrides.StepsCommute | api/src/transport_matters/overrides.py:208-388 | Two edits of different positions commute. |
| Overrides.SortingKeepsThePlan | api/src/transport_matters/overrides.py:154-157 | The priority order asks for the same edit as the order given, extras included. |
| Overrides.DescriptionLedger | api/src/transport_matters/overrides.py:226-238 | The reported description delta is the real change in tool characters at any stage of the fold, if one tool of the original has that name. |
| Overrides.LedgerAdds | api/src/transport_matters/overrides.py:152-165 | Only system overrides change the system characters and only tool overrides the tool characters, each by the delta it reports, provided a description is given to one tool. |
| OverridePlan.PartEdits | api/src/transport_matters/override_targets.py:82-88 | Dropping or rewriting the part at an original index, seen from the shrunk list: the shifted index when the part is there, no effect otherwise. |
| OverridePlan.DropBlockHits | api/src/transport_matters/override_targets.py:91-103 | Dropping a block that is there removes the shifted place of the shrunk message. |
| OverridePlan.RewriteBlockHits | api/src/transport_matters/override_targets.py:91-103 | Rewriting a block that is there changes the shifted place, only if it is a text block. |
| OverridePlan.BlockMissed | api/src/transport_matters/override_ops_messages.py:159-202 | A block that is outside the message or already dropped is neither dropped nor rewritten, and its shifted place misses too. |
| OverridePlan.ToolEditsCompose | api/src/transport_matters/override_ops_messages.py:31-70 | Editing the tools twice is one edit with both sets of drops and texts. |
| OverridePlan.KeepTruncate | api/src/transport_matters/override_ops_messages.py:103-156 | Truncating a result and removing blocks commute. |
| OverrideOpsMessages.ApplyToolToggle | api/src/transport_matters/override_ops_messages.py:31-50 | The loop drops every tool of that name, reports whether one was there, and its delta is the exact change in tool characters. |
| OverrideOpsMessages.ApplyToolDescription | api/src/transport_matters/override_ops_messages.py:53-70 | The loop rewrites every tool of that name but reports the delta of the last one only. |
| OverrideOpsMessages.DescriptionDeltaConserved | api/src/transport_matters/override_ops_messages.py:53-70 | The reported description delta is the real change for every new text if and only if at most one tool has that name. |
| OverrideOpsMessages.TwoToolsMiscount | api/src/transport_matters/override_ops_messages.py:53-70 | With two tools of one name there is a text whose reported delta is too small. |
| OverrideOpsMessages.ApplySystemPartToggle | api/src/transport_matters/override_ops_messages.py:73-85 | Removes the part at a valid index and reports its exact characters; refuses any other index. |
| OverrideOpsMessages.ApplySystemPartText | api/src/transport_matters/override_ops_messages.py:88-100 | Rewrites the part at a valid index and reports the exact change; refuses any other index. |
| OverrideOpsMessages.TruncateOneMessage | api/src/transport_matters/override_ops_messages.py:103-156 | The inner loop truncates the matching results of one message, with the exact change in result text and the last curated text. |
| OverrideOpsMessages.JoinedTextMeans | api/src/transport_matters/override_ops_messages.py:132-134 | The text of a result is that of its text blocks, in order, and of nothing else. |
| OverrideOpsMessages.TruncationCutsResults | api/src/transport_matters/override_ops_messages.py:103-156 | Exactly the user results for the id whose text is longer than the limit are cut, to their first characters and the marker, with every other field kept. |
| OverrideOpsMessages.LastUserResultMeans | api/src/transport_matters/override_ops_messages.py:120-145 | The text kept for the audit is that of the last result for the id in the user messages. |
| OverrideOpsMessages.ApplyTruncateToolResult | api/src/transport_matters/override_ops_messages.py:103-156 | Only results of user messages with that id are truncated; applied exactly when there is one; the delta is the exact change in their text. |
| OverrideOpsMessages.ApplyMessageBlockToggle | api/src/transport_matters/override_ops_messages.py:159-177 | Removes exactly the block at a valid place, refuses any other, and reports the exact change in canonical message characters. |
| OverrideOpsMessages.ApplyMessageText | api/src/transport_matters/override_ops_messages.py:180-202 | Rewrites exactly the text block at a valid place, refuses anything else, and reports the exact change in raw text over all messages. |
| OverrideOpsMessages.MessageTextLedger | api/src/transport_matters/override_ops_messages.py:180-202 | The delta reported for a message text is the change in canonical message characters if and only if the old and the new text need equally many escape characters. |
| Sanitize.SanitizeCuratedMessages | api/src/transport_matters/override_ops_messages.py:205-237 | The two passes of the loop compute the sanitized messages and touch nothing else. |
| Sanitize.CodexHasToolResultOnlyTurn | api/src/transport_matters/override_ops_messages.py:14-28 | True exactly for a Codex request with tool results and no tool uses. |
| Sanitize.SanitizedIsClean | api/src/transport_matters/override_ops_messages.py:205-237 | The output has no empty text, no empty message and no unpaired tool id (preserved results excepted), and is contained in the input. |
| Sanitize.SanitizedIsGreatest | api/src/transport_matters/override_ops_messages.py:205-237 | Every sub-request with those properties is contained in the output. |
| Sanitize.SanitizedFixesExactlyClean | api/src/transport_matters/override_ops_messages.py:205-237 | Exactly the clean requests are left as they are, and a second pass changes nothing. |
| OverrideTargets.NameTargetsAreExact | api/src/transport_matters/override_targets.py:8-69 | Each prefixed-name parser accepts exactly what its printer writes. |
| OverrideTargets.SystemTargetIsExact | api/src/transport_matters/override_targets.py:39-54 | The system target parser accepts exactly what the printer writes, over all integers. |
| OverrideTargets.MessageTargetIsExact | api/src/transport_matters/override_targets.py:72-79 | The message target parser accepts exactly what the printer writes, over all pairs of integers. |
| OverrideTargets.ShiftFindsSurvivor | api/src/transport_matters/override_targets.py:82-103 | A surviving position is found at its shifted place in the shrunk list. |
| OverrideTargets.ShiftStaysOutside | api/src/transport_matters/override_targets.py:82-103 | A position outside the list, negative ones included, stays outside the shrunk list. |
| OverrideTargets.EditAtShiftedPlace | api/src/transport_matters/override_targets.py:82-103 | Editing or removing at the shifted place of the shrunk list is editing or removing at the original place. |
| Decimals.PatternIsImage | api/src/transport_matters/override_targets.py:5 | The index pattern accepts exactly the texts that `str` prints for integers, and `int` undoes `str`. |
| OverrideState.OverrideStore.Upsert | api/src/transport_matters/override_state.py:63-74 | Inserts, replaces in place or removes one override of one scope; other scopes are untouched and keys stay unique. |
| OverrideState.OverrideStore.Remove | api/src/transport_matters/override_state.py:76-83 | Reports and removes exactly the override with that key in that scope. |
| OverrideState.OverrideStore.GetAll | api/src/transport_matters/override_state.py:85-86 | Lists a scope in insertion order. |
| OverrideState.OverrideStore.SetEnabled | api/src/transport_matters/override_state.py:51-61 | Only the given scope changes, and only disabled scopes are recorded. |
| OverrideState.ScopesAreOne | api/src/transport_matters/override_state.py:21-33 | Two scopes are one if and only if they name the same run, none given being the legacy one, and the same track, none given being the run itself. |
| OverrideState.PlacesAreKept | api/src/transport_matters/override_state.py:63-84 | A key that is there keeps its place, a new one goes last, and a removal takes out that one place. |
| OverrideState.PutReadsBack | api/src/transport_matters/override_state.py:63-74 | The last write to a key is the one that is read; every other key reads as before. |
| OverrideState.OverrideStore.AnyOrderWillDo | api/src/transport_matters/override_state.py:85-86 | Listing a scope of the store in any order gives the same edited request, provider extras aside, and entirely so when the edits of the extras are independent. |
| OverrideAudit.CanonicalBlockJsonInjective | api/src/transport_matters/override_audit.py:51-105 | Equal canonical block texts come from equal content blocks, nested tool results and opaque data included (floats excluded). |
| OverrideAudit.BlockDelimited | api/src/transport_matters/override_audit.py:51-105 | A block text is self-delimiting: followed by anything but a digit it determines the block and where it ends. |
| OverrideAudit.CountCharsParts | api/src/transport_matters/override_audit.py:116-124 | The nested loops compute the system, tool and message character sums. |
| JsonReader.CanonicalReadsBack | api/src/transport_matters/canonicalization.py:51-81 | An independent reader of JSON text (RFC 8259) reads the canonical text of a float-free value as that value, whatever follows it but a digit or a minus sign. |
| JsonReader.StringReadsBack | api/src/transport_matters/canonicalization.py:25-26 | The escapes of a printed string stand for its characters. |
| JsonReader.BlockReadsBack | api/src/transport_matters/override_audit.py:51-105 | The canonical text of a content block is JSON for an object with the block's own type and fields. |
| Canonicalization.CanonicalJsonInjective | api/src/transport_matters/canonicalization.py:61-75 | On float-free values, equal canonical texts come from equal values and conversely. |
| Canonicalization.ValueDelimited | api/src/transport_matters/canonicalization.py:61-84 | A canonical text is self-delimiting within any longer text that does not continue with a digit. |
| Canonicalization.JsonStringDelimited | api/src/transport_matters/canonicalization.py:25-26 | A quoted, escaped string can be cut off the front of any text in only one way. |
| Canonicalization.CanonicalMapping | api/src/transport_matters/canonicalization.py:51-58 | The mapping printer gives the same text for every insertion order of the keys. |
| Canonicalization.IntegralFloatCollides | api/src/transport_matters/canonicalization.py:29-48 | Why floats are excluded: an integral float prints as the integer, for all magnitudes the printer writes without exponent. |
| OverrideOpsMetadata.AcceptedKeysAre | api/src/transport_matters/override_ops_metadata.py:47-51 | A dotted key is accepted unless a part of it is empty, `constructor` or a dunder name. |
| OverrideOpsMetadata.SetReadsBack | api/src/transport_matters/override_ops_metadata.py:54-63 | A successful set makes the path read back its value and leaves unrelated paths alone. |
| OverrideOpsMetadata.SetFailsWhenBlocked | api/src/transport_matters/override_ops_metadata.py:54-63 | Set fails exactly when a value on the way is not a dictionary. |
| OverrideOpsMetadata.DeleteNestedPathLoop | api/src/transport_matters/override_ops_metadata.py:66-81 | The walk down with remembered parents and the pruning walk back up compute the recursive deletion. |
| OverrideOpsMetadata.DeleteOutcome | api/src/transport_matters/override_ops_metadata.py:66-81 | Delete is blocked exactly when set is, and reaches the leaf exactly when the dictionary that would hold it exists. |
| OverrideOpsMetadata.DeleteRemovesAndPrunes | api/src/transport_matters/override_ops_metadata.py:66-81 | A completed delete removes the leaf, leaves unrelated paths alone, and leaves no empty dictionary on the way. |
| OverrideOpsMetadata.DeleteUndoesSet | api/src/transport_matters/override_ops_metadata.py:54-81 | Delete after set restores the original if and only if the leaf was absent and no dictionary on the way was empty. |
| AnthropicAdapter.FillOutboundRequest | api/src/transport_matters/adapters/anthropic.py:154-196 | The dictionary filled key by key, with the extras restored last, is the printed request. |
| AnthropicReading.RequestIsRead | api/src/transport_matters/adapters/anthropic.py:121-152 | A request is parsed to a value if and only if the wire holds that value, field by field, each under its own key: model, system, tools, messages and their blocks, sampling, metadata, stream, and the extras under every other key. |
| AnthropicReading.IdsAreRead | api/src/transport_matters/adapters/anthropic.py:511-544 | In a parsed request the session, device and account ids are x if and only if `user_id` is a string that loads to an object with x under that id's own key. |
| AnthropicReading.BlockIsRead | api/src/transport_matters/adapters/anthropic.py:391-470 | A content block is parsed to exactly the block whose fields it holds; one of no known shape is kept raw. |
| AnthropicReading.SystemIsRead | api/src/transport_matters/adapters/anthropic.py:314-341 | The system is read as one part from a text and item by item from a list. |
| AnthropicReading.ToolsAreRead | api/src/transport_matters/adapters/anthropic.py:343-369 | Tools are read item by item, each field under its own key with its default. |
| AnthropicReading.MessagesFieldIsRead | api/src/transport_matters/adapters/anthropic.py:371-389 | The items that hold a block are the messages, in order, each with its own role and content. |
| AnthropicReading.MetadataIsRead | api/src/transport_matters/adapters/anthropic.py:511-544 | The metadata is kept whole and each id is read under its own key, absent when that is null or missing. |
| AnthropicReading.SamplingIsRead | api/src/transport_matters/adapters/anthropic.py:546-556 | Each sampling value is read under its own key, coerced when it is there. |
| AnthropicRequests.RequestRoundTrip | api/src/transport_matters/adapters/anthropic.py:121-196 | For every parseable request, parsing what was printed gives the parsed request again if and only if the model was neither the bare nor a doubled prefix. |
| AnthropicRequests.RequestNormalForm | api/src/transport_matters/adapters/anthropic.py:121-196 | For every raw request, it parses and prints back to itself if and only if it is in an explicit normal form. |
| AnthropicRequests.StringContentIsNotPrintedBack | api/src/transport_matters/adapters/anthropic.py:370-390 | A parseable request with one string message that does not print back to itself. |
| AnthropicRequests.BarePrefixIsNotReadBack | api/src/transport_matters/adapters/anthropic.py:121-164 | A parseable request with the bare prefix as model whose print does not read back as the same request. |
| AnthropicRequests.ModelRoundTrip | api/src/transport_matters/adapters/anthropic.py:121-196 | The exact conditions under which a model id survives normalising and denormalising, in both directions. |
| AnthropicRequests.SystemsRoundTrip | api/src/transport_matters/adapters/anthropic.py:313-338 | Any parseable system field survives printing and parsing, string shorthand included. |
| AnthropicRequests.SystemsNormalForm | api/src/transport_matters/adapters/anthropic.py:313-338 | Exactly which system fields print back to themselves. |
| AnthropicRequests.ToolNormalForm | api/src/transport_matters/adapters/anthropic.py:342-367 | Exactly which tools print back to themselves, with their sibling fields. |
| AnthropicRequests.MessageNormalForm | api/src/transport_matters/adapters/anthropic.py:370-465 | Exactly which messages print back to themselves. |
| AnthropicRequests.MessagesNormalForm | api/src/transport_matters/adapters/anthropic.py:370-465 | Any parseable message list survives printing and parsing, and exactly which lists print back to themselves (string content, dropped empty messages and defaults are the failures). |
| AnthropicRequests.MetadataRoundTrip | api/src/transport_matters/adapters/anthropic.py:510-541 | Metadata survives printing and parsing, and exactly which metadata prints back to itself: none, or a non-empty object whose decoded ids are absent, null or strings. |
| AnthropicRoundTrip.BlockRoundTrip | api/src/transport_matters/adapters/anthropic.py:390-506 | Parsing a printed content block gives the block, for every block whose overflow is apart from its fields and every opaque block that no block parser takes. |
| AnthropicRoundTrip.BlockIsStable | api/src/transport_matters/adapters/anthropic.py:390-506 | Parsing, printing and parsing again gives what the first parse gave, for every raw block that parses. |
| AnthropicRoundTrip.BlockNormalForm | api/src/transport_matters/adapters/anthropic.py:390-506 | A raw block survives parsing and printing if and only if it is normal: unknown blocks, nested results and sibling fields included. |
| AnthropicRoundTrip.ParsedBlockIsOk | api/src/transport_matters/adapters/anthropic.py:390-456 | Whatever the parser builds is a block that round-trips. |
| AnthropicRoundTrip.ToolResultNormalForm | api/src/transport_matters/adapters/anthropic.py:390-456 | Exactly which tool results print back to themselves. |
| AnthropicRoundTrip.RestoreRebuilds | api/src/transport_matters/adapters/anthropic.py:58-68 | Restoring the captured overflow rebuilds the raw fields exactly when the modelled part is what it was. |
| AnthropicSse.InboundResponseSse | api/src/transport_matters/adapters/anthropic.py:234-307 | The one-pass reassembler with its buffers computes, for every list of events, the response that each index's own events determine, and fails exactly when some event cannot be handled. |
| AnthropicWire.WireIsSeen | api/src/transport_matters/adapters/anthropic.py:243-288 | Decoding the wire form of an event, whichever other keys it has, gives that event: starts, the three deltas with text, other deltas, stops, the message start with its usage, the message delta and everything else. |
| AnthropicWire.WireEqualsBatch | api/src/transport_matters/adapters/anthropic.py:200-307 | A message sent as raw event objects, its texts and inputs split and its blocks interleaved in any way, gives through the reassembler the response that its one body gives, extras aside, and none when that gives none. |
| AnthropicWire.ResponseIsRead | api/src/transport_matters/adapters/anthropic.py:200-232 | A response body is parsed to a value if and only if it holds that value, field by field. |
| AnthropicWire.UsageIsRead | api/src/transport_matters/adapters/anthropic.py:210-226 | Each of the four token counts is read from its own key, a missing one being zero. |
| AnthropicSse.SameKeyExactly | api/src/transport_matters/adapters/anthropic.py:254-277 | Two indices name one buffer if and only if they are the same value or the same number, booleans counting as integers; lists and dictionaries raise. |
| AnthropicSse.HandleEvent | api/src/transport_matters/adapters/anthropic.py:256-288 | One event changes only the buffer of its own index and appends at most the block it completes. |
| AnthropicSse.PendingIsLocal | api/src/transport_matters/adapters/anthropic.py:256-288 | The buffer of an index depends on the events of that index only, however they interleave with others. |
| AnthropicSse.StreamEqualsBlocks | api/src/transport_matters/adapters/anthropic.py:234-307 | For blocks of every type, any split of their text, thinking or input JSON into deltas (none, unreadable and non-object input included), and any interleaving with stops in block order, exactly the whole blocks come out. |
| AnthropicSse.ProseComesOutWhole | api/src/transport_matters/adapters/anthropic.py:256-288 | A text or thinking block comes out whole if and only if its start agrees with it off the prose; a signature that only a delta brings is lost. |
| AnthropicSse.InputComesOutWhole | api/src/transport_matters/adapters/anthropic.py:256-288 | A block with input deltas, of any type, comes out whole if and only if they spell its input and its start agrees with it off the input. |
| AnthropicSse.StreamEqualsBatch | api/src/transport_matters/adapters/anthropic.py:200-307 | A streamed message and the same message sent whole give the same response, extras aside, or both fail. |
| OscColorResponder.AnswerChunks | api/src/transport_matters/osc_color_responder.py:38-58 | However a byte stream is cut into chunks, the concatenated replies are those owed for the whole stream: one per occurrence of a query, in order. |
| OscColorResponder.Responder.RepliesFor | api/src/transport_matters/osc_color_responder.py:44-58 | One call adds exactly the replies that the longer stream owes, and leaves a carry of at most seven bytes that holds no complete query. |
| OscColorResponder.MatchIsQuery | api/src/transport_matters/osc_color_responder.py:32 | The pattern matches exactly the four queries, and captures the colour asked for. |
| OscColorResponder.QueriesDoNotOverlap | api/src/transport_matters/osc_color_responder.py:54-58 | No query starts inside another. |
| OscColorResponder.ReplyAnswersItsQuery | api/src/transport_matters/osc_color_responder.py:23-32 | A reply repeats the head of the query it answers, names the colour and ends with the string terminator. |
| OscColorResponder.QueryIsAnsweredOnce | api/src/transport_matters/osc_color_responder.py:44-58 | Whatever surrounds it, a query is answered exactly once, after the replies owed before it and before those owed behind it. |
| OscColorResponder.ChunkOwed | api/src/transport_matters/osc_color_responder.py:52-58 | Scanning the carry and the chunk finds exactly what the chunk adds to the stream. |
| ScrollbackRing.Ring.Append | api/src/transport_matters/run_terminal.py:83-103 | The chunk is numbered consecutively and handed back whole; the kept chunks stay the longest whole-chunk suffix (each chunk capped) within the bound, the stored bytes the end of all output, the total their size, and `truncated` true exactly when some byte was lost. |
| ScrollbackRing.Ring.Trim | api/src/transport_matters/run_terminal.py:108-112 | The trim loop leaves exactly the longest suffix that fits and marks truncation exactly when it drops bytes. |
| ScrollbackRing.CappedAlone | api/src/transport_matters/run_terminal.py:94-103 | A chunk as large as the bound is kept alone, so the stored bytes stay contiguous. |
| TerminalFanout.Fanout.Attach | api/src/transport_matters/run_terminal.py:145-167 | A new viewer starts with the snapshot and an empty queue at the next sequence number, and keeps the seam with what follows; a viewer with the same id is replaced. |
| TerminalFanout.Fanout.Append | api/src/transport_matters/run_terminal.py:169-184 | Every attached viewer with room is sent the chunk; those without, in order, are reported, detached and given the overload reason, while their full queues get neither the chunk nor a close marker. |
| TerminalFanout.Fanout.CloseAttachment | api/src/transport_matters/run_terminal.py:198-213 | The viewer is detached and gets the close marker last, unless its queue is full. |
| TerminalFanout.Fanout.CloseAll | api/src/transport_matters/run_terminal.py:189-196 | Every attached viewer is closed and none stays attached. |
| TerminalFanout.Fanout.Detach | api/src/transport_matters/run_terminal.py:186-187 | Detaching removes exactly that viewer and does not close it. |
| TerminalFanout.Fanout.Take | api/src/transport_matters/run_terminal.py:116-123 | Items leave a queue in order, attached or not, and the seam is kept. |
| TerminalFanout.TerminalAttachment.PutChunk | api/src/transport_matters/run_terminal.py:172-177 | A full queue refuses a chunk; otherwise the chunk follows the previous one without a gap. |
| TerminalFanout.SeamIsContiguous | api/src/transport_matters/run_terminal.py:145-213 | What a viewer missed, its snapshot and all chunks ever queued to it make up the output without gap or duplicate, up to the current end while it is attached. |
| TrackManager.RunTracks.ClassifyRequest | api/src/transport_matters/track_manager.py:116-125 | A request is assigned to a known track in every valid state, so no lookup fails, and the dictionaries end up as the pure classification says. |
| TrackManager.RunTracks.ObserveResponse | api/src/transport_matters/track_manager.py:127-179 | The loop over a response records calls, spawns, waits and kills in order, numbering the spawns within the response. |
| TrackManager.RunTracks.ResolveToolResults | api/src/transport_matters/track_manager.py:254-289 | The loop settles the results one by one and points to the one parent, else the one open owner, else the run when an owner is stale. |
| TrackManager.Manager.RecordExchange | api/src/transport_matters/track_manager.py:98-114 | One exchange changes one run and leaves every other run as it was. |
| TrackInvariants.ObserveBlockIsKnown | api/src/transport_matters/track_manager.py:147-179 | A response keeps every track under its own id and every parent, spawn owner and call owner known. |
| TrackInvariants.ResolveResultIsKnown | api/src/transport_matters/track_manager.py:254-345 | So does a tool result, and it finds known tracks only. |
| TrackInvariants.ClassifyIsKnown | api/src/transport_matters/track_manager.py:116-125 | So does a whole request, which is assigned to a known track. |
| TrackInvariants.PlacedIsKnown | api/src/transport_matters/track_manager.py:347-390 | Wherever the results point, the track a request is assigned to is known. |
| TrackInvariants.AssignmentMeans | api/src/transport_matters/track_manager.py:364-390 | A request that neither results nor a Codex id place goes to the earliest active subagent without a signature, else to the one active subagent with its signature if there is exactly one, else to the run. |
| TrackRuns.RunIsKnown | api/src/transport_matters/track_manager.py:98-195 | In every reachable state of any run all references are known. |
| TrackTree.PutTrackKeepsTree | api/src/transport_matters/track_manager.py:317-327 | Putting a track under a known parent keeps all parent chains ending at the run if and only if the track is neither the run's own nor an ancestor-or-self of that parent. |
| TrackTree.ResolveResultKeepsTree | api/src/transport_matters/track_manager.py:291-345 | One tool result keeps the tree of tracks if and only if the agent id it reports for a pending Codex spawn meets that condition. |
| TrackTree.SafeIffTrees | api/src/transport_matters/track_manager.py:254-345 | Over a whole request, the reported agent ids meet that condition if and only if the tracks form a tree after each result. |
| TrackTree.ObserveBlockKeepsTree | api/src/transport_matters/track_manager.py:147-252 | A response always keeps the tree: a new spawn is a leaf and a known id is left alone. |
| TrackRuns.RunIsTree | api/src/transport_matters/track_manager.py:98-327 | In every reachable state of a run whose reported agent ids meet it, every parent chain reaches the run's own track. |
| TrackRuns.SafeRunIffTrees | api/src/transport_matters/track_manager.py:254-345 | Over whole runs, the reported agent ids meet that condition if and only if the tracks form a tree at every moment, between the results of one request too. |
| TrackRuns.ReportedRunIdBreaksTheTree | api/src/transport_matters/track_manager.py:291-327 | A legal run of one Codex spawn and its result, whose text decodes to the run's own id as agent id, makes the run's own track its own parent. |
| TrackRuns.RunRecords | api/src/transport_matters/track_manager.py:142-148 | With unique call ids the recorded owner of a call is the track whose response made it, and no call is both a pending spawn and a wait. |
| TrackRuns.CallerGetsItsResults | api/src/transport_matters/track_manager.py:254-289 | In any run with unique call ids, a request whose results answer only calls of one track that is not closed, none of them pending, is assigned to that track. |
| TrackPlacement.SpawnerGetsItsResults | api/src/transport_matters/track_manager.py:254-283 | In any run with unique call ids, a request with results for pending spawns that one track's responses made goes to that track, whatever plain results it has besides. |
| TrackPlacement.WaiterGetsItsResults | api/src/transport_matters/track_manager.py:254-283 | A request with results for pending waits goes to the one parent that the targets known have. |
| TrackPlacement.TwoParentsPlaceNothing | api/src/transport_matters/track_manager.py:283-284 | Results that point to two different parents place nothing: the later rules decide. |
| TrackPlacement.CallersDecide | api/src/transport_matters/track_manager.py:254-289 | Without results for pending calls a request goes to the one open track whose calls it answers; with none or several, to the run if some caller is closed, and by the later rules otherwise. |
| TrackPlacement.NoSpawnIsLeft | api/src/transport_matters/track_manager.py:392-408 | Whatever the ids, no result of a request is left with a pending spawn, so the second lookup can only find a wait. |
| TrackPlacement.SecondLookMeans | api/src/transport_matters/track_manager.py:392-408 | What the second lookup finds is the one parent of the targets of such a wait. |
| TrackEffects.AgentSpawns | api/src/transport_matters/track_manager.py:149-230 | An `Agent` call gets a track at once: an open child of the caller, named by its type, with the place of its spawn; an id that has a track keeps it. |
| TrackEffects.CodexSpawns | api/src/transport_matters/track_manager.py:159-252 | A Codex spawn is pending under its caller and has no track yet. |
| TrackEffects.WaitTerminates | api/src/transport_matters/track_manager.py:169-175 | A wait marks exactly the tracks it lists as terminating, and is pending unless it lists none. |
| TrackEffects.KillCloses | api/src/transport_matters/track_manager.py:176-179 | A kill closes exactly its targets: those listed, or else the single one. |
| TrackEffects.SpawnsAreCounted | api/src/transport_matters/track_manager.py:143-168 | The order of a spawn is the number of spawns before it in its response. |
| TrackEffects.AgentResultCloses | api/src/transport_matters/track_manager.py:291-302 | The result of an `Agent` call closes the track of that call and no other. |
| TrackEffects.CodexResultSpawns | api/src/transport_matters/track_manager.py:304-327 | The result of a Codex spawn that reports an agent id makes that track a child of the spawner, under the nickname, else the name of the call, else the id. |
| TrackEffects.NoAgentNoTrack | api/src/transport_matters/track_manager.py:304-308 | Without an agent id the spawn is only taken off the pending ones. |
| TrackEffects.WaitResultCloses | api/src/transport_matters/track_manager.py:329-345 | The result of a wait closes exactly the targets whose status it reports, unless it timed out. |
| TrackEffects.CodexSubagentIsNamed | api/src/transport_matters/track_manager.py:499-518 | A Codex request names its subagent by the head of its window id, and without one by the session of its turn, provided it says it comes from a subagent. |
| TrackEffects.CodexNameIs | api/src/transport_matters/track_manager.py:520-547 | The display name of a Codex subagent, from its nickname header or the first of three names in the turn metadata. |
| TrackEffects.CodexTrackIsAdded | api/src/transport_matters/track_manager.py:359-370 | A subagent named for the first time is an open child of the run's own track. |
| TrackEffects.SignatureIsFixed | api/src/transport_matters/track_manager.py:410-422 | The first request of a track fixes its signature, the number of tools and the end of the client version; the run's own track takes no name. |
| TrackEffects.AssignmentTells | api/src/transport_matters/track_manager.py:424-442 | An assignment tells the track's own fields, and an anchor if anything about its spawn is known. |
| TrackRuns.SecondLookIsSilent | api/src/transport_matters/track_manager.py:392-408 | After resolution the second lookup over the same results yields nothing, if no call id is both a pending spawn and a wait. |
| TrackRuns.SecondLookIsIdle | api/src/transport_matters/track_manager.py:353-358 | Hence in any run with unique call ids the second lookup never decides an assignment. |
| Breakpoint.Breakpoints.Pause | api/src/transport_matters/breakpoint.py:89-127 | Registers the flow with its requests and audit; the arming mode is left alone. |
| Breakpoint.Breakpoints.Release | api/src/transport_matters/breakpoint.py:144-156 | Returns True exactly while the flow is paused, and then the release is on record. |
| Breakpoint.Breakpoints.Drop | api/src/transport_matters/breakpoint.py:159-166 | Returns True exactly while the flow is paused, and then the drop is on record. |
| Breakpoint.Breakpoints.SetTokensBefore | api/src/transport_matters/breakpoint.py:130-141 | Attaches a count exactly while the flow is paused and changes nothing else. |
| Breakpoint.Breakpoints.PopPaused | api/src/transport_matters/breakpoint.py:169-172 | Takes out the flow in the state that its commands since the pause put it in. |
| Breakpoint.Breakpoints.ClearAll | api/src/transport_matters/breakpoint.py:181-186 | Drops every paused flow. |
| Breakpoint.LastReleaseCounts | api/src/transport_matters/breakpoint.py:144-156 | Of several releases the last one counts, and without one nothing was submitted. |
| Breakpoint.Breakpoints.ReAudit | api/src/transport_matters/api/v1/breakpoint_routes.py:214-248 | A re-audit replaces the curated request and audit exactly while the flow is paused. |
| Breakpoint.PausedFlow.Settle | api/src/transport_matters/pause_session.py:91-104 | The outcome of a popped flow is the verdict on its commands: any drop wins, else the last release, else the curated request; bytes are sent when submitted or when the request differs from the original. |
| PauseGate.Gate.Advance | api/src/transport_matters/pause_session.py:226-293 | Each step of a session that can be taken has exactly the effect that the state machine gives it, and keeps the protocol in order. |
| PauseGate.Gate.Perform | api/src/transport_matters/pause_session.py:134-164 | Each command or late count, at any moment, succeeds exactly when its flow is paused, has exactly its effect on the record, and keeps the protocol in order. |
| PauseGate.Run | api/src/transport_matters/pause_session.py:226-293 | Under every schedule of steps, commands, timeouts and shutdowns: exactly the steps that are ready succeed; a session has a fate exactly when its pop was made; it is refused if and only if a drop or shutdown took effect between its own pause and its pop, and otherwise forwarded as the last release in between asked: its edited request, else the request as last audited, marked as edited and without audit exactly when it differs from that, with the bytes submitted, else none exactly when it is the original; and at every moment at most one flow is paused. |
| PauseSession.FateIsAnswered | api/src/transport_matters/pause_session.py:66-104 | The same about the state machine: every fate answers the steps between the session's own pause and its own pop. |
| PauseSession.WokenExactly | api/src/transport_matters/pause_session.py:240-281 | A waiting session can go on before its timeout if and only if a release, a drop or a shutdown took effect since its pause. |
| PauseSession.PlayIsInOrder | api/src/transport_matters/pause_session.py:226-293 | Every schedule keeps only the holder of the serializer inside, only its flow paused, and every settled session at the fate its commands decide. |
| PauseSession.AtMostOneIsPaused | api/src/transport_matters/breakpoint.py:58 | At every moment of every schedule two flows on record as paused are the same. |
| PauseSession.FateIffPopped | api/src/transport_matters/pause_session.py:282-293 | A session has a fate exactly when its pop has been made. |
| Counting.KeyTextsMeetExactly | api/src/transport_matters/counting.py:151-167 | For any two identities: some posted bytes give one digested text if and only if the identity texts, up to the bar after them, are one inside the other; the same posted bytes do if and only if the identity texts are equal. |
| Counting.KeysTellApartExactly | api/src/transport_matters/counting.py:151-167 | The digested text determines identity and posted bytes, for a pair of identities, if and only if they are the same or not comparable in that way. |
| Counting.RelevantAreTheFour | api/src/transport_matters/counting.py:120-131 | The filter keeps exactly the four identity headers that have a value, as they are. |
| Counting.RelevantArePlain | api/src/transport_matters/counting.py:120-131 | The names that the filter keeps neither hold `=` nor start with `\|`, so a filtered identity is plain if and only if no kept value holds a NUL. |
| Counting.PlainNeverMeet | api/src/transport_matters/counting.py:151-167 | Two plain identities are comparable only when they are the same. |
| Counting.RelevantKeysTellApart | api/src/transport_matters/counting.py:120-167 | Hence the usual case: for identities filtered from any two requests without NUL in the kept values, the digested texts agree if and only if the posted bytes and the identities do. |
| Counting.OneHeaderMeets | api/src/transport_matters/counting.py:151-167 | Two values of one header share a digested text if and only if one of them, closed by a NUL and the bar, begins the other so closed; any other NUL is harmless. |
| Counting.NamesCollide | api/src/transport_matters/counting.py:151-167 | With other names, holding `=` or starting with `\|`, two different identities are comparable and do share a digested text. |
| Counting.NulCollides | api/src/transport_matters/counting.py:151-167 | A NUL inside a header value can make two different identities share a key for every payload. |
| Counting.OnlyCountedFieldsMatter | api/src/transport_matters/counting.py:134-148 | Payloads that differ only in fields outside the allowlist are posted, and cached, alike. |
| Counting.PostedHoldsTheCounted | api/src/transport_matters/counting.py:134-148 | For a JSON writer that the reader undoes, the posted bytes hold the six counted fields as the payload does and nothing else. |
| Counting.PostedAlikeExactly | api/src/transport_matters/counting.py:134-148 | Hence two payloads are posted alike if and only if they agree on those fields. |
| TokenCounter.CountedExactly | api/src/transport_matters/counting.py:262-298 | A count comes from a reply of status 200 whose object holds it, and only a body that is no object raises. |
| TokenCounter.Cache.Lookup | api/src/transport_matters/counting.py:253-260 | A hit returns the stored count and becomes the newest entry; a miss changes nothing. |
| TokenCounter.Cache.Store | api/src/transport_matters/counting.py:299-303 | A count is stored in place or as the newest, and the oldest entry goes when there is one too many. |
| TokenCounter.Cache.Count | api/src/transport_matters/counting.py:253-303 | For a deterministic provider and a collision-free digest a cached call returns what an uncached one would, and eviction is least-recently-used. |
| TokenCounter.CachedWasAnswered | api/src/transport_matters/counting.py:253-260 | A cached count was returned by the provider for exactly these posted bytes and this identity. |
| TokenCounter.NewestHit | api/src/transport_matters/counting.py:257-260 | Moving a hit to the end keeps the cache the most recently used keys. |
| TokenCounter.NewestMiss | api/src/transport_matters/counting.py:300-302 | Appending a miss and evicting the first keeps the cache the most recently used keys. |
| TokenCounter.RunSteps | api/src/transport_matters/counting.py:235-303 | Under any interleaving of overlapping calls each reads exactly what the fold of the earlier steps holds, the cache is within its bound at every moment, and every cached count had arrived earlier for the very bytes and identity asked for. |
| CodexContinuity.CodexContinuityAllocator.Allocate | api/src/transport_matters/codex/continuity.py:40-72 | An empty thread id is an error; otherwise the index is a function of that thread's own earlier calls, and the session falls back to the thread. |
| CodexContinuity.IndicesAreInitial | api/src/transport_matters/codex/continuity.py:40-89 | The indices handed out in a thread are exactly 0..n-1. |
| CodexContinuity.SharedIffSameTurn | api/src/transport_matters/codex/continuity.py:56-63 | Two calls of a thread share an index if and only if they carry the same turn id, not absent. |

## Left out

- Canonicalization.CanonicalJsonInjective: floats are excluded, because `1.0` prints as `1` (see `Canonicalization.IntegralFloatCollides`); lone surrogates in strings are not distinguished from characters.
- OverrideAudit.CanonicalBlockJsonInjective: floats inside opaque dictionaries are excluded for the same reason.
- JsonReader.CanonicalReadsBack: floats are excluded here too, and the reader does not read fractions or exponents.
- OverrideTargets.SystemTargetIsExact: Python's limit on the digits that `int` accepts is not modelled.
- Overrides.ApplyOverrides: tool deltas are claimed to add up only when a described name occurs once, as the code reports one tool of several; deltas of message texts and truncations count raw text and are stated as such.
- OverrideEffects.MessagesAreOriginalBlocks: of a tool result in a user message it keeps only the id; what truncations leave of it is `OverrideEffects.ResultTruncated`.
- OverrideOpsMetadata.SetReadsBack: nested dictionaries are values here, so that the caller's extras are never mutated, and sharing between dictionaries, is not captured.
- OverrideOpsMetadata.DeleteNestedPathLoop: the loop works on dictionary values and writes the changed children back explicitly.
- AnthropicRequests.RequestNormalForm: a temperature or nucleus value must be a float in normal form, as an integer is coerced; the order of keys in an object is not modelled, nor is JSON byte parsing.
- AnthropicSse.InboundResponseSse: events are decoded objects (line splitting is not modelled); adding a delta that is not a string, or starting a block from a list of pairs, counts as a failure.
- AnthropicSse.StreamEqualsBlocks: a thinking signature that arrives as a delta is ignored by the code, so a thinking block must have its signature in its start event to come out whole (see `AnthropicSse.ProseComesOutWhole`).
- AnthropicWire.WireEqualsBatch: block indices are integers, and events that are malformed or out of order (a delta that holds no text, a stop before its start) are covered by `AnthropicSse.InboundResponseSse` alone.
- TrackManager.RunTracks.ObserveResponse: track records and pending spawns are values in the run's dictionaries; the program shares record objects with callers of `tracks`.
- TrackTree.ResolveResultKeepsTree: nothing is claimed about a closed track staying closed, which the code does not ensure.
- PauseGate.Run: cancellation and exceptions inside a session are not modelled, nor are the broadcasts and the transport-specific handling of an outcome.
- TokenCounter.Cache.Count: the transport, the retries of callers and the recently seen identity kept for lazy counts are not modelled; the digest is a parameter that the main results assume collision-free.
- CodexContinuity.CodexContinuityAllocator.Allocate: reading the ids from headers is not modelled.
- TerminalFanout.Fanout.Attach: generated ids and the clock are parameters; a generated id that is already attached replaces that viewer.
- Run lifecycle, launching, supervision, sockets, manifests and homes: operating-system calls and configuration.
- The web API, storage, migrations, session store and user interfaces: input and output.
- The Codex adapter and the derivation engine: their parsers are not part of this model.
- The run-scoped broadcaster and the process-wide singletons: a list of subscriber queues, and module globals that hold one instance each.
