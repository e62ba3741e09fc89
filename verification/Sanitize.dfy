/** The cleaning pass after all overrides: drop empty text, orphaned tool pairs and
    emptied messages. It computes the greatest clean sub-request in one pass. */
module Sanitize {
  import opened Ir

  function ContentUses(content: seq<Block>): set<string> {
    if content == [] then {}
    else
      var last := content[|content| - 1];
      ContentUses(content[..|content| - 1]) + if last.ToolUseBlock? then {last.id} else {}
  }

  function ContentResults(content: seq<Block>): set<string> {
    if content == [] then {}
    else
      var last := content[|content| - 1];
      ContentResults(content[..|content| - 1]) + if last.ToolResultBlock? then {last.toolUseId} else {}
  }

  /** The ids of the tool calls in the messages. */
  function UseIds(messages: seq<Message>): set<string> {
    if messages == [] then {}
    else UseIds(messages[..|messages| - 1]) + ContentUses(messages[|messages| - 1].content)
  }

  /** The ids that tool results in the messages answer. */
  function ResultIds(messages: seq<Message>): set<string> {
    if messages == [] then {}
    else ResultIds(messages[..|messages| - 1]) + ContentResults(messages[|messages| - 1].content)
  }

  predicate KeepsBlock(b: Block, orphanUses: set<string>, orphanResults: set<string>) {
    && !(b.TextBlock? && b.text == "")
    && !(b.ToolUseBlock? && b.id in orphanUses)
    && !(b.ToolResultBlock? && b.toolUseId in orphanResults)
  }

  function KeptBlocks(content: seq<Block>, orphanUses: set<string>, orphanResults: set<string>): seq<Block> {
    if content == [] then []
    else
      var front := KeptBlocks(content[..|content| - 1], orphanUses, orphanResults);
      var last := content[|content| - 1];
      if KeepsBlock(last, orphanUses, orphanResults) then front + [last] else front
  }

  function CleanedMessages(messages: seq<Message>, orphanUses: set<string>, orphanResults: set<string>): seq<Message> {
    if messages == [] then []
    else
      var last := messages[|messages| - 1];
      var kept := KeptBlocks(last.content, orphanUses, orphanResults);
      var front := CleanedMessages(messages[..|messages| - 1], orphanUses, orphanResults);
      if kept == [] then front else front + [last.(content := kept)]
  }

  function OrphanUses(messages: seq<Message>): set<string> { UseIds(messages) - ResultIds(messages) }

  function OrphanResults(messages: seq<Message>, preserve: bool): set<string> {
    if preserve then {} else ResultIds(messages) - UseIds(messages)
  }

  function Sanitized(messages: seq<Message>, preserve: bool): seq<Message> {
    CleanedMessages(messages, OrphanUses(messages), OrphanResults(messages, preserve))
  }

  method SanitizeCuratedMessages(ir: Request, preserve: bool) returns (after: Request)
    ensures after == ir.(messages := Sanitized(ir.messages, preserve))
  {
    hide UseIds, ResultIds, ContentUses, ContentResults, KeptBlocks, CleanedMessages;
    NoMessagesNoIds();
    var useIds: set<string>, resultIds: set<string> := {}, {};
    assert ir.messages[..0] == [];
    for m := 0 to |ir.messages|
      invariant useIds == UseIds(ir.messages[..m]) && resultIds == ResultIds(ir.messages[..m])
    {
      var content := ir.messages[m].content;
      assert ir.messages[..m + 1] == ir.messages[..m] + [ir.messages[m]] && content[..0] == [];
      MessageIdsAppend(ir.messages[..m], ir.messages[m]);
      for b := 0 to |content|
        invariant useIds == UseIds(ir.messages[..m]) + ContentUses(content[..b])
        invariant resultIds == ResultIds(ir.messages[..m]) + ContentResults(content[..b])
      {
        assert content[..b + 1] == content[..b] + [content[b]];
        IdsAppend(content[..b], content[b]);
        if content[b].ToolUseBlock? { useIds := useIds + {content[b].id}; }
        else if content[b].ToolResultBlock? { resultIds := resultIds + {content[b].toolUseId}; }
      }
      assert content[..|content|] == content;
    }
    assert ir.messages[..|ir.messages|] == ir.messages;
    var paired := useIds * resultIds;
    var orphanUses := useIds - paired;
    var orphanResults := if preserve then {} else resultIds - paired;
    assert orphanUses == OrphanUses(ir.messages) && orphanResults == OrphanResults(ir.messages, preserve);

    var cleaned: seq<Message> := [];
    NothingKept(orphanUses, orphanResults);
    for m := 0 to |ir.messages|
      invariant cleaned == CleanedMessages(ir.messages[..m], orphanUses, orphanResults)
    {
      var message := ir.messages[m];
      assert ir.messages[..m + 1] == ir.messages[..m] + [message] && message.content[..0] == [];
      CleanedAppend(ir.messages[..m], message, orphanUses, orphanResults);
      var kept: seq<Block> := [];
      for b := 0 to |message.content|
        invariant kept == KeptBlocks(message.content[..b], orphanUses, orphanResults)
      {
        var block := message.content[b];
        assert message.content[..b + 1] == message.content[..b] + [block];
        KeptAppend(message.content[..b], block, orphanUses, orphanResults);
        if block.TextBlock? && block.text == "" { continue; }
        if block.ToolUseBlock? && block.id in orphanUses { continue; }
        if block.ToolResultBlock? && block.toolUseId in orphanResults { continue; }
        kept := kept + [block];
      }
      assert message.content[..|message.content|] == message.content;
      if kept == [] { continue; }
      cleaned := cleaned + [message.(content := kept)];
    }
    after := ir.(messages := cleaned);
  }

  /** A Codex request that carries tool outputs without tool uses. */
  method CodexHasToolResultOnlyTurn(ir: Request) returns (only: bool)
    ensures only <==> ir.provider == "codex" && ResultIds(ir.messages) != {} && UseIds(ir.messages) == {}
  {
    if ir.provider != "codex" { return false; }
    hide ContentUses, ContentResults, UseIds, ResultIds;
    NoMessagesNoIds();
    var hasUse, hasResult := false, false;
    for m := 0 to |ir.messages|
      invariant hasUse <==> UseIds(ir.messages[..m]) != {}
      invariant hasResult <==> ResultIds(ir.messages[..m]) != {}
    {
      var content := ir.messages[m].content;
      assert ir.messages[..m + 1] == ir.messages[..m] + [ir.messages[m]];
      MessageIdsAppend(ir.messages[..m], ir.messages[m]);
      ghost var use, result := hasUse, hasResult;
      for b := 0 to |content|
        invariant hasUse <==> use || ContentUses(content[..b]) != {}
        invariant hasResult <==> result || ContentResults(content[..b]) != {}
      {
        assert content[..b + 1] == content[..b] + [content[b]];
        IdsAppend(content[..b], content[b]);
        if content[b].ToolUseBlock? { hasUse := true; }
        else if content[b].ToolResultBlock? { hasResult := true; }
      }
      assert content[..|content|] == content;
      UnionEmpty(UseIds(ir.messages[..m]), ContentUses(content));
      UnionEmpty(ResultIds(ir.messages[..m]), ContentResults(content));
    }
    assert ir.messages[..|ir.messages|] == ir.messages;
    only := hasResult && !hasUse;
  }

  lemma NoMessagesNoIds()
    ensures UseIds([]) == {} && ResultIds([]) == {} && ContentUses([]) == {} && ContentResults([]) == {}
  {
  }

  lemma UnionEmpty(a: set<string>, b: set<string>)
    ensures a + b == {} <==> a == {} && b == {}
  {
    if a + b == {} { assert a <= a + b && b <= a + b; }
  }

  // ---- what clean means ----

  /** No empty text, no empty message, every call answered, every answer asked for
      (unless orphaned results are to be preserved). */
  ghost predicate Clean(messages: seq<Message>, preserve: bool) {
    && (forall m | m in messages :: m.content != [] && forall b | b in m.content :: b.TextBlock? ==> b.text != "")
    && UseIds(messages) <= ResultIds(messages)
    && (preserve || ResultIds(messages) <= UseIds(messages))
  }

  /** `a` is `b` with some blocks left out. */
  ghost predicate SubContent(a: seq<Block>, b: seq<Block>) {
    a == [] || (b != [] &&
      (|| (a[|a| - 1] == b[|b| - 1] && SubContent(a[..|a| - 1], b[..|b| - 1]))
       || SubContent(a, b[..|b| - 1])))
  }

  ghost predicate SubMessage(a: Message, b: Message) {
    a.role == b.role && a.providerData == b.providerData && SubContent(a.content, b.content)
  }

  /** `a` is `b` with some messages, and some blocks of the others, left out. */
  ghost predicate SubMessages(a: seq<Message>, b: seq<Message>) {
    a == [] || (b != [] &&
      (|| (SubMessage(a[|a| - 1], b[|b| - 1]) && SubMessages(a[..|a| - 1], b[..|b| - 1]))
       || SubMessages(a, b[..|b| - 1])))
  }

  // ---- the output is a clean sub-request ----

  lemma SubContentAppend(a: seq<Block>, b: seq<Block>, x: Block)
    requires SubContent(a, b)
    ensures SubContent(a + [x], b + [x]) && SubContent(a, b + [x])
  {
    assert (b + [x])[..|b|] == b && (a + [x])[..|a|] == a;
  }

  lemma SubMessagesAppend(a: seq<Message>, b: seq<Message>, m: Message, n: Message)
    requires SubMessages(a, b) && SubMessage(m, n)
    ensures SubMessages(a + [m], b + [n]) && SubMessages(a, b + [n])
  {
    assert (b + [n])[..|b|] == b && (a + [m])[..|a|] == a;
  }

  lemma IdsAppend(content: seq<Block>, b: Block)
    ensures ContentUses(content + [b]) == ContentUses(content) + if b.ToolUseBlock? then {b.id} else {}
    ensures ContentResults(content + [b]) == ContentResults(content) + if b.ToolResultBlock? then {b.toolUseId} else {}
  {
    assert (content + [b])[..|content|] == content;
  }

  lemma MessageIdsAppend(messages: seq<Message>, m: Message)
    ensures UseIds(messages + [m]) == UseIds(messages) + ContentUses(m.content)
    ensures ResultIds(messages + [m]) == ResultIds(messages) + ContentResults(m.content)
  {
    assert (messages + [m])[..|messages|] == messages;
  }

  lemma {:induction false} KeptBlocksAre(content: seq<Block>, ou: set<string>, or: set<string>)
    ensures SubContent(KeptBlocks(content, ou, or), content)
    ensures forall b | b in KeptBlocks(content, ou, or) :: KeepsBlock(b, ou, or)
  {
    if content != [] {
      var front, last := content[..|content| - 1], content[|content| - 1];
      KeptBlocksAre(front, ou, or);
      SubContentAppend(KeptBlocks(front, ou, or), front, last);
      assert content == front + [last];
    }
  }

  lemma NothingKept(ou: set<string>, or: set<string>)
    ensures KeptBlocks([], ou, or) == [] && ContentUses([]) == {} && ContentResults([]) == {}
    ensures CleanedMessages([], ou, or) == []
  {
  }

  lemma CleanedAppend(messages: seq<Message>, m: Message, ou: set<string>, or: set<string>)
    ensures var front, kept := CleanedMessages(messages, ou, or), KeptBlocks(m.content, ou, or);
            CleanedMessages(messages + [m], ou, or) == if kept == [] then front else front + [m.(content := kept)]
  {
    hide KeptBlocks;
    assert (messages + [m])[..|messages|] == messages;
  }

  lemma KeptAppend(content: seq<Block>, b: Block, ou: set<string>, or: set<string>)
    ensures KeptBlocks(content + [b], ou, or)
         == if KeepsBlock(b, ou, or) then KeptBlocks(content, ou, or) + [b] else KeptBlocks(content, ou, or)
  {
    assert (content + [b])[..|content|] == content;
  }

  lemma {:induction false} KeptIds(content: seq<Block>, ou: set<string>, or: set<string>)
    ensures ContentUses(KeptBlocks(content, ou, or)) == ContentUses(content) - ou
    ensures ContentResults(KeptBlocks(content, ou, or)) == ContentResults(content) - or
  {
    hide ContentUses, ContentResults, KeptBlocks;
    NothingKept(ou, or);
    if content != [] {
      var front, last := content[..|content| - 1], content[|content| - 1];
      assert content == front + [last];
      KeptIds(front, ou, or);
      KeptAppend(front, last, ou, or);
      IdsAppend(front, last);
      IdsAppend(KeptBlocks(front, ou, or), last);
    }
  }

  lemma {:induction false} CleanedMessagesAre(messages: seq<Message>, ou: set<string>, or: set<string>)
    ensures SubMessages(CleanedMessages(messages, ou, or), messages)
    ensures forall m | m in CleanedMessages(messages, ou, or) ::
              m.content != [] && forall b | b in m.content :: KeepsBlock(b, ou, or)
  {
    if messages != [] {
      var front, last := messages[..|messages| - 1], messages[|messages| - 1];
      var kept := KeptBlocks(last.content, ou, or);
      CleanedMessagesAre(front, ou, or);
      KeptBlocksAre(last.content, ou, or);
      SubMessagesAppend(CleanedMessages(front, ou, or), front, last.(content := kept), last);
      assert messages == front + [last];
    }
  }

  lemma {:induction false} CleanedIds(messages: seq<Message>, ou: set<string>, or: set<string>)
    ensures UseIds(CleanedMessages(messages, ou, or)) == UseIds(messages) - ou
    ensures ResultIds(CleanedMessages(messages, ou, or)) == ResultIds(messages) - or
  {
    if messages != [] {
      var front, last := messages[..|messages| - 1], messages[|messages| - 1];
      var kept := KeptBlocks(last.content, ou, or);
      CleanedIds(front, ou, or);
      KeptIds(last.content, ou, or);
      MessageIdsAppend(CleanedMessages(front, ou, or), last.(content := kept));
    }
  }

  lemma SanitizedIsClean(messages: seq<Message>, preserve: bool)
    ensures Clean(Sanitized(messages, preserve), preserve)
    ensures SubMessages(Sanitized(messages, preserve), messages)
  {
    CleanedMessagesAre(messages, OrphanUses(messages), OrphanResults(messages, preserve));
    CleanedIds(messages, OrphanUses(messages), OrphanResults(messages, preserve));
    var after := Sanitized(messages, preserve);
    assert UseIds(after) == UseIds(messages) * ResultIds(messages);
  }

  // ---- every clean sub-request is contained in the output ----

  lemma {:induction false} SubContentIds(a: seq<Block>, b: seq<Block>)
    requires SubContent(a, b)
    ensures ContentUses(a) <= ContentUses(b) && ContentResults(a) <= ContentResults(b)
  {
    if a != [] {
      if a[|a| - 1] == b[|b| - 1] && SubContent(a[..|a| - 1], b[..|b| - 1]) {
        SubContentIds(a[..|a| - 1], b[..|b| - 1]);
      } else {
        SubContentIds(a, b[..|b| - 1]);
      }
    }
  }

  lemma {:induction false} SubMessagesIds(a: seq<Message>, b: seq<Message>)
    requires SubMessages(a, b)
    ensures UseIds(a) <= UseIds(b) && ResultIds(a) <= ResultIds(b)
  {
    if a != [] {
      if SubMessage(a[|a| - 1], b[|b| - 1]) && SubMessages(a[..|a| - 1], b[..|b| - 1]) {
        SubMessagesIds(a[..|a| - 1], b[..|b| - 1]);
        SubContentIds(a[|a| - 1].content, b[|b| - 1].content);
      } else {
        SubMessagesIds(a, b[..|b| - 1]);
      }
    }
  }

  lemma {:induction false} KeptBlocksAreGreatest(a: seq<Block>, b: seq<Block>, ou: set<string>, or: set<string>)
    requires SubContent(a, b) && forall x | x in a :: KeepsBlock(x, ou, or)
    ensures SubContent(a, KeptBlocks(b, ou, or))
  {
    if a != [] {
      var front, last := b[..|b| - 1], b[|b| - 1];
      var kept := KeptBlocks(b, ou, or);
      assert KeepsBlock(last, ou, or) ==> kept[..|kept| - 1] == KeptBlocks(front, ou, or);
      if a[|a| - 1] == last && SubContent(a[..|a| - 1], front) {
        assert last in a;
        KeptBlocksAreGreatest(a[..|a| - 1], front, ou, or);
      } else {
        KeptBlocksAreGreatest(a, front, ou, or);
      }
    }
  }

  lemma {:induction false} CleanedMessagesAreGreatest(
      a: seq<Message>, b: seq<Message>, ou: set<string>, or: set<string>)
    requires SubMessages(a, b)
    requires forall m | m in a :: m.content != [] && forall x | x in m.content :: KeepsBlock(x, ou, or)
    ensures SubMessages(a, CleanedMessages(b, ou, or))
  {
    if a != [] {
      var front, last := b[..|b| - 1], b[|b| - 1];
      var cleaned := CleanedMessages(b, ou, or);
      var kept := KeptBlocks(last.content, ou, or);
      assert kept != [] ==> cleaned[..|cleaned| - 1] == CleanedMessages(front, ou, or);
      var top := a[|a| - 1];
      if SubMessage(top, last) && SubMessages(a[..|a| - 1], front) {
        assert top in a;
        KeptBlocksAreGreatest(top.content, last.content, ou, or);
        CleanedMessagesAreGreatest(a[..|a| - 1], front, ou, or);
        assert SubMessage(top, last.(content := kept));
      } else {
        CleanedMessagesAreGreatest(a, front, ou, or);
      }
    }
  }

  lemma {:induction false} BlockIds(messages: seq<Message>, m: Message, b: Block)
    requires m in messages && b in m.content
    ensures b.ToolUseBlock? ==> b.id in UseIds(messages)
    ensures b.ToolResultBlock? ==> b.toolUseId in ResultIds(messages)
  {
    var front, last := messages[..|messages| - 1], messages[|messages| - 1];
    assert messages == front + [last];
    if m in front { BlockIds(front, m, b); } else { ContentIds(m.content, b); }
  }

  lemma {:induction false} ContentIds(content: seq<Block>, b: Block)
    requires b in content
    ensures b.ToolUseBlock? ==> b.id in ContentUses(content)
    ensures b.ToolResultBlock? ==> b.toolUseId in ContentResults(content)
  {
    var front, last := content[..|content| - 1], content[|content| - 1];
    assert content == front + [last];
    if b in front { ContentIds(front, b); }
  }

  /** The output contains every clean sub-request. */
  lemma SanitizedIsGreatest(messages: seq<Message>, preserve: bool, sub: seq<Message>)
    requires SubMessages(sub, messages) && Clean(sub, preserve)
    ensures SubMessages(sub, Sanitized(messages, preserve))
  {
    var ou, or := OrphanUses(messages), OrphanResults(messages, preserve);
    SubMessagesIds(sub, messages);
    forall m, b | m in sub && b in m.content ensures KeepsBlock(b, ou, or) {
      BlockIds(sub, m, b);
    }
    CleanedMessagesAreGreatest(sub, messages, ou, or);
  }

  // ---- cleaning a clean request changes nothing ----

  lemma {:induction false} KeepsAll(messages: seq<Message>, ou: set<string>, or: set<string>)
    requires forall m | m in messages :: m.content != [] && forall b | b in m.content :: KeepsBlock(b, ou, or)
    ensures CleanedMessages(messages, ou, or) == messages
  {
    if messages != [] {
      var front, last := messages[..|messages| - 1], messages[|messages| - 1];
      KeepsAll(front, ou, or);
      KeepsAllBlocks(last.content, ou, or);
      assert messages == front + [last];
    }
  }

  lemma {:induction false} KeepsAllBlocks(content: seq<Block>, ou: set<string>, or: set<string>)
    requires forall b | b in content :: KeepsBlock(b, ou, or)
    ensures KeptBlocks(content, ou, or) == content
  {
    if content != [] {
      KeepsAllBlocks(content[..|content| - 1], ou, or);
      assert content == content[..|content| - 1] + [content[|content| - 1]];
    }
  }

  /** Exactly the clean requests are left as they are; in particular a second pass
      changes nothing. */
  lemma SanitizedFixesExactlyClean(messages: seq<Message>, preserve: bool)
    ensures Sanitized(messages, preserve) == messages <==> Clean(messages, preserve)
    ensures Sanitized(Sanitized(messages, preserve), preserve) == Sanitized(messages, preserve)
  {
    SanitizedIsClean(messages, preserve);
    CleanIsFixed(Sanitized(messages, preserve), preserve);
    if Clean(messages, preserve) { CleanIsFixed(messages, preserve); }
  }

  lemma CleanIsFixed(messages: seq<Message>, preserve: bool)
    requires Clean(messages, preserve)
    ensures Sanitized(messages, preserve) == messages
  {
    KeepsAll(messages, OrphanUses(messages), OrphanResults(messages, preserve));
  }
}
