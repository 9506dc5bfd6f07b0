/**
 What a reader of a compacted transcript finds in it (crates/compaction/src/compact.rs).
 */
module CompactedView {
  /**
   `Compact` proves that each pass computes a function. Here is what these functions leave on the
   page, said without them: which rounds are kept, which results are emptied, and what the digest
   says, in what order and in what words.
   */

  import opened Wrappers
  import opened Transcript
  import opened Grouping
  import opened Compact

  // ---------------------------------------------------------------- snip

  /**
   `snip` keeps at least the newest round; more only as many as asked for and within budget; and
   any larger number that was asked for would have been over it.
   */
  lemma SnipKeepsTheMostThatFits(cost: Estimator, msgs: seq<Message>, maxTokens: nat, keepRounds: nat)
    requires msgs != []
    ensures var g, kept := Group(msgs), Snipped(cost, msgs, maxTokens, keepRounds);
            var k := |Group(kept)|;
            && 1 <= k <= |g| && kept == Flatten(Newest(g, k))
            && (k > 1 ==> k <= keepRounds && Tokens(cost, kept) <= maxTokens)
            && forall j :: k < j <= |g| && j <= keepRounds ==> Tokens(cost, Flatten(Newest(g, j))) > maxTokens
  {
    var g, k := Group(msgs), SnipKeep(cost, msgs, maxTokens, keepRounds);
    SnipKeepIsBest(cost, msgs, maxTokens, keepRounds);
    SnipRegroups(cost, msgs, maxTokens, keepRounds);
    SuffixCostIsTokens(cost, g, k);
    hide Group, Flatten, Newest, SnipKeep, SuffixCost;
    forall j | k < j <= |g| && j <= keepRounds ensures Tokens(cost, Flatten(Newest(g, j))) > maxTokens {
      SuffixCostIsTokens(cost, g, j);
      assert !Fits(cost, g, maxTokens, j);
    }
  }

  // ---------------------------------------------------------------- micro-compaction

  /** The call at block `b` of message `k` is the last in the messages up to and including `i`. */
  ghost predicate IsLatestCall(msgs: seq<Message>, i: nat, k: nat, b: nat) {
    && k <= i < |msgs| && b < |msgs[k].content| && msgs[k].content[b].ToolUse?
    && (forall c :: b < c < |msgs[k].content| ==> !msgs[k].content[c].ToolUse?)
    && (forall m, c :: k < m <= i && 0 <= c < |msgs[m].content| ==> !msgs[m].content[c].ToolUse?)
  }

  ghost predicate LatestCallIsOf(msgs: seq<Message>, i: nat, tools: set<string>) {
    exists k: nat, b: nat :: IsLatestCall(msgs, i, k, b) && msgs[k].content[b].name in tools
  }

  lemma CompactableIff(tool: string)
    ensures tool in COMPACTABLE_TOOLS
       <==> tool in {"Read", "Bash", "Grep", "Glob", "WebSearch", "WebFetch", "Edit", "Write"}
  {
    assert COMPACTABLE_TOOLS[0] == "Read" && COMPACTABLE_TOOLS[1] == "Bash" && COMPACTABLE_TOOLS[2] == "Grep";
    assert COMPACTABLE_TOOLS[3] == "Glob" && COMPACTABLE_TOOLS[4] == "WebSearch" && COMPACTABLE_TOOLS[5] == "WebFetch";
    assert COMPACTABLE_TOOLS[6] == "Edit" && COMPACTABLE_TOOLS[7] == "Write";
  }

  lemma OneLatestCall(msgs: seq<Message>, i: nat, k: nat, b: nat, k': nat, b': nat)
    requires IsLatestCall(msgs, i, k, b) && IsLatestCall(msgs, i, k', b')
    ensures k == k' && b == b'
  {
    assert msgs[k].content[b].ToolUse? && msgs[k'].content[b'].ToolUse?;
  }

  lemma ToolSeenIff(msgs: seq<Message>, i: nat, tools: set<string>)
    requires i < |msgs|
    ensures LatestCallIsOf(msgs, i, tools) <==> ToolSeen(msgs, i + 1).Some? && ToolSeen(msgs, i + 1).value in tools
  {
    hide ToolSeen;
    ToolSeenIsLatestCall(msgs, i + 1);
    if AnyCall(msgs, i + 1) {
      var k: nat, b: nat :| IsLatestCall(msgs, i, k, b) && ToolSeen(msgs, i + 1).value == msgs[k].content[b].name;
      if LatestCallIsOf(msgs, i, tools) {
        var k': nat, b': nat :| IsLatestCall(msgs, i, k', b') && msgs[k'].content[b'].name in tools;
        OneLatestCall(msgs, i, k, b, k', b');
      }
    }
  }

  /**
   Block by block: in an old message a tool result is emptied, keeping its id, exactly when the
   latest call up to that message, its own blocks included, is of one of eight tools. Nothing
   else changes.
   */
  lemma AgedBlock(msgs: seq<Message>, n: nat, i: nat, b: nat)
    requires n <= |msgs| && i < |msgs| && b < |msgs[i].content|
    ensures var aged := Aged(msgs, n);
            && |aged| == |msgs| && aged[i].role == msgs[i].role && |aged[i].content| == |msgs[i].content|
            && aged[i].content[b]
               == if i < n && msgs[i].content[b].ToolResult?
                     && LatestCallIsOf(msgs, i, {"Read", "Bash", "Grep", "Glob",
                                                 "WebSearch", "WebFetch", "Edit", "Write"})
                  then ToolResult(msgs[i].content[b].toolUseId, "[Old tool result content cleared]", Some(false))
                  else msgs[i].content[b]
  {
    ToolSeenIff(msgs, i, {"Read", "Bash", "Grep", "Glob", "WebSearch", "WebFetch", "Edit", "Write"});
    hide ToolSeen, LatestCallIsOf;
    if ToolSeen(msgs, i + 1).Some? {
      CompactableIff(ToolSeen(msgs, i + 1).value);
    }
  }

  // ---------------------------------------------------------------- the digest

  /** The separator stands between the parts, which keep their order. */
  lemma {:induction false} JoinAppend(a: seq<string>, b: seq<string>)
    requires a != [] && b != []
    ensures Join(a + b) == Join(a) + " | " + Join(b)
  {
    assert (a + b)[1..] == a[1..] + b;
    if |a| == 1 {
      assert a + b == [a[0]] + b;
    } else {
      JoinAppend(a[1..], b);
      assert a[0] + " | " + (Join(a[1..]) + " | " + Join(b)) == a[0] + " | " + Join(a[1..]) + " | " + Join(b);
    }
  }

  lemma JoinOne(part: string)
    ensures Join([part]) == part && Join([]) == ""
  {
  }

  lemma {:induction false} PartsOfPrefix(msgs: seq<Message>, more: seq<Message>, n: nat)
    requires n <= |msgs|
    ensures Parts(msgs + more, n) == Parts(msgs, n)
  {
    if n > 0 {
      PartsOfPrefix(msgs, more, n - 1);
    }
  }

  /** The parts of a longer transcript are those of its beginning and then those of its end. */
  lemma {:induction false} PartsAppend(a: seq<Message>, b: seq<Message>, n: nat)
    requires n <= |b|
    ensures Parts(a + b, |a| + n) == Parts(a, |a|) + Parts(b, n)
  {
    if n == 0 {
      PartsOfPrefix(a, b, |a|);
    } else {
      PartsAppend(a, b, n - 1);
      assert (a + b)[|a| + n - 1] == b[n - 1];
      PartsOneMore(b, n - 1);
      PartsOneMore(a + b, |a| + n - 1);
      hide Parts, ContentParts;
      Associate(Parts(a, |a|), Parts(b, n - 1), ContentParts(b[n - 1].content, |b[n - 1].content|));
    }
  }

  lemma Associate<T>(a: seq<T>, b: seq<T>, c: seq<T>)
    ensures a + (b + c) == a + b + c
  {
  }

  lemma {:induction false} ContentPartsOfPrefix(content: seq<Block>, more: seq<Block>, n: nat)
    requires n <= |content|
    ensures ContentParts(content + more, n) == ContentParts(content, n)
  {
    if n > 0 {
      ContentPartsOfPrefix(content, more, n - 1);
    }
  }

  /** And so within a message: each further block adds its part at the end. */
  lemma ContentPartsSnoc(content: seq<Block>, block: Block)
    ensures ContentParts(content + [block], |content| + 1) == ContentParts(content, |content|) + BlockPart(block)
  {
    ContentPartsOfPrefix(content, [block], |content|);
  }

  /**
   What a block adds: a text of up to 200 bytes as it is; a longer one cut at the last character
   boundary within 200 bytes, with three dots; the name of a called tool; and otherwise nothing.
   */
  lemma WhatABlockAdds(block: Block)
    ensures block.Text? && |block.text| <= 200 ==> BlockPart(block) == [block.text]
    ensures block.Text? && |block.text| > 200 ==>
              exists cut: nat ::
                && cut <= 200 && IsCharBoundary(block.text, cut) && BlockPart(block) == [block.text[..cut] + "..."]
                && forall k :: cut < k <= 200 ==> !IsCharBoundary(block.text, k)
    ensures block.ToolUse? ==> BlockPart(block) == ["[tool: " + block.name + "]"]
    ensures !block.Text? && !block.ToolUse? ==> BlockPart(block) == []
  {
    if block.Text? && |block.text| > 200 {
      var cut := BoundaryAtOrBefore(block.text, 200);
      assert IsCharBoundary(block.text, cut);
    }
  }

  /** The two messages in front, word for word, and behind them the rounds that are kept. */
  lemma CollapsedReads(msgs: seq<Message>, keepRounds: nat)
    requires keepRounds < |Group(msgs)|
    ensures OldMessages(msgs, keepRounds) <= |msgs|
    ensures var g, old' := Group(msgs), OldMessages(msgs, keepRounds);
            && msgs[..old'] == FlattenFirst(g, |g| - keepRounds)
            && Collapsed(msgs, keepRounds)
               == [Message(User, [Text("[Earlier conversation collapsed for context]")]),
                   Message(User, [Text("[Summary of earlier conversation]: " + Join(Parts(msgs[..old'], old')))])]
                  + Flatten(Newest(g, keepRounds))
  {
    hide Flatten, FlattenFirst, WellCut, Newest, Group, Parts, Join;
    var g, n := Group(msgs), OldMessages(msgs, keepRounds);
    GroupWellCut(msgs);
    OldMessagesSplit(msgs, keepRounds);
    FlattenSplit(g, keepRounds);
    assert msgs[..n] + msgs[n..] == msgs;
    PartsOfPrefix(msgs[..n], msgs[n..], n);
  }

  /** The parts of a question, an answer with a call, and its result. */
  lemma ThreeParts(a: Message, b: Message, c: Message)
    requires a == Message(User, [Text("first")])
    requires b == Message(Assistant, [Text("second"), ToolUse("t1", "Read", "{}")])
    requires c == Message(User, [ToolResult("t1", "body", None)])
    ensures Parts([a, b, c], 3) == ["first", "second", "[tool: Read]"]
  {
    assert ContentParts(a.content, 1) == ContentParts(a.content, 0) + ["first"];
    assert ContentParts(b.content, 1) == ContentParts(b.content, 0) + ["second"];
    assert ContentParts(b.content, 2) == ContentParts(b.content, 1) + ["[tool: " + "Read" + "]"];
    assert ContentParts(c.content, 1) == ContentParts(c.content, 0) + [];
    hide ContentParts;
    assert Parts([a, b, c], 1) == Parts([a, b, c], 0) + ContentParts(a.content, 1);
    assert Parts([a, b, c], 2) == Parts([a, b, c], 1) + ContentParts(b.content, 2);
    assert Parts([a, b, c], 3) == Parts([a, b, c], 2) + ContentParts(c.content, 1);
    assert "[tool: " + "Read" + "]" == "[tool: Read]";
  }

  /** Together they are a digest. */
  lemma ADigest()
    ensures Join(Parts([Message(User, [Text("first")]),
                        Message(Assistant, [Text("second"), ToolUse("t1", "Read", "{}")]),
                        Message(User, [ToolResult("t1", "body", None)])], 3))
         == "first | second | [tool: Read]"
  {
    hide Parts, Join;
    ThreeParts(Message(User, [Text("first")]), Message(Assistant, [Text("second"), ToolUse("t1", "Read", "{}")]),
               Message(User, [ToolResult("t1", "body", None)]));
    JoinAppend(["first"], ["second", "[tool: Read]"]);
    JoinAppend(["second"], ["[tool: Read]"]);
    JoinOne("first");
    JoinOne("second");
    JoinOne("[tool: Read]");
    assert ["first"] + ["second", "[tool: Read]"] == ["first", "second", "[tool: Read]"];
    assert ["second"] + ["[tool: Read]"] == ["second", "[tool: Read]"];
  }
}
