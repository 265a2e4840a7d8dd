// The messages of a conversation, and when a transcript of them is balanced (provider.go, agent.go).
module Messages {

  datatype Role = System | User | Assistant | Tool

  datatype StopReason = StopEndTurn | StopToolUse | StopMaxTokens | StopRefusal | StopContextOverflow | StopPause | StopOther

  datatype ToolUse = ToolUse(id: string, name: string, input: string)

  /** What a tool result says: the output of a run, or why there was none. */
  datatype Body =
    | Output(text: string, failed: bool)
    | DeniedBy(reason: string)
    | NotStarted
    | Abandoned
    | CutShort(stop: StopReason)
    | Recorded
  {
    predicate IsError() { !Recorded? && (Output? ==> failed) }
  }

  datatype ToolResult = ToolResult(useID: string, name: string, body: Body)

  datatype Content = TextBlock(text: string) | UseBlock(use: ToolUse) | ResultBlock(res: ToolResult) | OtherBlock

  datatype Message = Message(role: Role, content: seq<Content>)

  function UserText(text: string): Message { Message(User, [TextBlock(text)]) }

  function UsesIn(content: seq<Content>): seq<ToolUse> {
    if content == [] then []
    else UsesIn(content[..|content| - 1]) + UseOf(content[|content| - 1])
  }

  function UseOf(c: Content): seq<ToolUse> { if c.UseBlock? then [c.use] else [] }

  /** Message.ToolUses. */
  function Uses(m: Message): seq<ToolUse> { UsesIn(m.content) }

  /** One tool message answering every use, one for one and in order. */
  ghost predicate Answers(m: Message, uses: seq<ToolUse>) {
    && m.role == Tool && |m.content| == |uses|
    && forall i :: 0 <= i < |uses| ==>
        m.content[i].ResultBlock? && m.content[i].res.useID == uses[i].id && m.content[i].res.name == uses[i].name
  }

  /** Uses are answered by the next message, and tool messages answer the message before. */
  ghost predicate Balanced(h: seq<Message>) {
    && (forall i :: 0 <= i < |h| && Uses(h[i]) != [] ==> i + 1 < |h| && Answers(h[i + 1], Uses(h[i])))
    && (forall i :: 0 <= i < |h| && h[i].role == Tool ==> i > 0 && Uses(h[i - 1]) != [] && Answers(h[i], Uses(h[i - 1])))
  }

  lemma ResultsAreNoUses(content: seq<Content>)
    requires forall i :: 0 <= i < |content| ==> content[i].ResultBlock?
    ensures UsesIn(content) == []
  {
    if content != [] { ResultsAreNoUses(content[..|content| - 1]); }
  }

  lemma BalancedPlain(h: seq<Message>, m: Message)
    requires Balanced(h) && Uses(m) == [] && m.role != Tool
    ensures Balanced(h + [m])
  {
    hide Uses, Answers;
    var g := h + [m];
    forall i | 0 <= i < |g| && Uses(g[i]) != [] ensures i + 1 < |g| && Answers(g[i + 1], Uses(g[i])) {
      assert g[i] == h[i] && g[i + 1] == h[i + 1];
    }
    forall i | 0 <= i < |g| && g[i].role == Tool ensures i > 0 && Uses(g[i - 1]) != [] && Answers(g[i], Uses(g[i - 1])) {
      assert g[i] == h[i] && g[i - 1] == h[i - 1];
    }
  }

  lemma BalancedPair(h: seq<Message>, m: Message, a: Message)
    requires Balanced(h) && Uses(m) != [] && m.role != Tool && Answers(a, Uses(m))
    ensures Balanced(h + [m] + [a])
  {
    ResultsAreNoUses(a.content);
    hide Uses;
    var g := h + [m] + [a];
    assert g[|h|] == m && g[|h| + 1] == a && Uses(a) == [];
    forall i | 0 <= i < |g| && Uses(g[i]) != [] ensures i + 1 < |g| && Answers(g[i + 1], Uses(g[i])) {
      if i < |h| { assert g[i] == h[i] && g[i + 1] == h[i + 1]; }
    }
    forall i | 0 <= i < |g| && g[i].role == Tool ensures i > 0 && Uses(g[i - 1]) != [] && Answers(g[i], Uses(g[i - 1])) {
      if i < |h| { assert g[i] == h[i] && g[i - 1] == h[i - 1]; }
    }
  }

  /** A cut in front of anything but a tool message keeps the balance. */
  lemma BalancedSuffix(h: seq<Message>, k: nat)
    requires Balanced(h) && k <= |h| && (k < |h| ==> h[k].role != Tool)
    ensures Balanced(h[k..])
  {
    hide Uses, Answers;
    var g := h[k..];
    forall i | 0 <= i < |g| && Uses(g[i]) != [] ensures i + 1 < |g| && Answers(g[i + 1], Uses(g[i])) {
      assert g[i] == h[k + i];
      assert Answers(h[k + i + 1], Uses(h[k + i]));
    }
    forall i | 0 <= i < |g| && g[i].role == Tool ensures i > 0 && Uses(g[i - 1]) != [] && Answers(g[i], Uses(g[i - 1])) {
      assert g[i] == h[k + i];
      assert Answers(h[k + i], Uses(h[k + i - 1]));
    }
  }

  /** A user turn in front of a balanced transcript. */
  lemma BalancedLed(m: Message, h: seq<Message>)
    requires Balanced(h) && Uses(m) == [] && m.role != Tool && (h != [] ==> h[0].role != Tool)
    ensures Balanced([m] + h)
  {
    hide Uses, Answers;
    var g := [m] + h;
    assert forall i :: 0 < i < |g| ==> g[i] == h[i - 1];
    forall i | 0 <= i < |g| && Uses(g[i]) != [] ensures i + 1 < |g| && Answers(g[i + 1], Uses(g[i])) {
      assert Answers(h[i], Uses(h[i - 1]));
    }
    forall i | 0 <= i < |g| && g[i].role == Tool ensures i > 0 && Uses(g[i - 1]) != [] && Answers(g[i], Uses(g[i - 1])) {
      assert h[i - 1].role == Tool;
      assert Answers(h[i - 1], Uses(h[i - 2]));
    }
  }
}
