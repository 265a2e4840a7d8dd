// Which tag calls of one conversation share an id: an id names the length of the transcript its request
// was made with, and the call's number in the response (provider/hermes/tags.go, turnOf and parseCall).
module CallIds {
  import opened Text
  import opened Messages
  import opened Sessions
  import opened Compaction
  import opened Observing
  import opened Budgets
  import Hermes
  import Agents

  /** The calls a response's text makes, its request holding the session's transcript. */
  function Asked(c: Hermes.Codec, s: SessionState, text: string): seq<ToolUse> { Hermes.Calls(c, text, |s.history|, 0) }

  /** Main result. Two calls of a conversation share an id exactly if their requests were made with
      transcripts of the same length and they have the same number in their responses. */
  lemma IdsMeetJustWhenLengthsMeet(c: Hermes.Codec, s: SessionState, text: string, k: nat, s': SessionState, text': string, k': nat)
    requires k < |Asked(c, s, text)| && k' < |Asked(c, s', text')|
    ensures Asked(c, s, text)[k].id == Asked(c, s', text')[k'].id <==> |s.history| == |s'.history| && k == k'
  {
    Hermes.IdTellsTurnAndNumber(c, text, |s.history|, k, text', |s'.history|, k');
  }

  /** So ids differ over any stretch of fewer than 2^64 operations, the reply's append first, in which
      nothing rewrites the transcript. */
  lemma {:induction false} IdsDifferUntilARewrite(
    c: Hermes.Codec, s: SessionState, text: string, k: nat, reply: Message, ops: seq<Op>, text': string, k': nat)
    requires s.rev < REV_WRAP
    requires CountRewrites(s, [Append([reply])] + ops) == 0
    requires var s' := ApplyOps(s, [Append([reply])] + ops); k < |Asked(c, s, text)| && k' < |Asked(c, s', text')|
    ensures var s' := ApplyOps(s, [Append([reply])] + ops); Asked(c, s, text)[k].id != Asked(c, s', text')[k'].id
  {
    hide Asked, ApplyOps, CountRewrites;
    var all := [Append([reply])] + ops;
    OpsEffect(s, all);
    AddedFirst([reply], ops);
    IdsMeetJustWhenLengthsMeet(c, s, text, k, ApplyOps(s, all), text', k');
  }

  lemma AddedFirst(msgs: seq<Message>, ops: seq<Op>)
    ensures Added([Append(msgs)] + ops) == msgs + Added(ops)
  {
    var all := [Append(msgs)] + ops;
    if ops == [] {
      assert all == [Append(msgs)] && all[..0] == [];
    } else {
      assert all[..|ops|] == [Append(msgs)] + ops[..|ops| - 1];
      AddedFirst(msgs, ops[..|ops| - 1]);
    }
  }

  // ----- within one run

  lemma StepGrows(cfg: Agents.Config, i: nat, l: Agents.Loop, turn: Agents.Turn)
    ensures var st := Agents.OneStep(cfg, i, l, turn); st.next.On? ==> |st.l.s.history| > |l.s.history|
  {
    hide Agents.React, Agents.Gate, Booked, BookedAll;
  }

  lemma StepsGrow(cfg: Agents.Config, l: Agents.Loop, turns: seq<Agents.Turn>, m: nat, n: nat)
    requires m < n <= |turns| && Agents.AtStep(cfg, l, turns, n).Some?
    ensures Agents.AtStep(cfg, l, turns, m).Some?
    ensures |Agents.AtStep(cfg, l, turns, m).value.s.history| < |Agents.AtStep(cfg, l, turns, n).value.s.history|
  {
    hide Agents.OneStep;
    StepGrows(cfg, n - 1, Agents.AtStep(cfg, l, turns, n - 1).value, turns[n - 1]);
    if m < n - 1 { StepsGrow(cfg, l, turns, m, n - 1); }
  }

  /** No two calls of one run share an id. */
  lemma IdsDifferWithinARun(
    c: Hermes.Codec, cfg: Agents.Config, l: Agents.Loop, turns: seq<Agents.Turn>, m: nat, n: nat, text: string, k: nat, text': string, k': nat)
    requires m <= n <= |turns| && Agents.AtStep(cfg, l, turns, m).Some? && Agents.AtStep(cfg, l, turns, n).Some?
    requires m == n ==> text == text' && k != k'
    requires k < |Asked(c, Agents.AtStep(cfg, l, turns, m).value.s, text)| && k' < |Asked(c, Agents.AtStep(cfg, l, turns, n).value.s, text')|
    ensures Asked(c, Agents.AtStep(cfg, l, turns, m).value.s, text)[k].id != Asked(c, Agents.AtStep(cfg, l, turns, n).value.s, text')[k'].id
  {
    hide Asked, Agents.AtStep;
    if m < n { StepsGrow(cfg, l, turns, m, n); }
    IdsMeetJustWhenLengthsMeet(c, Agents.AtStep(cfg, l, turns, m).value.s, text, k, Agents.AtStep(cfg, l, turns, n).value.s, text', k');
  }

  // ----- and across a trim

  function Call(w: Hermes.Wire, turn: nat): ToolUse { ToolUse(Hermes.CallId(turn, 0).Text(), w.name, w.input) }

  /** A question, one call, its result, and the reply. */
  function Round(use: ToolUse): seq<Message> {
    [UserText("question"), Message(Assistant, [UseBlock(use)]),
     Message(Tool, [ResultBlock(ToolResult(use.id, use.name, Output("result", false)))]), Message(Assistant, [TextBlock("reply")])]
  }

  function Holding(h: seq<Message>): SessionState { SessionState("id", "", 0, h, map[], NO_USAGE) }

  /** A text that is just one call makes that call, whatever the transcript. */
  lemma OneCall(c: Hermes.Codec, body: string, h: seq<Message>)
    requires c.decode(body).Some? && Index(body + c.close, c.close) == |body|
    ensures Asked(c, Holding(h), c.open + body + c.close) == [Call(c.decode(body).value, |h|)]
  {
    hide Index, Text.At, Hermes.Calls;
    var text, turn := c.open + body + c.close, |h|;
    assert text == c.open + (body + c.close);
    Hermes.OpenLeads(c, turn, 0, body + c.close);
    assert (body + c.close)[..|body|] == body && (body + c.close)[|body| + |c.close|..] == "";
    Hermes.NoOpenNoCalls(c, turn, 1, "");
  }

  /** Three rounds of the same one call, with the transcript trimmed to four messages after the second: the
      second round is still there when the third call gets the id of the second. */
  lemma IdComesBackAfterATrim(c: Hermes.Codec, body: string)
    requires c.decode(body).Some? && Index(body + c.close, c.close) == |body|
    ensures var text, w, q := c.open + body + c.close, c.decode(body).value, [UserText("question")];
      var kept := Trimmed(Holding(Round(Call(w, 1)) + Round(Call(w, 5))), 4).history;
      && Asked(c, Holding(q), text) == [Call(w, 1)]
      && Asked(c, Holding(Round(Call(w, 1)) + q), text) == [Call(w, 5)]
      && kept == Round(Call(w, 5)) && UseBlock(Call(w, 5)) in kept[1].content
      && Asked(c, Holding(kept + q), text) == [Call(w, 5)]
  {
    hide Asked, Call;
    var w, q := c.decode(body).value, [UserText("question")];
    var r1, r2 := Round(Call(w, 1)), Round(Call(w, 5));
    assert (r1 + r2)[4] == r2[0] && (r1 + r2)[4..] == r2;
    assert UserBoundary(r1 + r2, 4) == At(4);
    OneCall(c, body, q);
    OneCall(c, body, r1 + q);
    OneCall(c, body, r2 + q);
  }
}
