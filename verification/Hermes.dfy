// The tag scanner: tool calls taken out of text that arrives in arbitrary chunks
// (provider/hermes/stream.go), against the parser that sees the whole text (provider/hermes/tags.go).
module Hermes {
  import opened Text
  import opened Messages

  const MAX_BUFFERED_TAG: nat := 262144

  datatype TagPair = TagPair(open: string, close: string)

  /** '<' leads both tags and appears nowhere else in them, and they differ right after it. */
  predicate Distinct(t: TagPair) {
    && |t.open| > 1 && |t.close| > 1
    && t.open[0] == '<' && t.close[0] == '<' && t.open[1] != t.close[1]
    && (forall k :: 1 <= k < |t.open| ==> t.open[k] != '<')
    && (forall k :: 1 <= k < |t.close| ==> t.close[k] != '<')
  }

  const CALL_TAGS := TagPair("<tool_call>", "</tool_call>")

  /** The convention's own tags are such a pair; what follows holds of any. */
  type Tags = t: TagPair | Distinct(t) witness CALL_TAGS

  /** What a call body says once its JSON is decoded. */
  datatype Wire = Wire(name: string, input: string)

  /** A call's id: the turn it was made in and its number within the turn. */
  datatype CallId = CallId(turn: nat, idx: nat)
  {
    function Text(): string { "tag_" + Decimal(turn) + "_" + Decimal(idx) }
  }

  /** The tags and the foreign parts: JSON decoding of a call body, and white-space trimming. */
  datatype Codec = Codec(tags: Tags, decode: string -> Option<Wire>, trim: string -> string)
  {
    const open := tags.open
    const close := tags.close
  }

  function ParseCall(c: Codec, body: string, turn: nat, idx: nat): Option<ToolUse> {
    match c.decode(body)
    case None => None
    case Some(w) => Some(ToolUse(CallId(turn, idx).Text(), w.name, w.input))
  }

  // ----- the tags do not overlap

  lemma CloseNotInOpen(c: Codec, u: string, k: nat)
    ensures k < |c.open| ==> !At(c.open + u, c.close, k)
  {
    AtChar(c.open + u, c.close, k, 0);
    AtChar(c.open + u, c.close, k, 1);
  }

  /** No open tag starts inside what is left of a close tag, whatever follows. */
  lemma OpenNotInClose(c: Codec, k: nat, r: string, q: nat)
    requires k <= |c.close|
    ensures q < |c.close| - k ==> !At(c.close[k..] + r, c.open, q)
  {
    AtChar(c.close[k..] + r, c.open, q, 0);
    AtChar(c.close[k..] + r, c.open, q, 1);
  }

  /** No open tag starts in a body and runs into the close tag after it. */
  lemma OpenNotAcrossClose(c: Codec, b: string, r: string, q: nat)
    ensures q < |b| < q + |c.open| ==> !At(b + c.close + r, c.open, q)
  {
    AtChar(b + c.close + r, c.open, q, |b| - q);
  }

  // ----- the whole-text parser

  /** The calls in text met outside a call, numbered from n. */
  function Calls(c: Codec, text: string, turn: nat, n: nat): seq<ToolUse>
    decreases |text|
  {
    var i := Index(text, c.open);
    if i < 0 then [] else CallsInBody(c, text[i + |c.open|..], turn, n)
  }

  /** The calls in text met right after an open tag. */
  function CallsInBody(c: Codec, text: string, turn: nat, n: nat): seq<ToolUse>
    decreases |text|
  {
    var j := Index(text, c.close);
    if j < 0 then []
    else
      match ParseCall(c, text[..j], turn, n)
      case None => Calls(c, text[j + |c.close|..], turn, n)
      case Some(u) => [u] + Calls(c, text[j + |c.close|..], turn, n + 1)
  }

  /** Trimmed text becomes a block, unless nothing is left of it. */
  function AddText(c: Codec, out: seq<Content>, s: string): seq<Content> {
    if c.trim(s) == "" then out else out + [TextBlock(c.trim(s))]
  }

  /** Searching for the close tag from the open tag on finds the same place as searching after it. */
  lemma CloseAfterOpen(c: Codec, u: string)
    ensures Index(c.open + u, c.close) == if Index(u, c.close) < 0 then -1 else |c.open| + Index(u, c.close)
  {
    forall k | 0 <= k < |c.open| ensures !At(c.open + u, c.close, k) { CloseNotInOpen(c, u, k); }
    IndexSkip(c.open, u, c.close);
  }

  /** The ids of one turn's calls are numbered in order. */
  lemma {:induction false} CallsAreNumbered(c: Codec, text: string, turn: nat, n: nat, k: nat)
    requires k < |Calls(c, text, turn, n)|
    ensures Calls(c, text, turn, n)[k].id == CallId(turn, n + k).Text()
    decreases |text|
  {
    hide At, Index;
    var u := text[Index(text, c.open) + |c.open|..];
    var j := Index(u, c.close);
    var tail := u[j + |c.close|..];
    if ParseCall(c, u[..j], turn, n).None? {
      CallsAreNumbered(c, tail, turn, n, k);
    } else if k > 0 {
      CallsAreNumbered(c, tail, turn, n + 1, k - 1);
    }
  }

  lemma CallIdTextInjective(x: CallId, y: CallId)
    requires x.Text() == y.Text()
    ensures x == y
  {
    hide Decimal;
    var a, b, a', b' := Decimal(x.turn), Decimal(x.idx), Decimal(y.turn), Decimal(y.idx);
    Regroup("tag_", a, "_", b);
    Regroup("tag_", a', "_", b');
    assert ("tag_" + (a + "_" + b))[4..] == a + "_" + b && ("tag_" + (a' + "_" + b'))[4..] == a' + "_" + b';
    assert '_' !in a && '_' !in a';
    OneBar(a, b, a', b');
    DecimalInjective(x.turn, y.turn);
    DecimalInjective(x.idx, y.idx);
  }

  /** Where a text is cut at its first bar is determined. */
  lemma OneBar(a: string, b: string, a': string, b': string)
    requires a + "_" + b == a' + "_" + b' && '_' !in a && '_' !in a'
    ensures a == a' && b == b'
  {
    var s := a + "_" + b;
    assert s[|a|] == '_' && (a' + "_" + b')[|a'|] == '_';
    assert forall i :: 0 <= i < |a| ==> s[i] == a[i];
    assert forall i :: 0 <= i < |a'| ==> s[i] == a'[i];
    assert |a| == |a'|;
    assert a == s[..|a|] == a' && b == s[|a| + 1..] == b';
  }

  /** Two calls carry the same id exactly if they have the same turn and the same number in it. */
  lemma IdTellsTurnAndNumber(c: Codec, text: string, turn: nat, k: nat, text': string, turn': nat, k': nat)
    requires k < |Calls(c, text, turn, 0)| && k' < |Calls(c, text', turn', 0)|
    ensures Calls(c, text, turn, 0)[k].id == Calls(c, text', turn', 0)[k'].id <==> turn == turn' && k == k'
  {
    hide Calls;
    CallsAreNumbered(c, text, turn, 0, k);
    CallsAreNumbered(c, text', turn', 0, k');
    if CallId(turn, k).Text() == CallId(turn', k').Text() {
      CallIdTextInjective(CallId(turn, k), CallId(turn', k'));
    }
  }

  // ----- the scanner, as a function of its state

  datatype Scan = Scan(pending: string, inCall: bool, calls: nat)

  /** What the scanner decides about a stretch of text. */
  datatype Piece = Visible(text: string) | Call(body: string, use: ToolUse)

  datatype Emitted = Emitted(st: Scan, pieces: seq<Piece>)

  /** The suffix of s of length m could still grow into tag. */
  predicate Grows(s: string, tag: string, m: nat) { m <= |s| && s[|s| - m..] <= tag }

  function Longest(s: string, tag: string, m: nat): (n: nat)
    requires m <= |s|
    ensures n <= m && Grows(s, tag, n)
    ensures forall k :: n < k <= m ==> !Grows(s, tag, k)
  {
    if m == 0 || Grows(s, tag, m) then m else Longest(s, tag, m - 1)
  }

  /** The longest proper beginning of tag that s ends with. */
  function PartialTag(s: string, tag: string): (n: nat)
    requires |tag| > 0
    ensures n <= |s| && n < |tag| && Grows(s, tag, n)
    ensures forall k: nat :: n < k < |tag| ==> !Grows(s, tag, k)
  {
    Longest(s, tag, if |s| < |tag| - 1 then |s| else |tag| - 1)
  }

  function Before(ps: seq<Piece>, e: Emitted): Emitted {
    Emitted(e.st, ps + e.pieces)
  }

  /** One turn of the scanner's loop: it goes round again, or stops. */
  datatype Round = Again(piece: Piece, next: Scan) | Halt(out: Emitted)
  {
    function Made(): Emitted { if Again? then Emitted(next, [piece]) else out }
  }

  function Step(c: Codec, turn: nat, st: Scan, final: bool): (r: Round)
    ensures r.Again? ==> |r.next.pending| < |st.pending|
  {
    var buf := st.pending;
    if st.inCall then
      var j := Index(buf, c.close);
      if j < 0 then
        if |buf| > MAX_BUFFERED_TAG then Again(Visible(c.open + buf), Scan("", false, st.calls))
        else Halt(Emitted(st, []))
      else
        match ParseCall(c, buf[..j], turn, st.calls)
        case None => Again(Visible(c.open + buf[..j] + c.close), Scan(buf[j + |c.close|..], false, st.calls))
        case Some(u) => Again(Call(buf[..j], u), Scan(buf[j + |c.close|..], false, st.calls + 1))
    else
      var i := Index(buf, c.open);
      if i >= 0 then Again(Visible(buf[..i]), Scan(buf[i + |c.open|..], true, st.calls))
      else
        var keep := if final then 0 else PartialTag(buf, c.open);
        if keep >= |buf| then Halt(Emitted(st, []))
        else Halt(Emitted(st.(pending := buf[|buf| - keep..]), [Visible(buf[..|buf| - keep])]))
  }

  function Drained(c: Codec, turn: nat, st: Scan, final: bool): Emitted
    decreases |st.pending|
  {
    match Step(c, turn, st, final)
    case Again(p, st') => Before([p], Drained(c, turn, st', final))
    case Halt(e) => e
  }

  function Fed(c: Codec, turn: nat, st: Scan, chunk: string): Emitted {
    if chunk == "" then Emitted(st, []) else Drained(c, turn, st.(pending := st.pending + chunk), false)
  }

  function Finished(c: Codec, turn: nat, st: Scan): Emitted {
    var d := Drained(c, turn, st, true);
    Emitted(Scan("", false, d.st.calls), d.pieces + [Visible(Residue(c, d.st))])
  }

  /** A whole stream: every chunk fed, then the end. */
  function Streamed(c: Codec, turn: nat, st: Scan, chunks: seq<string>): Emitted
    decreases |chunks|
  {
    if chunks == [] then Finished(c, turn, st)
    else
      var e := Fed(c, turn, st, chunks[0]);
      Before(e.pieces, Streamed(c, turn, e.st, chunks[1..]))
  }

  const START := Scan("", false, 0)

  // ----- nothing is lost, whatever the text and its chunks

  /** The text the scanner has taken in and not yet decided about. */
  function Residue(c: Codec, st: Scan): string { (if st.inCall then c.open else "") + st.pending }

  /** Pieces written back: text as it stands, each parsed call as open tag, body and close tag. */
  function WrittenBack(c: Codec, ps: seq<Piece>): string {
    if ps == [] then ""
    else Raw(c, ps[0]) + WrittenBack(c, ps[1..])
  }

  function Raw(c: Codec, p: Piece): string {
    match p
    case Visible(t) => t
    case Call(b, _) => c.open + b + c.close
  }

  lemma {:induction false} WrittenBackAppend(c: Codec, ps: seq<Piece>, qs: seq<Piece>)
    ensures WrittenBack(c, ps + qs) == WrittenBack(c, ps) + WrittenBack(c, qs)
  {
    hide Raw;
    if ps == [] {
      assert ps + qs == qs;
    } else {
      WrittenBackAppend(c, ps[1..], qs);
      assert (ps + qs)[1..] == ps[1..] + qs;
      Associate(Raw(c, ps[0]), WrittenBack(c, ps[1..]), WrittenBack(c, qs));
    }
  }

  lemma OnePiece(c: Codec, p: Piece)
    ensures WrittenBack(c, [p]) == Raw(c, p) && WrittenBack(c, []) == ""
  {
    assert [p][1..] == [] && Raw(c, p) + "" == Raw(c, p);
  }

  lemma NoPiece(c: Codec, t: string)
    ensures WrittenBack(c, []) + t == t
  {
  }

  lemma CloseConserves(c: Codec, turn: nat, st: Scan, final: bool)
    requires st.inCall && Index(st.pending, c.close) >= 0
    ensures var e := Step(c, turn, st, final).Made(); WrittenBack(c, e.pieces) + Residue(c, e.st) == Residue(c, st)
  {
    hide At, Index, WrittenBack, ParseCall;
    var j := Index(st.pending, c.close);
    AtSplit(st.pending, c.close, j);
    var body, tail := st.pending[..j], st.pending[j + |c.close|..];
    var p := if ParseCall(c, body, turn, st.calls).None? then Visible(c.open + body + c.close) else Call(body, ParseCall(c, body, turn, st.calls).value);
    var next := Scan(tail, false, if p.Call? then st.calls + 1 else st.calls);
    assert Step(c, turn, st, final).Made() == Emitted(next, [p]);
    hide Step;
    OnePiece(c, p);
    Regroup(c.open, body, c.close, tail);
  }

  lemma TextConserves(c: Codec, turn: nat, st: Scan, final: bool)
    requires !st.inCall || Index(st.pending, c.close) < 0
    ensures var e := Step(c, turn, st, final).Made(); WrittenBack(c, e.pieces) + Residue(c, e.st) == Residue(c, st)
  {
    hide At, Index, PartialTag, WrittenBack, ParseCall;
    var buf, e := st.pending, Step(c, turn, st, final).Made();
    NoPiece(c, Residue(c, e.st));
    if !st.inCall && Index(buf, c.open) >= 0 {
      AtSplit(buf, c.open, Index(buf, c.open));
      OnePiece(c, Visible(buf[..Index(buf, c.open)]));
      Associate(buf[..Index(buf, c.open)], c.open, buf[Index(buf, c.open) + |c.open|..]);
    } else if e.pieces != [] {
      OnePiece(c, e.pieces[0]);
    }
  }

  lemma StepConserves(c: Codec, turn: nat, st: Scan, final: bool)
    ensures var e := Step(c, turn, st, final).Made(); WrittenBack(c, e.pieces) + Residue(c, e.st) == Residue(c, st)
  {
    hide *;
    if st.inCall && Index(st.pending, c.close) >= 0 { CloseConserves(c, turn, st, final); }
    else { TextConserves(c, turn, st, final); }
  }

  lemma DrainConserves(c: Codec, turn: nat, st: Scan, final: bool)
    ensures var d := Drained(c, turn, st, final); WrittenBack(c, d.pieces) + Residue(c, d.st) == Residue(c, st)
    decreases |st.pending|
  {
    hide Step, Residue;
    StepConserves(c, turn, st, final);
    match Step(c, turn, st, final)
    case Again(p, st') =>
      DrainConserves(c, turn, st', final);
      WrittenBackAppend(c, [p], Drained(c, turn, st', final).pieces);
    case Halt(e) =>
  }

  lemma FeedConserves(c: Codec, turn: nat, st: Scan, chunk: string)
    ensures var e := Fed(c, turn, st, chunk); WrittenBack(c, e.pieces) + Residue(c, e.st) == Residue(c, st) + chunk
  {
    hide Drained;
    var fed := st.(pending := st.pending + chunk);
    assert Residue(c, fed) == Residue(c, st) + chunk;
    DrainConserves(c, turn, fed, false);
  }

  /** Whatever the text and however it is cut, writing the pieces back gives just what was fed. */
  lemma {:induction false} StreamConserves(c: Codec, turn: nat, st: Scan, chunks: seq<string>)
    ensures WrittenBack(c, Streamed(c, turn, st, chunks).pieces) == Residue(c, st) + Concat(chunks)
    decreases |chunks|
  {
    hide Drained, Fed, Residue;
    if chunks == [] {
      var d := Drained(c, turn, st, true);
      DrainConserves(c, turn, st, true);
      WrittenBackAppend(c, d.pieces, [Visible(Residue(c, d.st))]);
      var last := Visible(Residue(c, d.st));
      assert [last][1..] == [] && WrittenBack(c, [last]) == Residue(c, d.st) + "" == Residue(c, d.st);
      assert Residue(c, st) + Concat(chunks) == Residue(c, st);
    } else {
      var e := Fed(c, turn, st, chunks[0]);
      FeedConserves(c, turn, st, chunks[0]);
      StreamConserves(c, turn, e.st, chunks[1..]);
      var rest := Streamed(c, turn, e.st, chunks[1..]).pieces;
      WrittenBackAppend(c, e.pieces, rest);
      Associate(WrittenBack(c, e.pieces), Residue(c, e.st), Concat(chunks[1..]));
      Associate(Residue(c, st), chunks[0], Concat(chunks[1..]));
    }
  }

  // ----- the calls streamed are the calls of the whole text, exactly when no body outgrows the buffer

  function Uses(ps: seq<Piece>): seq<ToolUse> {
    if ps == [] then [] else (if ps[0].Call? then [ps[0].use] else []) + Uses(ps[1..])
  }

  lemma UsesAppend(ps: seq<Piece>, qs: seq<Piece>)
    ensures Uses(ps + qs) == Uses(ps) + Uses(qs)
  {
    if ps == [] {
      assert ps + qs == qs;
    } else {
      var first := if ps[0].Call? then [ps[0].use] else [];
      assert (ps + qs)[1..] == ps[1..] + qs;
      UsesAppend(ps[1..], qs);
      assert Uses(ps + qs) == first + (Uses(ps[1..]) + Uses(qs));
    }
  }

  // ----- the whole-text parser, as it builds the content

  /** The text taken apart: each parsed call, and the stretches between, a body that is no call with what
      leads up to it. */
  function Parts(c: Codec, text: string, turn: nat, n: nat): seq<Piece>
    decreases |text|
  {
    var i := Index(text, c.open);
    if i < 0 then [Visible(text)]
    else
      var u := text[i + |c.open|..];
      var j := Index(u, c.close);
      if j < 0 then [Visible(text)]
      else
        match ParseCall(c, u[..j], turn, n)
        case None => [Visible(text[..i + |c.open| + j + |c.close|])] + Parts(c, u[j + |c.close|..], turn, n)
        case Some(use) => [Visible(text[..i]), Call(u[..j], use)] + Parts(c, u[j + |c.close|..], turn, n + 1)
  }

  /** What is shown of the parts: trimmed text, and the calls. */
  function Shown(c: Codec, ps: seq<Piece>): seq<Content> {
    if ps == [] then []
    else
      var out := Shown(c, ps[..|ps| - 1]);
      match ps[|ps| - 1]
      case Visible(t) => AddText(c, out, t)
      case Call(_, use) => out + [UseBlock(use)]
  }

  /** The parts make up the text, and their calls are its calls. */
  lemma {:induction false} PartsAreTheText(c: Codec, text: string, turn: nat, n: nat)
    ensures WrittenBack(c, Parts(c, text, turn, n)) == text
    ensures Uses(Parts(c, text, turn, n)) == Calls(c, text, turn, n)
    decreases |text|
  {
    hide At, Index, WrittenBack, Uses, ParseCall;
    var i := Index(text, c.open);
    OnlyPart(c, Visible(text));
    if i >= 0 {
      AtSplit(text, c.open, i);
      var u := text[i + |c.open|..];
      var j := Index(u, c.close);
      if j >= 0 {
        AtSplit(u, c.close, j);
        var body, tail := u[..j], u[j + |c.close|..];
        var p := ParseCall(c, body, turn, n);
        PartsAreTheText(c, tail, turn, if p.None? then n else n + 1);
        var m := i + |c.open| + j + |c.close|;
        CutOut(text, text[..i], c.open, u, body, c.close, tail);
        var first := if p.None? then [Visible(text[..m])] else [Visible(text[..i]), Piece.Call(body, p.value)];
        FirstParts(c, text[..i], text[..m], body, p);
        var rest := Parts(c, tail, turn, if p.None? then n else n + 1);
        WrittenBackAppend(c, first, rest);
        UsesAppend(first, rest);
      }
    }
  }

  lemma CutOut(text: string, head: string, open: string, u: string, body: string, close: string, tail: string)
    requires text == head + open + u && u == body + close + tail
    ensures var m := |head| + |open| + |body| + |close|;
      m <= |text| && text[..m] == head + (open + body + close) && text == text[..m] + tail
  {
    var m := |head| + |open| + |body| + |close|;
    assert text == (head + (open + body + close)) + tail;
  }

  lemma OnlyPart(c: Codec, p: Piece)
    ensures WrittenBack(c, [p]) == Raw(c, p) && Uses([p]) == if p.Call? then [p.use] else []
  {
    OnePiece(c, p);
    assert [p][1..] == [];
  }

  lemma FirstParts(c: Codec, head: string, all: string, body: string, p: Option<ToolUse>)
    requires all == head + (c.open + body + c.close)
    ensures var first := if p.None? then [Visible(all)] else [Visible(head), Piece.Call(body, p.value)];
      WrittenBack(c, first) == all && Uses(first) == if p.None? then [] else [p.value]
  {
    hide WrittenBack, Uses;
    OnlyPart(c, Visible(all));
    if p.Some? {
      var call := Piece.Call(body, p.value);
      OnlyPart(c, Visible(head));
      OnlyPart(c, call);
      WrittenBackAppend(c, [Visible(head)], [call]);
      UsesAppend([Visible(head)], [call]);
      assert [Visible(head)] + [call] == [Visible(head), call];
    }
  }

  lemma ShownMore(c: Codec, ps: seq<Piece>, p: Piece)
    ensures p.Visible? ==> Shown(c, ps + [p]) == if c.trim(p.text) == "" then Shown(c, ps) else Shown(c, ps) + [TextBlock(c.trim(p.text))]
    ensures p.Call? ==> Shown(c, ps + [p]) == Shown(c, ps) + [UseBlock(p.use)]
  {
    assert (ps + [p])[..|ps|] == ps;
  }

  /** Trimming and leaving out blank text loses no call. */
  lemma ShownKeepsUses(c: Codec, ps: seq<Piece>)
    ensures UsesIn(Shown(c, ps)) == Uses(ps)
  {
    hide Uses;
    if ps == [] {
      assert Uses([]) == [] by { UsesNone(); }
    } else {
      var front, p := ps[..|ps| - 1], ps[|ps| - 1];
      ShownKeepsUses(c, front);
      UsesAppend(front, [p]);
      OnlyPart(c, p);
      assert ps == front + [p];
      var out := Shown(c, front);
      var added := if p.Call? then [UseBlock(p.use)] else if c.trim(p.text) == "" then [] else [TextBlock(c.trim(p.text))];
      assert Shown(c, ps) == out + added;
      if added == [] {
        assert out + added == out && Uses(front) + [] == Uses(front);
      } else {
        assert (out + added)[..|out|] == out;
      }
    }
  }

  lemma UsesNone()
    ensures Uses([]) == []
  {
  }

  /** One turn of the loop below: the body between the first open tag and the close tag after it. */
  lemma BodyFound(c: Codec, rest: string, turn: nat, n: nat, i: nat, j: int)
    requires i == Index(rest, c.open) && j == Index(rest[i..], c.close)
    ensures j < 0 ==> Parts(c, rest, turn, n) == [Visible(rest)]
    ensures j >= 0 ==> |c.open| <= j && i + j + |c.close| <= |rest|
    ensures j >= 0 ==>
      var body, tail := rest[i + |c.open|..i + j], rest[i + j + |c.close|..];
      var p := ParseCall(c, body, turn, n);
      Parts(c, rest, turn, n) ==
        if p.None? then [Visible(rest[..i + j + |c.close|])] + Parts(c, tail, turn, n)
        else [Visible(rest[..i]), Piece.Call(body, p.value)] + Parts(c, tail, turn, n + 1)
  {
    hide At, Index, ParseCall;
    AtSplit(rest, c.open, i);
    var u := rest[i + |c.open|..];
    CloseAfterOpen(c, u);
    if j >= 0 { SliceTwice(rest, i, |c.open|, j, |c.close|); }
  }

  lemma SliceTwice(s: string, i: nat, open: nat, j: nat, close: nat)
    requires open <= j && i + j + close <= |s|
    ensures var u := s[i + open..];
      && s[i + open..i + j] == u[..j - open] && s[i + j + close..] == u[j - open + close..]
      && s[..i + open + (j - open) + close] == s[..i + j + close]
  {
  }

  /** Nothing of the text is lost but white space: the content shows the calls, and trimmed the stretches
      between them. */
  method ParseCalls(c: Codec, text: string, turn: nat) returns (out: seq<Content>, n: nat)
    ensures out == Shown(c, Parts(c, text, turn, 0))
    ensures WrittenBack(c, Parts(c, text, turn, 0)) == text
    ensures UsesIn(out) == Calls(c, text, turn, 0) && n == |Calls(c, text, turn, 0)|
  {
    hide At, Index, Calls, ParseCall, Parts, Shown, WrittenBack, Uses, UsesIn;
    out, n := [], 0;
    var rest := text;
    ghost var all, done: seq<Piece> := Parts(c, text, turn, 0), [];
    NothingShown(c);
    while true
      invariant done + Parts(c, rest, turn, n) == all
      invariant out == Shown(c, done) && n == |Uses(done)|
      decreases |rest|
    {
      var i := Index(rest, c.open);
      if i < 0 { break; }
      var j := Index(rest[i..], c.close);
      BodyFound(c, rest, turn, n, i, j);
      if j < 0 { break; }
      var body := rest[i + |c.open|..i + j];
      match ParseCall(c, body, turn, n) {
        case None =>
          ShownMore(c, done, Visible(rest[..i + j + |c.close|]));
          OnlyPart(c, Visible(rest[..i + j + |c.close|]));
          UsesAppend(done, [Visible(rest[..i + j + |c.close|])]);
          out := AddText(c, out, rest[..i + j + |c.close|]);
          done := done + [Visible(rest[..i + j + |c.close|])];
        case Some(use) =>
          ShownMore(c, done, Visible(rest[..i]));
          ShownMore(c, done + [Visible(rest[..i])], Piece.Call(body, use));
          OnlyPart(c, Visible(rest[..i]));
          OnlyPart(c, Piece.Call(body, use));
          UsesAppend(done, [Visible(rest[..i])]);
          UsesAppend(done + [Visible(rest[..i])], [Piece.Call(body, use)]);
          out := AddText(c, out, rest[..i]);
          out := out + [UseBlock(use)];
          done := done + [Visible(rest[..i])] + [Piece.Call(body, use)];
          n := n + 1;
      }
      rest := rest[i + j + |c.close|..];
    }
    LastPart(c, rest, turn, n);
    ShownMore(c, done, Visible(rest));
    OnlyPart(c, Visible(rest));
    UsesAppend(done, [Visible(rest)]);
    out := AddText(c, out, rest);
    PartsAreTheText(c, text, turn, 0);
    ShownKeepsUses(c, all);
  }

  lemma NothingShown(c: Codec)
    ensures Shown(c, []) == [] && Uses([]) == []
  {
  }

  lemma LastPart(c: Codec, rest: string, turn: nat, n: nat)
    ensures Index(rest, c.open) < 0 ==> Parts(c, rest, turn, n) == [Visible(rest)]
  {
    hide Index;
  }

  /** A body the scanner can be made to give up on must be no call, nor end in one that opens past the limit. */
  ghost predicate BodyFits(c: Codec, body: string) {
    if c.decode(body).Some? then |body| + |c.close| - 1 <= MAX_BUFFERED_TAG
    else forall q: nat :: q > MAX_BUFFERED_TAG && At(body, c.open, q) ==> !LateCall(c, body, q)
  }

  /** What follows the open tag at q would be read as a call. */
  predicate LateCall(c: Codec, body: string, q: nat) {
    q + |c.open| <= |body| && c.decode(body[q + |c.open|..]).Some?
  }

  ghost predicate Fits(c: Codec, text: string)
    decreases |text|
  {
    var i := Index(text, c.open);
    i < 0 || FitsInBody(c, text[i + |c.open|..])
  }

  ghost predicate FitsInBody(c: Codec, text: string)
    decreases |text|
  {
    var j := Index(text, c.close);
    j < 0 || (BodyFits(c, text[..j]) && Fits(c, text[j + |c.close|..]))
  }

  /** An open tag at the front opens a body. */
  lemma OpenLeads(c: Codec, turn: nat, n: nat, u: string)
    ensures Calls(c, c.open + u, turn, n) == CallsInBody(c, u, turn, n)
    ensures Fits(c, c.open + u) == FitsInBody(c, u)
  {
    assert At(c.open + u, c.open, 0);
    assert (c.open + u)[|c.open|..] == u;
  }

  /** A prefix in which no open tag starts changes nothing. */
  lemma SkipText(c: Codec, turn: nat, n: nat, u: string, v: string)
    requires forall k :: 0 <= k < |u| ==> !At(u + v, c.open, k)
    ensures Calls(c, u + v, turn, n) == Calls(c, v, turn, n)
    ensures Fits(c, u + v) == Fits(c, v)
  {
    hide At, Index;
    IndexSkip(u, v, c.open);
    var i := Index(v, c.open);
    if i >= 0 { assert (u + v)[|u| + i + |c.open|..] == v[i + |c.open|..]; }
  }

  /** A body closed at j, read off buf ++ t. */
  lemma ClosedBody(c: Codec, buf: string, t: string)
    requires Index(buf, c.close) >= 0
    ensures var j := Index(buf, c.close);
      Index(buf + t, c.close) == j && (buf + t)[..j] == buf[..j] && (buf + t)[j + |c.close|..] == buf[j + |c.close|..] + t
  {
    IndexGrow(buf, t, c.close);
  }

  /** What may still be an open tag is kept; the rest of the text starts none. */
  lemma KeepIsEnough(c: Codec, buf: string, t: string)
    requires Index(buf, c.open) < 0
    ensures forall k :: 0 <= k < |buf| - PartialTag(buf, c.open) ==> !At(buf + t, c.open, k)
  {
    var keep := PartialTag(buf, c.open);
    forall k | 0 <= k < |buf| - keep ensures !At(buf + t, c.open, k) {
      AtPrefix(buf, t, c.open, k);
      var m := |buf| - k;
      assert At(buf + t, c.open, k) && m < |c.open| ==> Grows(buf, c.open, m) by {
        assert buf[|buf| - m..] == buf[k..];
        forall i | 0 <= i < m && i < |c.open| ensures At(buf + t, c.open, k) ==> buf[k..][i] == c.open[i] {
          AtChar(buf + t, c.open, k, i);
        }
      }
    }
  }

  /** Text that starts inside what is left of a close tag, or in a body that holds no late call, holds the same calls as what follows. */
  lemma AfterGivingUp(c: Codec, turn: nat, n: nat, buf: string, t: string)
    requires |buf| > MAX_BUFFERED_TAG && Index(buf, c.close) < 0
    requires FitsInBody(c, buf + t)
    ensures CallsInBody(c, buf + t, turn, n) == Calls(c, t, turn, n) && Fits(c, t)
  {
    hide At, Index;
    var j := Index(buf + t, c.close);
    if j < 0 {
      NoCloseNoCalls(c, turn, n, buf, t);
    } else {
      AtPrefix(buf, t, c.close, j);
      AtSplit(buf + t, c.close, j);
      var b, r := (buf + t)[..j], (buf + t)[j + |c.close|..];
      assert buf + t == b + c.close + r;
      assert c.decode(b).None?;
      if |buf| <= j {
        assert t == b[|buf|..] + c.close + r by { assert t == (buf + t)[|buf|..] == (b + c.close + r)[|buf|..]; }
        StrayBody(c, turn, n, b, |buf|, r);
      } else {
        var k := |buf| - j;
        assert t == c.close[k..] + r by { assert t == (buf + t)[|buf|..] == (b + c.close + r)[|buf|..]; }
        forall q | 0 <= q < |c.close[k..]| ensures !At(c.close[k..] + r, c.open, q) { OpenNotInClose(c, k, r, q); }
        SkipText(c, turn, n, c.close[k..], r);
      }
    }
  }

  lemma NoCloseNoCalls(c: Codec, turn: nat, n: nat, buf: string, t: string)
    requires Index(buf + t, c.close) < 0
    ensures Calls(c, t, turn, n) == [] && Fits(c, t)
  {
    hide At, Index;
    var i := Index(t, c.open);
    if i >= 0 {
      var u := t[i + |c.open|..];
      var j := Index(u, c.close);
      if j >= 0 {
        assert t == t[..i + |c.open|] + u;
        AtShift(t[..i + |c.open|], u, c.close, j);
        AtShift(buf, t, c.close, i + |c.open| + j);
      }
    }
  }

  /** What a body holds after a late open tag is no call, and holds no late call either. */
  lemma LateTailFits(c: Codec, b: string, q: nat)
    requires c.decode(b).None? && BodyFits(c, b) && q > MAX_BUFFERED_TAG && At(b, c.open, q)
    ensures c.decode(b[q + |c.open|..]).None? && BodyFits(c, b[q + |c.open|..])
  {
    var a, b' := b[..q + |c.open|], b[q + |c.open|..];
    assert b == a + b';
    assert !LateCall(c, b, q);
    forall k: nat | k > MAX_BUFFERED_TAG && At(b', c.open, k) ensures !LateCall(c, b', k) {
      AtShift(a, b', c.open, k);
      assert !LateCall(c, b, |a| + k);
      assert b[|a| + k + |c.open|..] == b'[k + |c.open|..];
    }
  }

  /** Reading on from the middle of a body that is no call. */
  lemma StrayBody(c: Codec, turn: nat, n: nat, b: string, p: nat, r: string)
    requires MAX_BUFFERED_TAG < p <= |b| && c.decode(b).None? && BodyFits(c, b)
    requires Index(b + c.close + r, c.close) == |b| && Fits(c, r)
    ensures Calls(c, b[p..] + c.close + r, turn, n) == Calls(c, r, turn, n)
    ensures Fits(c, b[p..] + c.close + r)
  {
    hide At, Index;
    var s := b[p..] + c.close + r;
    assert b[..p] + s == b + c.close + r;
    var i := Index(s, c.open);
    if 0 <= i < |b| - p {
      var q := p + i;
      AtShift(b[..p], s, c.open, i);
      OpenNotAcrossClose(c, b, r, q);
      assert b + c.close + r == b + (c.close + r);
      AtPrefix(b, c.close + r, c.open, q);
      var b' := b[q + |c.open|..];
      assert s[i + |c.open|..] == b' + c.close + r;
      assert b + c.close + r == b[..q + |c.open|] + (b' + c.close + r);
      CloseEndsTail(c, b[..q + |c.open|], b', r);
      assert (b' + c.close + r)[..|b'|] == b' && (b' + c.close + r)[|b'| + |c.close|..] == r;
      LateTailFits(c, b, q);
    } else {
      var u := b[p..] + c.close;
      assert s == u + r;
      forall k | 0 <= k < |u| ensures !At(u + r, c.open, k) {
        if k >= |b| - p {
          assert u + r == b[p..] + (c.close[0..] + r);
          AtShift(b[p..], c.close[0..] + r, c.open, k - (|b| - p));
          OpenNotInClose(c, 0, r, k - (|b| - p));
        }
      }
      SkipText(c, turn, n, u, r);
    }
  }

  lemma CloseEndsTail(c: Codec, a: string, b: string, r: string)
    requires Index(a + (b + c.close + r), c.close) == |a| + |b|
    ensures Index(b + c.close + r, c.close) == |b|
  {
    var j := Index(b + c.close + r, c.close);
    assert (b + c.close + r)[|b|..|b| + |c.close|] == c.close;
    assert At(b + c.close + r, c.close, |b|);
    AtShift(a, b + c.close + r, c.close, j);
  }

  /** What a body holds once its close tag is found. */
  lemma CloseSettles(c: Codec, turn: nat, n: nat, buf: string, t: string)
    requires Index(buf, c.close) >= 0
    ensures FitsInBody(c, buf + t) ==> Fits(c, buf[Index(buf, c.close) + |c.close|..] + t)
    ensures var j := Index(buf, c.close);
      var tail := buf[j + |c.close|..] + t;
      var p := ParseCall(c, buf[..j], turn, n);
      CallsInBody(c, buf + t, turn, n) == if p.None? then Calls(c, tail, turn, n) else [p.value] + Calls(c, tail, turn, n + 1)
  {
    hide At, Index, Calls, Fits;
    ClosedBody(c, buf, t);
  }

  /** Going from st to st', with the text t yet to come, emits just the calls it takes out of the text. */
  ghost predicate KeepsCalls(c: Codec, turn: nat, st: Scan, ps: seq<Piece>, st': Scan, t: string) {
    var before, after := Residue(c, st) + t, Residue(c, st') + t;
    && Calls(c, before, turn, st.calls) == Uses(ps) + Calls(c, after, turn, st'.calls)
    && (Fits(c, before) ==> Fits(c, after))
  }

  lemma LastStepKeepsCalls(c: Codec, turn: nat, st: Scan)
    requires !st.inCall && Index(st.pending, c.open) < 0
    ensures var e := Step(c, turn, st, true).Made(); KeepsCalls(c, turn, st, e.pieces, e.st, "")
  {
    hide Index, Calls, Fits;
    var buf, n := st.pending, st.calls;
    assert buf[|buf|..] == "" && buf[..|buf|] == buf;
    var e := Emitted(Scan("", false, n), if buf == "" then [] else [Visible(buf)]);
    assert Step(c, turn, st, true).Made() == e;
    assert Residue(c, st) + "" == buf && Residue(c, e.st) + "" == "";
    assert Uses(e.pieces) == [];
    NoOpenNoCalls(c, turn, n, buf);
    NoOpenNoCalls(c, turn, n, "");
  }

  lemma KeepStepKeepsCalls(c: Codec, turn: nat, st: Scan, t: string)
    requires !st.inCall && Index(st.pending, c.open) < 0
    ensures var e := Step(c, turn, st, false).Made(); KeepsCalls(c, turn, st, e.pieces, e.st, t)
  {
    hide At, Grows, Index, Calls, Fits, PartialTag;
    var buf, n := st.pending, st.calls;
    KeepIsEnough(c, buf, t);
    var cut := |buf| - PartialTag(buf, c.open);
    var u, v := buf[..cut], buf[cut..];
    var e := Emitted(Scan(v, false, n), if u == "" then [] else [Visible(u)]);
    assert buf == u + v && buf + t == u + (v + t);
    assert Step(c, turn, st, false).Made() == e;
    assert Uses(e.pieces) == [];
    SkipText(c, turn, n, u, v + t);
    assert Residue(c, st) + t == u + (v + t) && Residue(c, e.st) + t == v + t;
  }

  lemma OpenStepKeepsCalls(c: Codec, turn: nat, st: Scan, final: bool, t: string)
    requires !st.inCall && Index(st.pending, c.open) >= 0
    ensures var e := Step(c, turn, st, final).Made(); KeepsCalls(c, turn, st, e.pieces, e.st, t)
  {
    hide At, Index, Calls, Fits;
    var buf, n := st.pending, st.calls;
    var i := Index(buf, c.open);
    AtSplit(buf, c.open, i);
    var u, v := buf[..i], buf[i + |c.open|..];
    var e := Emitted(Scan(v, true, n), [Visible(u)]);
    assert Step(c, turn, st, final).Made() == e;
    OneVisible(u);
    IndexGrow(buf, t, c.open);
    hide Step;
    Regroup(u, c.open, v, t);
    SkipText(c, turn, n, u, c.open + v + t);
    assert Residue(c, st) + t == buf + t by { NoLead(buf, t); }
  }

  lemma OneVisible(t: string)
    ensures Uses([Visible(t)]) == []
  {
    assert [Visible(t)][1..] == [];
  }

  lemma NoLead(s: string, t: string)
    ensures "" + s + t == s + t
  {
  }

  lemma CloseStepKeepsCalls(c: Codec, turn: nat, st: Scan, final: bool, t: string)
    requires st.inCall && Index(st.pending, c.close) >= 0
    ensures var e := Step(c, turn, st, final).Made(); KeepsCalls(c, turn, st, e.pieces, e.st, t)
  {
    hide At, Index, Calls, Fits, CallsInBody, FitsInBody;
    var buf, n := st.pending, st.calls;
    var j := Index(buf, c.close);
    var p := ParseCall(c, buf[..j], turn, n);
    var e := Step(c, turn, st, final).Made();
    assert e.st == Scan(buf[j + |c.close|..], false, if p.None? then n else n + 1);
    assert Uses(e.pieces) == if p.None? then [] else [p.value];
    OpenLeads(c, turn, n, buf + t);
    CloseSettles(c, turn, n, buf, t);
    assert Residue(c, st) + t == c.open + (buf + t) && Residue(c, e.st) + t == buf[j + |c.close|..] + t;
  }

  lemma BodyStepKeepsCalls(c: Codec, turn: nat, st: Scan, final: bool, t: string)
    requires t == "" || Fits(c, Residue(c, st) + t)
    requires st.inCall && Index(st.pending, c.close) < 0
    ensures var e := Step(c, turn, st, final).Made(); KeepsCalls(c, turn, st, e.pieces, e.st, t)
  {
    hide At, Index, Calls, Fits, CallsInBody, FitsInBody;
    var buf, n := st.pending, st.calls;
    var e := Step(c, turn, st, final).Made();
    assert Uses(e.pieces) == [];
    if |buf| > MAX_BUFFERED_TAG {
      assert Residue(c, st) + t == c.open + (buf + t) && Residue(c, e.st) + t == t;
      OpenLeads(c, turn, n, buf + t);
      if t == "" {
        assert buf + t == buf;
        NoOpenNoCalls(c, turn, n, t);
        NoCloseNoCallsInBody(c, turn, n, buf);
      } else {
        AfterGivingUp(c, turn, n, buf, t);
      }
    }
  }

  /** Every turn of the loop keeps the calls still to come, as long as the text fits or nothing follows. */
  lemma StepKeepsCalls(c: Codec, turn: nat, st: Scan, final: bool, t: string)
    requires t == "" || (!final && Fits(c, Residue(c, st) + t))
    ensures var e := Step(c, turn, st, final).Made(); KeepsCalls(c, turn, st, e.pieces, e.st, t)
  {
    hide Step, Index, KeepsCalls;
    if st.inCall {
      if Index(st.pending, c.close) >= 0 { CloseStepKeepsCalls(c, turn, st, final, t); }
      else { BodyStepKeepsCalls(c, turn, st, final, t); }
    } else if Index(st.pending, c.open) >= 0 {
      OpenStepKeepsCalls(c, turn, st, final, t);
    } else if final {
      LastStepKeepsCalls(c, turn, st);
    } else {
      KeepStepKeepsCalls(c, turn, st, t);
    }
  }

  lemma NoOpenNoCalls(c: Codec, turn: nat, n: nat, text: string)
    ensures Index(text, c.open) < 0 ==> Calls(c, text, turn, n) == [] && Fits(c, text)
    ensures Index("", c.open) < 0
  {
    hide IndexFrom;
  }

  lemma NoCloseNoCallsInBody(c: Codec, turn: nat, n: nat, text: string)
    ensures Index(text, c.close) < 0 ==> CallsInBody(c, text, turn, n) == []
  {
    hide At, Index, Calls;
  }

  lemma DrainKeepsCalls(c: Codec, turn: nat, st: Scan, final: bool, t: string)
    requires t == "" || (!final && Fits(c, Residue(c, st) + t))
    ensures var d := Drained(c, turn, st, final); KeepsCalls(c, turn, st, d.pieces, d.st, t)
    decreases |st.pending|
  {
    hide Step, Calls, Fits, Residue;
    StepKeepsCalls(c, turn, st, final, t);
    match Step(c, turn, st, final)
    case Again(p, st') =>
      DrainKeepsCalls(c, turn, st', final, t);
      UsesAppend([p], Drained(c, turn, st', final).pieces);
    case Halt(e) =>
  }

  /** At the end of the stream nothing that could be a call is left over. */
  lemma DrainedDry(c: Codec, turn: nat, st: Scan)
    ensures var d := Drained(c, turn, st, true); Calls(c, Residue(c, d.st), turn, d.st.calls) == []
    decreases |st.pending|
  {
    hide Index, Calls, CallsInBody;
    match Step(c, turn, st, true)
    case Again(p, st') => DrainedDry(c, turn, st');
    case Halt(e) =>
      NoOpenNoCalls(c, turn, e.st.calls, Residue(c, e.st));
      if st.inCall {
        OpenLeads(c, turn, st.calls, st.pending);
        NoCloseNoCallsInBody(c, turn, st.calls, st.pending);
      }
  }

  lemma FinishKeepsCalls(c: Codec, turn: nat, st: Scan)
    ensures Uses(Finished(c, turn, st).pieces) == Calls(c, Residue(c, st), turn, st.calls)
  {
    hide Drained, Calls;
    var d := Drained(c, turn, st, true);
    assert Residue(c, st) + "" == Residue(c, st) && Residue(c, d.st) + "" == Residue(c, d.st);
    DrainKeepsCalls(c, turn, st, true, "");
    DrainedDry(c, turn, st);
    UsesAppend(d.pieces, [Visible(Residue(c, d.st))]);
  }

  lemma FeedKeepsCalls(c: Codec, turn: nat, st: Scan, chunk: string, t: string)
    requires t == "" || Fits(c, Residue(c, st) + (chunk + t))
    ensures var e := Fed(c, turn, st, chunk);
      Calls(c, Residue(c, st) + (chunk + t), turn, st.calls) == Uses(e.pieces) + Calls(c, Residue(c, e.st) + t, turn, e.st.calls)
    ensures Fits(c, Residue(c, st) + (chunk + t)) ==> Fits(c, Residue(c, Fed(c, turn, st, chunk).st) + t)
  {
    hide Drained, Calls, Fits;
    var fed := st.(pending := st.pending + chunk);
    assert Residue(c, fed) + t == Residue(c, st) + (chunk + t);
    if chunk == "" {
      assert chunk + t == t;
    } else {
      DrainKeepsCalls(c, turn, fed, false, t);
    }
  }

  lemma {:induction false} StreamKeepsCalls(c: Codec, turn: nat, st: Scan, chunks: seq<string>)
    requires Fits(c, Residue(c, st) + Concat(chunks))
    ensures Uses(Streamed(c, turn, st, chunks).pieces) == Calls(c, Residue(c, st) + Concat(chunks), turn, st.calls)
    decreases |chunks|
  {
    hide Fed, Finished, Calls, Fits, Residue;
    if chunks == [] {
      assert Residue(c, st) + "" == Residue(c, st);
      FinishKeepsCalls(c, turn, st);
    } else {
      var e := Fed(c, turn, st, chunks[0]);
      FeedKeepsCalls(c, turn, st, chunks[0], Concat(chunks[1..]));
      StreamKeepsCalls(c, turn, e.st, chunks[1..]);
      UsesAppend(e.pieces, Streamed(c, turn, e.st, chunks[1..]).pieces);
    }
  }

  /** Text that arrives in one piece is always read as the whole-text parser reads it. */
  lemma OneChunkAgrees(c: Codec, turn: nat, n: nat, text: string)
    ensures Uses(Streamed(c, turn, Scan("", false, n), [text]).pieces) == Calls(c, text, turn, n)
  {
    hide Fed, Finished, Calls, Fits;
    var st := Scan("", false, n);
    var e := Fed(c, turn, st, text);
    assert [text][1..] == [] && text + "" == text && "" + "" + text == text;
    FeedKeepsCalls(c, turn, st, text, "");
    assert Residue(c, e.st) + "" == Residue(c, e.st);
    FinishKeepsCalls(c, turn, e.st);
    UsesAppend(e.pieces, Finished(c, turn, e.st).pieces);
  }

  lemma CallCount(c: Codec, text: string, turn: nat, n: nat, m: nat)
    ensures |Calls(c, text, turn, n)| == |Calls(c, text, turn, m)|
    decreases |text|
  {
    hide At, Index;
    var i := Index(text, c.open);
    if i >= 0 {
      var u := text[i + |c.open|..];
      var j := Index(u, c.close);
      if j >= 0 {
        CallCount(c, u[j + |c.close|..], turn, n, m);
        CallCount(c, u[j + |c.close|..], turn, n + 1, m + 1);
      }
    }
  }

  lemma Unfold(c: Codec, turn: nat, st: Scan, final: bool)
    ensures var r := Step(c, turn, st, final);
      Drained(c, turn, st, final) == if r.Again? then Before([r.piece], Drained(c, turn, r.next, final)) else r.out
  {
    hide Step;
  }

  /** The first turns on text that holds an open tag at |head|. */
  lemma DrainFromOpen(c: Codec, turn: nat, n: nat, head: string, rest: string)
    requires Index(head + c.open + rest, c.open) == |head|
    ensures Fed(c, turn, Scan("", false, n), head + c.open + rest) ==
      Before([Visible(head)], Drained(c, turn, Scan(rest, true, n), false))
  {
    hide Drained, Index;
    var x := head + c.open + rest;
    assert "" + x == x && x[..|head|] == head && x[|head| + |c.open|..] == rest;
    Unfold(c, turn, Scan(x, false, n), false);
  }

  lemma DrainIdle(c: Codec, turn: nat, n: nat)
    ensures Drained(c, turn, Scan("", false, n), false) == Emitted(Scan("", false, n), [])
  {
    NoOpenNoCalls(c, turn, n, "");
  }

  /** A first chunk that ends inside a body past the limit makes the scanner give up on it. */
  lemma GivesUp(c: Codec, turn: nat, n: nat, head: string, buf: string)
    requires Index(head + c.open + buf, c.open) == |head|
    requires Index(buf, c.close) < 0 && |buf| > MAX_BUFFERED_TAG
    ensures Fed(c, turn, Scan("", false, n), head + c.open + buf) ==
      Emitted(Scan("", false, n), [Visible(head), Visible(c.open + buf)])
  {
    hide Drained, Index, Fed;
    DrainFromOpen(c, turn, n, head, buf);
    Unfold(c, turn, Scan(buf, true, n), false);
    DrainIdle(c, turn, n);
  }

  /** A first chunk that ends with a whole call, or what looks like one, is settled at once. */
  lemma WholeCall(c: Codec, turn: nat, n: nat, head: string, body: string, tail: string)
    requires Index(head + c.open + (body + c.close + tail), c.open) == |head|
    requires Index(body + c.close + tail, c.close) == |body|
    ensures var p := ParseCall(c, body, turn, n);
      Fed(c, turn, Scan("", false, n), head + c.open + (body + c.close)) ==
        Emitted(Scan("", false, if p.None? then n else n + 1),
                [Visible(head), if p.None? then Visible(c.open + body + c.close) else Call(body, p.value)])
  {
    hide Drained, Index, Fed, At;
    var y := body + c.close;
    var x := head + c.open + y;
    assert head + c.open + (body + c.close + tail) == x + tail;
    AtSplit(x + tail, c.open, |head|);
    AtSplit(y + tail, c.close, |body|);
    AtPrefix(x, tail, c.open, |head|);
    AtPrefix(x, tail, c.open, Index(x, c.open));
    AtPrefix(y, tail, c.close, |body|);
    AtPrefix(y, tail, c.close, Index(y, c.close));
    DrainFromOpen(c, turn, n, head, y);
    assert y[..|body|] == body && y[|body| + |c.close|..] == "";
    Unfold(c, turn, Scan(y, true, n), false);
    DrainIdle(c, turn, if ParseCall(c, body, turn, n).None? then n else n + 1);
  }

  /** Cutting right after a buffer past the limit leaves only the calls of what follows the cut. */
  lemma CutMiscounts(c: Codec, turn: nat, n: nat, head: string, buf: string, after: string)
    requires Index(head + c.open + (buf + after), c.open) == |head|
    requires |buf| > MAX_BUFFERED_TAG
    requires Index(buf + after, c.close) > |buf| - |c.close|
    ensures Uses(Streamed(c, turn, Scan("", false, n), [head + c.open + buf, after]).pieces) == Calls(c, after, turn, n)
  {
    hide Index, At, Fed, Finished, Calls;
    var x := head + c.open + buf;
    assert [x, after][1..] == [after];
    assert x + after == head + c.open + (buf + after);
    AtPrefix(buf, after, c.close, Index(buf, c.close));
    if Index(buf, c.close) >= 0 { AtSplit(buf, c.close, Index(buf, c.close)); }
    AtPrefix(x, after, c.open, Index(x, c.open));
    AtPrefix(x, after, c.open, |head|);
    GivesUp(c, turn, n, head, buf);
    OneChunkAgrees(c, turn, n, after);
  }

  /** The calls of text whose first body is closed. */
  lemma FirstBody(c: Codec, turn: nat, n: nat, head: string, body: string, tail: string)
    requires Index(head + c.open + (body + c.close + tail), c.open) == |head|
    requires Index(body + c.close + tail, c.close) == |body|
    ensures var p := ParseCall(c, body, turn, n);
      Calls(c, head + c.open + (body + c.close + tail), turn, n) ==
        if p.None? then Calls(c, tail, turn, n) else [p.value] + Calls(c, tail, turn, n + 1)
  {
    hide Index, At;
    var u := body + c.close + tail;
    assert (head + c.open + u)[|head| + |c.open|..] == u;
    assert u[..|body|] == body && u[|body| + |c.close|..] == tail;
  }

  /** A call too long for the buffer is lost by a cut just short of its end. */
  lemma {:induction false} LongCallIsLost(c: Codec, turn: nat, n: nat, head: string, body: string, tail: string) returns (chunks: seq<string>)
    requires Index(head + c.open + (body + c.close + tail), c.open) == |head|
    requires Index(body + c.close + tail, c.close) == |body|
    requires c.decode(body).Some? && |body| + |c.close| - 1 > MAX_BUFFERED_TAG
    ensures Concat(chunks) == head + c.open + (body + c.close + tail)
    ensures |Uses(Streamed(c, turn, Scan("", false, n), chunks).pieces)| != |Calls(c, Concat(chunks), turn, n)|
  {
    hide Index, At, Streamed, Calls;
    var k := |c.close| - 1;
    var buf, after := body + c.close[..k], c.close[k..] + tail;
    assert body + c.close + tail == buf + after;
    chunks := [head + c.open + buf, after];
    ConcatPair(head + c.open + buf, after);
    assert Concat(chunks) == head + c.open + (body + c.close + tail);
    CutMiscounts(c, turn, n, head, buf, after);
    forall q | 0 <= q < |c.close[k..]| ensures !At(c.close[k..] + tail, c.open, q) { OpenNotInClose(c, k, tail, q); }
    SkipText(c, turn, n, c.close[k..], tail);
    FirstBody(c, turn, n, head, body, tail);
    CallCount(c, tail, turn, n, n + 1);
  }

  /** A body that ends in a call opened past the limit yields that call when cut at its open tag. */
  lemma {:induction false} LateCallIsFound(c: Codec, turn: nat, n: nat, head: string, body: string, tail: string, q: nat) returns (chunks: seq<string>)
    requires Index(head + c.open + (body + c.close + tail), c.open) == |head|
    requires Index(body + c.close + tail, c.close) == |body|
    requires q > MAX_BUFFERED_TAG && At(body, c.open, q)
    requires c.decode(body).None? && c.decode(body[q + |c.open|..]).Some?
    ensures Concat(chunks) == head + c.open + (body + c.close + tail)
    ensures |Uses(Streamed(c, turn, Scan("", false, n), chunks).pieces)| != |Calls(c, Concat(chunks), turn, n)|
  {
    hide Index, At, Streamed, Calls;
    AtSplit(body, c.open, q);
    var late := body[q + |c.open|..];
    var buf, after := body[..q], c.open + (late + c.close + tail);
    assert body + c.close + tail == buf + after;
    chunks := [head + c.open + buf, after];
    ConcatPair(head + c.open + buf, after);
    assert Concat(chunks) == head + c.open + (body + c.close + tail);
    CutMiscounts(c, turn, n, head, buf, after);
    assert body + c.close + tail == body[..q + |c.open|] + (late + c.close + tail);
    CloseEndsTail(c, body[..q + |c.open|], late, tail);
    assert At(after, c.open, 0) by { OpenAtFront(c, late + c.close + tail); }
    assert "" + c.open + (late + c.close + tail) == after;
    FirstBody(c, turn, n, "", late, tail);
    FirstBody(c, turn, n, head, body, tail);
    CallCount(c, tail, turn, n, n + 1);
  }

  lemma OpenAtFront(c: Codec, u: string)
    ensures At(c.open + u, c.open, 0)
  {
  }

  /** Streaming on after a first chunk that ends with a closed body. */
  lemma StreamPastBody(c: Codec, turn: nat, n: nat, head: string, body: string, tail: string, rest: seq<string>)
    requires Index(head + c.open + (body + c.close + tail), c.open) == |head|
    requires Index(body + c.close + tail, c.close) == |body|
    requires Concat(rest) == tail
    ensures var p := ParseCall(c, body, turn, n);
      var chunks := [head + c.open + (body + c.close)] + rest;
      && Concat(chunks) == head + c.open + (body + c.close + tail)
      && Uses(Streamed(c, turn, Scan("", false, n), chunks).pieces) ==
        (if p.None? then [] else [p.value]) + Uses(Streamed(c, turn, Scan("", false, if p.None? then n else n + 1), rest).pieces)
  {
    hide Index, At, Fed, Finished;
    var x := head + c.open + (body + c.close);
    var e := Fed(c, turn, Scan("", false, n), x);
    assert ([x] + rest)[1..] == rest && ([x] + rest)[0] == x;
    assert x + tail == head + c.open + (body + c.close + tail);
    WholeCall(c, turn, n, head, body, tail);
    UsesAppend(e.pieces, Streamed(c, turn, e.st, rest).pieces);
    assert e.pieces[1..] == [e.pieces[1]];
  }

  /** When the text does not fit, some way of cutting it changes the number of calls. */
  lemma SomeCutMiscounts(c: Codec, turn: nat, n: nat, text: string) returns (chunks: seq<string>)
    requires !Fits(c, text)
    ensures Concat(chunks) == text
    ensures |Uses(Streamed(c, turn, Scan("", false, n), chunks).pieces)| != |Calls(c, text, turn, n)|
    decreases |text|
  {
    hide Index, At, Calls, Streamed;
    var i := Index(text, c.open);
    AtSplit(text, c.open, i);
    var head, u := text[..i], text[i + |c.open|..];
    var j := Index(u, c.close);
    AtSplit(u, c.close, j);
    var body, tail := u[..j], u[j + |c.close|..];
    if BodyFits(c, body) {
      var n' := if ParseCall(c, body, turn, n).None? then n else n + 1;
      var rest := SomeCutMiscounts(c, turn, n', tail);
      chunks := [head + c.open + (body + c.close)] + rest;
      StreamPastBody(c, turn, n, head, body, tail, rest);
      FirstBody(c, turn, n, head, body, tail);
    } else if c.decode(body).Some? {
      chunks := LongCallIsLost(c, turn, n, head, body, tail);
    } else {
      var q: nat :| q > MAX_BUFFERED_TAG && At(body, c.open, q) && LateCall(c, body, q);
      chunks := LateCallIsFound(c, turn, n, head, body, tail, q);
    }
  }

  /** Main result: streaming agrees with the whole-text parser for every way of cutting the text
      exactly when the text fits the buffer. */
  lemma StreamingAgreesExactlyWhenTextFits(c: Codec, turn: nat, text: string)
    ensures Fits(c, text) <==>
      forall chunks :: Concat(chunks) == text ==> Uses(Streamed(c, turn, START, chunks).pieces) == Calls(c, text, turn, 0)
  {
    if Fits(c, text) {
      forall chunks | Concat(chunks) == text
        ensures Uses(Streamed(c, turn, START, chunks).pieces) == Calls(c, text, turn, 0)
      {
        assert Residue(c, START) + text == text;
        StreamKeepsCalls(c, turn, START, chunks);
      }
    } else {
      var chunks := SomeCutMiscounts(c, turn, 0, text);
    }
  }

  // ----- the scanner as the provider runs it

  /** What the caller's callback is given. */
  datatype Event =
    | TextDelta(text: string)
    | ToolStart(id: string, name: string)
    | ToolDelta(id: string, args: string)
    | ToolStop(id: string)

  function EventsOf(p: Piece): seq<Event> {
    match p
    case Visible(t) => if t == "" then [] else [TextDelta(t)]
    case Call(_, u) => [ToolStart(u.id, u.name), ToolDelta(u.id, u.input), ToolStop(u.id)]
  }

  function Events(ps: seq<Piece>): seq<Event> {
    if ps == [] then [] else Events(ps[..|ps| - 1]) + EventsOf(ps[|ps| - 1])
  }

  // ----- what the events say, read without regard to how they are made

  /** Text that is not empty, and triples of a call's start, arguments and stop under one id. */
  predicate InTriples(es: seq<Event>)
    decreases |es|
  {
    || es == []
    || (es[0].TextDelta? && es[0].text != "" && InTriples(es[1..]))
    || (|es| >= 3 && es[0].ToolStart? && es[1].ToolDelta? && es[2].ToolStop? && es[0].id == es[1].id == es[2].id && InTriples(es[3..]))
  }

  /** The calls announced. */
  function Announced(es: seq<Event>): seq<ToolUse>
    requires InTriples(es)
    decreases |es|
  {
    if es == [] then []
    else if es[0].TextDelta? then Announced(es[1..])
    else [ToolUse(es[0].id, es[0].name, es[1].args)] + Announced(es[3..])
  }

  /** The text told, with each call announced put back as its body between the tags. */
  function Told(c: Codec, es: seq<Event>, bodies: seq<string>): string
    requires InTriples(es) && |bodies| == |Announced(es)|
    decreases |es|
  {
    if es == [] then ""
    else if es[0].TextDelta? then es[0].text + Told(c, es[1..], bodies)
    else c.open + bodies[0] + c.close + Told(c, es[3..], bodies[1..])
  }

  /** The text deltas joined. */
  function DeltaText(es: seq<Event>): string {
    if es == [] then "" else (if es[0].TextDelta? then es[0].text else "") + DeltaText(es[1..])
  }

  /** The events tell the whole of a text: their text, and the bodies of the calls they announce, in order. */
  ghost predicate Tell(c: Codec, turn: nat, es: seq<Event>, text: string) {
    exists bodies: seq<string> ::
      && InTriples(es) && |bodies| == |Announced(es)| && Told(c, es, bodies) == text
      && Decoded(c, turn, 0, bodies, Announced(es))
  }

  /** Call k, counting from n, has the name and input its body decodes to, and the id of its turn and number. */
  ghost predicate Decoded(c: Codec, turn: nat, n: nat, bodies: seq<string>, uses: seq<ToolUse>) {
    && |bodies| == |uses|
    && forall k :: 0 <= k < |uses| ==>
        c.decode(bodies[k]) == Some(Wire(uses[k].name, uses[k].input)) && uses[k].id == CallId(turn, n + k).Text()
  }

  function Bodies(ps: seq<Piece>): seq<string> {
    if ps == [] then [] else (if ps[0].Call? then [ps[0].body] else []) + Bodies(ps[1..])
  }

  lemma BodiesAppend(ps: seq<Piece>, qs: seq<Piece>)
    ensures Bodies(ps + qs) == Bodies(ps) + Bodies(qs)
  {
    if ps == [] {
      assert ps + qs == qs;
    } else {
      var first := if ps[0].Call? then [ps[0].body] else [];
      assert (ps + qs)[1..] == ps[1..] + qs;
      BodiesAppend(ps[1..], qs);
      assert Bodies(ps + qs) == first + (Bodies(ps[1..]) + Bodies(qs));
    }
  }

  lemma FirstEvents(p: Piece, ps: seq<Piece>)
    ensures Events([p] + ps) == EventsOf(p) + Events(ps)
    decreases |ps|
  {
    hide EventsOf;
    if ps == [] {
      assert [p] + ps == [p] && [p][..0] == [];
      assert [] + EventsOf(p) == EventsOf(p) + [];
    } else {
      var n := |ps| - 1;
      assert ([p] + ps)[..n + 1] == [p] + ps[..n];
      FirstEvents(p, ps[..n]);
    }
  }

  /** The events of pieces read back as the pieces. */
  lemma EventsTellThePieces(c: Codec, ps: seq<Piece>)
    ensures var es := Events(ps);
      InTriples(es) && Announced(es) == Uses(ps) && |Bodies(ps)| == |Uses(ps)| && Told(c, es, Bodies(ps)) == WrittenBack(c, ps)
  {
    if ps != [] {
      var p, rest := ps[0], ps[1..];
      EventsTellThePieces(c, rest);
      assert ps == [p] + rest;
      FirstEvents(p, rest);
      OneTold(c, p, Events(rest), Bodies(rest));
      assert Uses(ps) == (if p.Call? then [p.use] else []) + Uses(rest);
      assert Bodies(ps) == (if p.Call? then [p.body] else []) + Bodies(rest);
    }
  }

  lemma OneTold(c: Codec, p: Piece, es: seq<Event>, bodies: seq<string>)
    requires InTriples(es) && |bodies| == |Announced(es)|
    ensures var all, more := EventsOf(p) + es, (if p.Call? then [p.body] else []) + bodies;
      && InTriples(all) && Announced(all) == (if p.Call? then [p.use] else []) + Announced(es)
      && Told(c, all, more) == Raw(c, p) + Told(c, es, bodies)
  {
    var all := EventsOf(p) + es;
    if p.Visible? && p.text == "" {
      assert all == es && [] + bodies == bodies && [] + Announced(es) == Announced(es) && "" + Told(c, es, bodies) == Told(c, es, bodies);
    } else if p.Visible? {
      assert all[1..] == es && [] + bodies == bodies && [] + Announced(es) == Announced(es);
    } else {
      assert all[3..] == es && ([p.body] + bodies)[1..] == bodies;
    }
  }

  // ----- calls streamed are decoded from their bodies

  /** From n calls on, these pieces lead to m calls. */
  ghost predicate Counts(c: Codec, turn: nat, n: nat, ps: seq<Piece>, m: nat) {
    m == n + |Uses(ps)| && Decoded(c, turn, n, Bodies(ps), Uses(ps))
  }

  lemma CountsMore(c: Codec, turn: nat, n: nat, ps: seq<Piece>, m: nat, qs: seq<Piece>, l: nat)
    requires Counts(c, turn, n, ps, m) && Counts(c, turn, m, qs, l)
    ensures Counts(c, turn, n, ps + qs, l)
  {
    hide Uses, Bodies, CallId.Text;
    UsesAppend(ps, qs);
    BodiesAppend(ps, qs);
  }

  lemma StepCounts(c: Codec, turn: nat, st: Scan, final: bool)
    ensures var e := Step(c, turn, st, final).Made(); Counts(c, turn, st.calls, e.pieces, e.st.calls)
  {
    hide At, Index, PartialTag, CallId.Text, Uses, Bodies;
    var e := Step(c, turn, st, final).Made();
    NoneCounted();
    if e.pieces != [] {
      assert e.pieces == [e.pieces[0]];
      OneCounted(e.pieces[0]);
    }
  }

  lemma NoneCounted()
    ensures Uses([]) == [] && Bodies([]) == []
  {
  }

  lemma OneCounted(p: Piece)
    ensures Uses([p]) == (if p.Call? then [p.use] else []) && Bodies([p]) == if p.Call? then [p.body] else []
  {
    assert [p][1..] == [];
  }

  lemma DrainCounts(c: Codec, turn: nat, st: Scan, final: bool)
    ensures var d := Drained(c, turn, st, final); Counts(c, turn, st.calls, d.pieces, d.st.calls)
    decreases |st.pending|
  {
    hide Step, Counts;
    StepCounts(c, turn, st, final);
    match Step(c, turn, st, final)
    case Again(p, st') =>
      DrainCounts(c, turn, st', final);
      CountsMore(c, turn, st.calls, [p], st'.calls, Drained(c, turn, st', final).pieces, Drained(c, turn, st', final).st.calls);
    case Halt(e) =>
  }

  lemma StreamCounts(c: Codec, turn: nat, st: Scan, chunks: seq<string>)
    ensures var e := Streamed(c, turn, st, chunks); Counts(c, turn, st.calls, e.pieces, e.st.calls)
    decreases |chunks|
  {
    hide Drained, Counts;
    if chunks == [] {
      var d := Drained(c, turn, st, true);
      DrainCounts(c, turn, st, true);
      TextCounts(c, turn, d.st.calls, Residue(c, d.st));
      CountsMore(c, turn, st.calls, d.pieces, d.st.calls, [Visible(Residue(c, d.st))], d.st.calls);
    } else {
      var e := Fed(c, turn, st, chunks[0]);
      if chunks[0] == "" { NothingCounts(c, turn, st.calls); } else { DrainCounts(c, turn, st.(pending := st.pending + chunks[0]), false); }
      StreamCounts(c, turn, e.st, chunks[1..]);
      var rest := Streamed(c, turn, e.st, chunks[1..]);
      CountsMore(c, turn, st.calls, e.pieces, e.st.calls, rest.pieces, rest.st.calls);
    }
  }

  lemma NothingCounts(c: Codec, turn: nat, n: nat)
    ensures Counts(c, turn, n, [], n)
  {
  }

  lemma TextCounts(c: Codec, turn: nat, n: nat, t: string)
    ensures Counts(c, turn, n, [Visible(t)], n)
  {
    OneCounted(Visible(t));
  }

  /** Main result. For every chunking the events tell the caller just the text fed: no delta is empty, and
      each call comes as start, arguments and stop, with the name and input its body decodes to. */
  lemma EventsTellTheText(c: Codec, turn: nat, chunks: seq<string>)
    ensures var es := Events(Streamed(c, turn, START, chunks).pieces);
      Tell(c, turn, es, Concat(chunks)) && InTriples(es) && Announced(es) == Uses(Streamed(c, turn, START, chunks).pieces)
  {
    hide Events, Streamed, Uses, Bodies, WrittenBack, Decoded, InTriples, Announced, Told;
    var ps := Streamed(c, turn, START, chunks).pieces;
    EventsTellThePieces(c, ps);
    StreamConserves(c, turn, START, chunks);
    StreamCounts(c, turn, START, chunks);
    assert "" + "" + Concat(chunks) == Concat(chunks);
  }

  /** So the deltas alone are the whole text where no call is announced. */
  lemma {:induction false} DeltasAreTheText(c: Codec, es: seq<Event>, bodies: seq<string>)
    requires InTriples(es) && Announced(es) == [] && bodies == []
    ensures Told(c, es, bodies) == DeltaText(es)
    decreases |es|
  {
    if es != [] { DeltasAreTheText(c, es[1..], bodies); }
  }

  class Scanner {
    const c: Codec
    const turn: nat
    var pending: string
    var seen: string
    var inCall: bool
    var calls: nat
    var emitted: seq<Event>
    ghost var pieces: seq<Piece>

    constructor (c: Codec, turn: nat)
      ensures this.c == c && this.turn == turn
      ensures Valid() && State() == START && pieces == [] && seen == ""
    {
      this.c, this.turn := c, turn;
      pending, seen, inCall, calls, emitted, pieces := "", "", false, 0, [], [];
    }

    function State(): Scan
      reads this
    {
      Scan(pending, inCall, calls)
    }

    ghost predicate Valid()
      reads this
    {
      emitted == Events(pieces)
    }

    method Emit(p: Piece)
      requires Valid()
      modifies this`emitted, this`pieces
      ensures Valid() && pieces == old(pieces) + [p]
    {
      emitted := emitted + EventsOf(p);
      pieces := pieces + [p];
      assert pieces[..|pieces| - 1] == old(pieces);
    }

    method EmitCall(body: string)
      requires Valid()
      modifies this`emitted, this`pieces, this`calls
      ensures Valid()
      ensures var p := ParseCall(c, body, turn, old(calls));
        && calls == (if p.None? then old(calls) else old(calls) + 1)
        && pieces == old(pieces) + [if p.None? then Visible(c.open + body + c.close) else Call(body, p.value)]
    {
      match ParseCall(c, body, turn, calls) {
        case None => Emit(Visible(c.open + body + c.close));
        case Some(use) =>
          calls := calls + 1;
          Emit(Piece.Call(body, use));
      }
    }

    /** One turn of the loop of Drain: it goes round again, or stops. */
    method Round(final: bool) returns (again: bool)
      requires Valid()
      modifies this`pending, this`inCall, this`calls, this`emitted, this`pieces
      ensures Valid()
      ensures var r := Step(c, turn, old(State()), final);
        again == r.Again? && State() == r.Made().st && pieces == old(pieces) + r.Made().pieces
    {
      hide Index, PartialTag, At, Events, EventsOf;
      var buf := pending;
      if inCall {
        var j := Index(buf, c.close);
        if j < 0 {
          if |buf| > MAX_BUFFERED_TAG {
            pending, inCall := "", false;
            Emit(Visible(c.open + buf));
            return true;
          }
          return false;
        }
        var body := buf[..j];
        pending, inCall := buf[j + |c.close|..], false;
        EmitCall(body);
        return true;
      }
      var i := Index(buf, c.open);
      if i >= 0 {
        Emit(Visible(buf[..i]));
        pending, inCall := buf[i + |c.open|..], true;
        return true;
      }
      var keep := 0;
      if !final { keep := PartialTagLen(buf, c.open); }
      if keep >= |buf| { return false; }
      pending := buf[|buf| - keep..];
      Emit(Visible(buf[..|buf| - keep]));
      return false;
    }

    method Drain(final: bool)
      requires Valid()
      modifies this`pending, this`inCall, this`calls, this`emitted, this`pieces
      ensures Valid()
      ensures var d := Drained(c, turn, old(State()), final); State() == d.st && pieces == old(pieces) + d.pieces
    {
      hide Drained, Step, Events, EventsOf;
      ghost var d := Drained(c, turn, State(), final);
      while true
        invariant Valid()
        invariant old(pieces) + d.pieces == pieces + Drained(c, turn, State(), final).pieces
        invariant d.st == Drained(c, turn, State(), final).st
        decreases |pending|
      {
        Unfold(c, turn, State(), final);
        var again := Round(final);
        if !again { return; }
      }
    }

    method Feed(text: string)
      requires Valid()
      modifies this
      ensures Valid() && seen == old(seen) + text
      ensures var e := Fed(c, turn, old(State()), text); State() == e.st && pieces == old(pieces) + e.pieces
    {
      hide Drained;
      if text == "" { return; }
      seen := seen + text;
      pending := pending + text;
      Drain(false);
    }

    method Finish()
      requires Valid()
      modifies this`pending, this`inCall, this`calls, this`emitted, this`pieces
      ensures Valid()
      ensures var e := Finished(c, turn, old(State())); State() == e.st && pieces == old(pieces) + e.pieces
    {
      hide Drained;
      Drain(true);
      ghost var drained := State();
      var rest := pending;
      assert Residue(c, drained) == (if inCall then c.open else "") + rest;
      assert "" + rest == rest;
      pending := "";
      if inCall {
        rest := c.open + rest;
        inCall := false;
      }
      Emit(Visible(rest));
    }
  }

  method PartialTagLen(s: string, tag: string) returns (n: nat)
    requires |tag| > 0
    ensures n == PartialTag(s, tag)
  {
    var max := |tag| - 1;
    if |s| < max { max := |s|; }
    n := max;
    while n > 0
      invariant n <= max && Longest(s, tag, max) == Longest(s, tag, n)
    {
      if Grows(s, tag, n) { return; }
      n := n - 1;
    }
  }

  datatype Answer = Answer(content: seq<Content>, stop: StopReason)

  /** What an answer's text is turned into: calls found make it a tool-use turn. */
  function Interpreted(c: Codec, text: string, stop: StopReason, turn: nat): Answer {
    if Calls(c, text, turn, 0) == [] then Answer([TextBlock(text)], stop)
    else Answer(Shown(c, Parts(c, text, turn, 0)), if stop == StopEndTurn || stop == StopOther then StopToolUse else stop)
  }

  method Interpret(c: Codec, text: string, stop: StopReason, turn: nat) returns (r: Answer)
    ensures r == Interpreted(c, text, stop, turn)
    ensures UsesIn(r.content) == Calls(c, text, turn, 0)
    ensures r.stop == if UsesIn(r.content) != [] && (stop == StopEndTurn || stop == StopOther) then StopToolUse else stop
    ensures UsesIn(r.content) == [] ==> r.content == [TextBlock(text)]
  {
    hide Calls, Parts, Shown;
    r := Answer([TextBlock(text)], stop);
    assert r.content[..0] == [] && UsesIn(r.content) == UsesIn([]) + [] == [];
    if Index(text, c.open) < 0 {
      NoOpenNoCalls(c, turn, 0, text);
      return;
    }
    var content, n := ParseCalls(c, text, turn);
    if n == 0 { return; }
    r := Answer(content, if stop == StopEndTurn || stop == StopOther then StopToolUse else stop);
  }

  /** A streamed answer. Where the provider's own message has the text it streamed, or none, the calls in the
      message returned are, for a text that fits, the calls that were streamed. */
  method Stream(c: Codec, turn: nat, chunks: seq<string>, answer: string, stop: StopReason)
    returns (events: seq<Event>, r: Answer)
    ensures Tell(c, turn, events, Concat(chunks))
    ensures InTriples(events) && (Announced(events) == [] ==> DeltaText(events) == Concat(chunks))
    ensures r == Interpreted(c, if answer == "" then Concat(chunks) else answer, stop, turn)
    ensures (answer == "" || answer == Concat(chunks)) && Fits(c, Concat(chunks)) ==>
      UsesIn(r.content) == Announced(events)
  {
    hide Calls, Fed, Finished, Fits, Events, Uses, Interpreted, InTriples, Announced, Told, DeltaText, Decoded;
    var sc := new Scanner(c, turn);
    var all := Streamed(c, turn, START, chunks);
    for k := 0 to |chunks|
      invariant sc.Valid() && sc.c == c && sc.turn == turn
      invariant sc.seen + Concat(chunks[k..]) == Concat(chunks)
      invariant all == Before(sc.pieces, Streamed(c, turn, sc.State(), chunks[k..]))
    {
      assert chunks[k..][0] == chunks[k] && chunks[k..][1..] == chunks[k + 1..];
      Associate(sc.seen, chunks[k], Concat(chunks[k + 1..]));
      sc.Feed(chunks[k]);
    }
    assert chunks[|chunks|..] == [];
    sc.Finish();
    assert sc.seen + "" == sc.seen;
    events := sc.emitted;
    var text := answer;
    if text == "" && |sc.seen| > 0 { text := sc.seen; }
    EventsTellTheText(c, turn, chunks);
    if Announced(events) == [] { DeltasAreTheText(c, events, []); }
    StreamingAgreesExactlyWhenTextFits(c, turn, Concat(chunks));
    r := Interpret(c, text, stop, turn);
  }
}
