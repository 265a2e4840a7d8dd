// Where cache marks go in a request: the system prompt in sections (prompt.go), and the request built
// from it under a limit of four marks (provider/anthropic/request.go). A char is a code point.
module PromptCache {
  import opened Text

  const MAX_CACHE_BREAKPOINTS: nat := 4

  datatype Section = Section(text: string, cache: bool)

  type Prompt = seq<Section>

  /** Two texts a blank line apart; an empty one takes no place. */
  function Then(a: string, b: string): string { if a == "" then b else if b == "" then a else a + "\n\n" + b }

  function Parted(texts: seq<string>): string {
    if texts == [] then "" else if |texts| == 1 then texts[0] else texts[0] + "\n\n" + Parted(texts[1..])
  }

  function NonEmpty(p: Prompt): seq<string> {
    if p == [] then [] else (if p[0].text != "" then [p[0].text] else []) + NonEmpty(p[1..])
  }

  /** The text of a prompt is its texts that are not empty, a blank line between each two. */
  lemma {:induction false} TextIsParted(p: Prompt)
    ensures TextOf(p) == Parted(NonEmpty(p)) && (NonEmpty(p) == [] <==> TextOf(p) == "")
  {
    hide Parted, TextOf;
    if p == [] {
      NothingParted();
    } else {
      TextIsParted(p[1..]);
      assert p == [p[0]] + p[1..];
      FirstText(p[0], p[1..]);
      assert [] + NonEmpty(p[1..]) == NonEmpty(p[1..]);
      if p[0].text != "" { PartedMore(p[0].text, NonEmpty(p[1..])); }
    }
  }

  lemma NothingParted()
    ensures Parted([]) == "" && TextOf([]) == ""
  {
  }

  lemma PartedMore(x: string, texts: seq<string>)
    ensures Parted([x] + texts) == if texts == [] then x else x + "\n\n" + Parted(texts)
  {
    assert ([x] + texts)[1..] == texts;
  }

  lemma FirstText(s: Section, p: Prompt)
    ensures TextOf([s] + p) == Then(s.text, TextOf(p))
    decreases |p|
  {
    if p == [] {
      assert [s] + p == [s] && [s][..0] == [];
    } else {
      var n := |p| - 1;
      assert ([s] + p)[..n + 1] == [s] + p[..n];
      FirstText(s, p[..n]);
      ThenGroups(s.text, TextOf(p[..n]), p[n].text);
    }
  }

  lemma ThenGroups(a: string, b: string, c: string)
    ensures Then(Then(a, b), c) == Then(a, Then(b, c))
  {
    assert a + "\n\n" + (b + "\n\n" + c) == (a + "\n\n" + b) + "\n\n" + c;
  }

  /** The texts of the sections that have any, joined by blank lines. */
  function TextOf(p: Prompt): string {
    if p == [] then "" else Then(TextOf(p[..|p| - 1]), p[|p| - 1].text)
  }

  function MarkedLast(p: Prompt): Prompt { if p == [] then p else p[..|p| - 1] + [p[|p| - 1].(cache := true)] }

  /** Empty sections dropped, their marks left on the section before. */
  function SectionsOf(p: Prompt): Prompt {
    if p == [] then []
    else
      var out, s := SectionsOf(p[..|p| - 1]), p[|p| - 1];
      if s.text != "" then out + [s] else if s.cache then MarkedLast(out) else out
  }

  function Added(p: Prompt, texts: seq<string>): Prompt {
    if texts == [] then p
    else
      var out, t := Added(p, texts[..|texts| - 1]), texts[|texts| - 1];
      if t != "" then out + [Section(t, false)] else out
  }

  function Uncached(p: Prompt): (r: Prompt)
    ensures |r| == |p| && forall i :: 0 <= i < |p| ==> r[i] == p[i].(cache := false)
  {
    seq(|p|, i requires 0 <= i < |p| => p[i].(cache := false))
  }

  method Sections(p: Prompt) returns (out: Prompt)
    ensures out == SectionsOf(p)
  {
    out := [];
    for i := 0 to |p|
      invariant out == SectionsOf(p[..i])
    {
      assert p[..i + 1][..i] == p[..i];
      if p[i].text != "" {
        out := out + [p[i]];
        continue;
      }
      if p[i].cache && |out| > 0 { out := out[..|out| - 1] + [out[|out| - 1].(cache := true)]; }
    }
    assert p[..|p|] == p;
  }

  method Add(p: Prompt, texts: seq<string>) returns (out: Prompt)
    ensures out == Added(p, texts)
  {
    out := p;
    for i := 0 to |texts|
      invariant out == Added(p, texts[..i])
    {
      assert texts[..i + 1][..i] == texts[..i];
      if texts[i] != "" { out := out + [Section(texts[i], false)]; }
    }
    assert texts[..|texts|] == texts;
  }

  /** The text up to a mark. */
  ghost predicate MarkAfter(p: Prompt, t: string) { exists i :: 0 <= i < |p| && p[i].cache && TextOf(p[..i + 1]) == t }

  lemma MarkAfterMore(p: Prompt, s: Section, t: string)
    ensures MarkAfter(p + [s], t) <==> MarkAfter(p, t) || (s.cache && TextOf(p + [s]) == t)
  {
    hide TextOf;
    var q := p + [s];
    assert q[|p|] == s && q[..|p| + 1] == q;
    if i :| 0 <= i < |q| && q[i].cache && TextOf(q[..i + 1]) == t {
      assert i < |p| ==> q[i] == p[i] && q[..i + 1] == p[..i + 1];
    }
    if i :| 0 <= i < |p| && p[i].cache && TextOf(p[..i + 1]) == t { assert q[i] == p[i] && q[..i + 1] == p[..i + 1]; }
  }

  lemma TextOfMore(p: Prompt, s: Section)
    ensures TextOf(p + [s]) == Then(TextOf(p), s.text)
  {
    hide Then;
    assert (p + [s])[..|p|] == p;
  }

  lemma MarkingLast(front: Prompt, last: Section)
    ensures MarkedLast(front + [last]) == front + [last.(cache := true)]
    ensures TextOf(front + [last.(cache := true)]) == TextOf(front + [last])
  {
    hide Then, TextOf;
    assert (front + [last])[..|front|] == front;
    TextOfMore(front, last);
    TextOfMore(front, last.(cache := true));
  }

  /** Sections have text, the same in all as the prompt's, and every mark is where it was in that text, if
      any text comes before it. */
  lemma {:induction false} SectionsKeepTextAndMarks(p: Prompt, t: string)
    requires t != ""
    ensures var out := SectionsOf(p);
      && (forall s :: s in out ==> s.text != "")
      && TextOf(out) == TextOf(p)
      && (out == [] <==> TextOf(p) == "")
      && (MarkAfter(out, t) <==> MarkAfter(p, t))
  {
    hide MarkAfter, Then, MarkedLast;
    if p != [] {
      var front, s := p[..|p| - 1], p[|p| - 1];
      SectionsKeepTextAndMarks(front, t);
      assert p == front + [s];
      MarkAfterMore(front, s, t);
      TextOfMore(front, s);
      ThenNothing(TextOf(front), s.text);
      var out := SectionsOf(front);
      hide TextOf;
      if s.text != "" {
        TextOfMore(out, s);
        MarkAfterMore(out, s, t);
      } else if s.cache {
        MarkingKeeps(out, t);
      }
    } else {
      NoMarkAfter(t);
    }
  }

  /** Marking the last section marks the text so far, and leaves all texts alone. */
  lemma MarkingKeeps(p: Prompt, t: string)
    ensures TextOf(MarkedLast(p)) == TextOf(p) && (MarkedLast(p) == [] <==> p == [])
    ensures (forall s :: s in p ==> s.text != "") ==> forall s :: s in MarkedLast(p) ==> s.text != ""
    ensures MarkAfter(MarkedLast(p), t) <==> MarkAfter(p, t) || (p != [] && t == TextOf(p))
  {
    hide MarkAfter, TextOf;
    if p != [] {
      var begin, last := p[..|p| - 1], p[|p| - 1];
      assert p == begin + [last];
      MarkingLast(begin, last);
      MarkAfterMore(begin, last, t);
      MarkAfterMore(begin, last.(cache := true), t);
    }
  }

  lemma ThenNothing(a: string, b: string)
    ensures Then(a, "") == a && (Then(a, b) == "" <==> a == "" && b == "")
  {
  }

  lemma NoMarkAfter(t: string)
    ensures !MarkAfter([], t)
  {
  }

  /** The texts, one after the other, behind a text. */
  function FollowedBy(t: string, texts: seq<string>): string {
    if texts == [] then t else Then(FollowedBy(t, texts[..|texts| - 1]), texts[|texts| - 1])
  }

  /** Adding extends the text and moves no mark. */
  lemma {:induction false} AddKeepsMarks(p: Prompt, texts: seq<string>, t: string)
    ensures TextOf(Added(p, texts)) == FollowedBy(TextOf(p), texts)
    ensures MarkAfter(Added(p, texts), t) <==> MarkAfter(p, t)
  {
    hide MarkAfter, Then;
    if texts != [] {
      var out, s := Added(p, texts[..|texts| - 1]), Section(texts[|texts| - 1], false);
      AddKeepsMarks(p, texts[..|texts| - 1], t);
      MarkAfterMore(out, s, t);
      TextOfMore(out, s);
      ThenNothing(TextOf(out), s.text);
    }
  }

  method Break(p: Prompt) returns (out: Prompt)
    ensures out == MarkedLast(p)
  {
    if |p| == 0 { return p; }
    out := p[..|p| - 1] + [p[|p| - 1].(cache := true)];
  }

  /** A break marks the text so far, and leaves text and other marks alone. */
  lemma BreakMarksTheEnd(p: Prompt, t: string)
    requires p != []
    ensures TextOf(MarkedLast(p)) == TextOf(p)
    ensures MarkAfter(MarkedLast(p), t) <==> MarkAfter(p, t) || t == TextOf(p)
  {
    MarkingKeeps(p, t);
  }

  lemma {:induction false} UncachedKeepsText(p: Prompt)
    ensures TextOf(Uncached(p)) == TextOf(p)
  {
    if p != [] {
      UncachedKeepsText(p[..|p| - 1]);
      assert Uncached(p)[..|p| - 1] == Uncached(p[..|p| - 1]);
    }
  }

  // ----- the clamp

  function Marks(p: Prompt): (n: nat)
    ensures n <= |p|
  {
    if p == [] then 0 else (if p[0].cache then 1 else 0) + Marks(p[1..])
  }

  /** Only the last n marks. */
  function Clamped(p: Prompt, n: nat): Prompt {
    if p == [] then []
    else [p[0].(cache := p[0].cache && Marks(p) <= n)] + Clamped(p[1..], n)
  }

  lemma ClampFits(p: Prompt, n: nat)
    ensures Marks(p) <= n ==> Clamped(p, n) == p
    ensures |Clamped(p, n)| == |p|
  {
    if p != [] { ClampFits(p[1..], n); }
  }

  /** At most n marks are left, all of them if there are no more; a mark goes only if n later ones stay;
      the text does not change. */
  lemma {:induction false} ClampKeepsTheLatest(p: Prompt, n: nat, i: nat)
    requires i < |p|
    ensures var r := Clamped(p, n);
      && |r| == |p| && r[i].text == p[i].text
      && Marks(r) == (if Marks(p) <= n then Marks(p) else n)
      && (r[i].cache <==> p[i].cache && Marks(p[i..]) <= n)
  {
    ClampFits(p, n);
    if |p| > 1 { ClampKeepsTheLatest(p[1..], n, if i > 0 then i - 1 else 0); }
    assert p[0..] == p;
    if i > 0 { assert p[1..][i - 1..] == p[i..]; }
  }

  lemma ClampedSplit(p: Prompt, i: nat, n: nat)
    requires i < |p|
    ensures |Clamped(p[i..], n)| == |p| - i
    ensures Clamped(p[i..], n) == [p[i].(cache := p[i].cache && Marks(p[i..]) <= n)] + Clamped(p[i + 1..], n)
    ensures Marks(p[i..]) == (if p[i].cache then 1 else 0) + Marks(p[i + 1..])
  {
    assert p[i..][1..] == p[i + 1..];
    ClampFits(p[i..], n);
  }

  method ClampMarks(a: array<Section>, n: nat)
    modifies a
    ensures a[..] == Clamped(old(a[..]), n)
  {
    hide Clamped, Marks;
    ghost var p := a[..];
    var marks := CountMarks(a);
    for i := 0 to a.Length
      invariant a[i..] == p[i..] && marks == Marks(p[i..])
      invariant Clamped(p, n) == a[..i] + Clamped(p[i..], n)
    {
      assert p[i..][0] == p[i] == a[i];
      if marks <= n {
        ClampFits(p[i..], n);
        assert a[..] == a[..i] + a[i..];
        return;
      }
      ClampedSplit(p, i, n);
      if a[i].cache {
        a[i] := a[i].(cache := false);
        marks := marks - 1;
      }
      assert a[..i + 1] == a[..i] + [p[i].(cache := p[i].cache && Marks(p[i..]) <= n)];
      assert a[i + 1..] == p[i + 1..];
      assert Clamped(p, n) == a[..i + 1] + Clamped(p[i + 1..], n);
    }
    NoneToClamp(n);
    assert p[a.Length..] == [] && a[..] == a[..a.Length] + [];
  }

  lemma NoneToClamp(n: nat)
    ensures Clamped([], n) == []
  {
  }

  method CountMarks(a: array<Section>) returns (marks: nat)
    ensures marks == Marks(a[..])
  {
    hide Clamped;
    marks := 0;
    assert a[..] == a[0..];
    for i := 0 to a.Length
      invariant Marks(a[..]) == marks + Marks(a[i..])
    {
      assert a[i..][1..] == a[i + 1..];
      if a[i].cache { marks := marks + 1; }
    }
  }

  // ----- the system blocks

  /** unicode.IsSpace. */
  predicate IsSpace(c: char) {
    || '\t' <= c <= '\r' || c == ' ' || c == '\U{85}' || c == '\U{A0}' || c == '\U{1680}'
    || '\U{2000}' <= c <= '\U{200A}' || c == '\U{2028}' || c == '\U{2029}' || c == '\U{202F}' || c == '\U{205F}' || c == '\U{3000}'
  }

  predicate Blank(s: string) { forall i :: 0 <= i < |s| ==> IsSpace(s[i]) }

  /** A content block of a request: its type, its text or other content, and whether it carries a cache mark. */
  datatype Block = Block(kind: string, body: string, mark: bool)

  function Whole(blocks: seq<Block>): string {
    if blocks == [] then "" else Whole(blocks[..|blocks| - 1]) + blocks[|blocks| - 1].body
  }

  function BlockMarks(blocks: seq<Block>): nat {
    if blocks == [] then 0 else BlockMarks(blocks[..|blocks| - 1]) + if blocks[|blocks| - 1].mark then 1 else 0
  }

  datatype Building = Building(blocks: seq<Block>, carried: string, marked: bool)

  function Separator(p: Prompt, k: nat): string { if 0 < k < |p| then "\n\n" else "" }

  /** After the first k sections; blank text is carried into the next block. */
  function Built(p: Prompt, k: nat): Building
    requires k <= |p|
  {
    if k == 0 then Building([], "", false)
    else
      var b, s := Built(p, k - 1), p[k - 1];
      var text := b.carried + s.text + Separator(p, k);
      if Blank(text) then b.(carried := text)
      else Building(b.blocks + [Block("text", text, s.cache)], "", b.marked || s.cache)
  }

  /** None if no mark found a block. */
  function SystemBlocks(p: Prompt): Option<seq<Block>> {
    var b := Built(p, |p|);
    if !b.marked || b.blocks == [] then None
    else
      var n := |b.blocks| - 1;
      Some(b.blocks[n := b.blocks[n].(body := b.blocks[n].body + b.carried)])
  }

  method MakeSystemBlocks(p: Prompt) returns (r: Option<seq<Block>>)
    ensures r == SystemBlocks(p)
  {
    hide Blank;
    var blocks: seq<Block> := [];
    var carried, marked := "", false;
    for i := 0 to |p|
      invariant Building(blocks, carried, marked) == Built(p, i)
    {
      var text := carried + p[i].text;
      if i + 1 < |p| { text := text + "\n\n"; }
      assert text == carried + p[i].text + Separator(p, i + 1);
      if Blank(text) {
        carried := text;
        continue;
      }
      carried := "";
      blocks := blocks + [Block("text", text, p[i].cache)];
      marked := marked || p[i].cache;
    }
    MarkedHasBlocks(p, |p|);
    if !marked { return None; }
    var n := |blocks| - 1;
    if carried == "" { assert blocks[n].body + "" == blocks[n].body && blocks[n := blocks[n]] == blocks; }
    if carried != "" { blocks := blocks[n := blocks[n].(body := blocks[n].body + carried)]; }
    return Some(blocks);
  }

  lemma MarkedHasBlocks(p: Prompt, k: nat)
    requires k <= |p|
    ensures Built(p, k).marked ==> Built(p, k).blocks != []
    ensures Built(p, k).marked <==> BlockMarks(Built(p, k).blocks) > 0
  {
    hide Blank;
    if k > 0 { MarkedHasBlocks(p, k - 1); }
  }

  lemma WholeMore(blocks: seq<Block>, b: Block)
    ensures Whole(blocks + [b]) == Whole(blocks) + b.body
    ensures BlockMarks(blocks + [b]) == BlockMarks(blocks) + if b.mark then 1 else 0
  {
    assert (blocks + [b])[..|blocks|] == blocks;
  }

  lemma NonEmptyText(p: Prompt)
    requires forall s :: s in p ==> s.text != ""
    ensures p != [] ==> TextOf(p) != ""
  {
    if p != [] { NonEmptyText(p[..|p| - 1]); }
  }

  /** Blocks and what is carried make up the text so far. */
  lemma BuiltIsTheText(p: Prompt, k: nat)
    requires k <= |p| && forall s :: s in p ==> s.text != ""
    ensures Whole(Built(p, k).blocks) + Built(p, k).carried == TextOf(p[..k]) + Separator(p, k)
  {
    hide Blank, TextOf, Separator;
    if k == 0 {
      assert p[..0] == [] && TextOf([]) == "" && Separator(p, 0) == "" by { NoText(p); }
    } else {
      BuiltIsTheText(p, k - 1);
      TextMore(p, k);
      var b, s := Built(p, k - 1), p[k - 1];
      Regroup(Whole(b.blocks), b.carried, s.text, Separator(p, k));
      WholeMore(b.blocks, Block("text", b.carried + s.text + Separator(p, k), s.cache));
    }
  }

  lemma NoText(p: Prompt)
    ensures TextOf([]) == "" && Separator(p, 0) == ""
  {
  }

  lemma BuiltAreNotBlank(p: Prompt, k: nat)
    requires k <= |p|
    ensures forall i :: 0 <= i < |Built(p, k).blocks| ==> !Blank(Built(p, k).blocks[i].body)
  {
    hide Blank, Separator;
    if k > 0 { BuiltAreNotBlank(p, k - 1); }
  }

  lemma TextMore(p: Prompt, k: nat)
    requires 0 < k <= |p| && forall s :: s in p ==> s.text != ""
    ensures TextOf(p[..k]) == TextOf(p[..k - 1]) + Separator(p, k - 1) + p[k - 1].text
  {
    assert p[..k][..k - 1] == p[..k - 1];
    NonEmptyText(p[..k - 1]);
    if k == 1 { assert p[..0] == []; }
  }

  lemma MarksSplit(p: Prompt, k: nat)
    requires k < |p|
    ensures Marks(p[..k + 1]) == Marks(p[..k]) + if p[k].cache then 1 else 0
  {
    if k > 0 {
      assert p[..k + 1][1..] == p[1..][..k] && p[..k][1..] == p[1..][..k - 1];
      MarksSplit(p[1..], k - 1);
    } else {
      assert p[..1][1..] == [] && p[..0] == [];
    }
  }

  lemma BuiltMarks(p: Prompt, k: nat)
    requires k <= |p|
    ensures BlockMarks(Built(p, k).blocks) <= Marks(p[..k])
  {
    hide Blank, Marks;
    if k > 0 {
      BuiltMarks(p, k - 1);
      MarksSplit(p, k - 1);
      var b, s := Built(p, k - 1), p[k - 1];
      WholeMore(b.blocks, Block("text", b.carried + s.text + Separator(p, k), s.cache));
    }
  }

  lemma BlankAround(s: string, t: string)
    requires !Blank(s)
    ensures !Blank(s + t)
  {
    var i :| 0 <= i < |s| && !IsSpace(s[i]);
    assert (s + t)[i] == s[i];
  }

  /** Main result. The system blocks read, put together, exactly as the prompt does without marks; none is
      blank; and they carry no more marks than the sections, but at least one. */
  lemma BlocksAreTheText(p: Prompt)
    requires forall s :: s in p ==> s.text != ""
    ensures SystemBlocks(p).Some? ==>
      var blocks := SystemBlocks(p).value;
      && Whole(blocks) == TextOf(p)
      && (forall i :: 0 <= i < |blocks| ==> !Blank(blocks[i].body))
      && 0 < BlockMarks(blocks) <= Marks(p)
  {
    hide Blank, Built, TextOf, Whole, BlockMarks, Marks;
    var b := Built(p, |p|);
    BuiltIsTheText(p, |p|);
    BuiltAreNotBlank(p, |p|);
    BuiltMarks(p, |p|);
    MarkedHasBlocks(p, |p|);
    assert p[..|p|] == p;
    if b.marked && b.blocks != [] { WithCarried(b.blocks, b.carried); }
    assert TextOf(p) + "" == TextOf(p);
  }

  /** What is left over goes to the end of the last block. */
  lemma WithCarried(blocks: seq<Block>, carried: string)
    requires blocks != [] && forall i :: 0 <= i < |blocks| ==> !Blank(blocks[i].body)
    ensures var n := |blocks| - 1;
      var r := blocks[n := blocks[n].(body := blocks[n].body + carried)];
      && Whole(r) == Whole(blocks) + carried && BlockMarks(r) == BlockMarks(blocks)
      && forall i :: 0 <= i < |r| ==> !Blank(r[i].body)
  {
    hide Blank;
    var n := |blocks| - 1;
    var r := blocks[n := blocks[n].(body := blocks[n].body + carried)];
    assert r[..n] == blocks[..n];
    Associate(Whole(blocks[..n]), blocks[n].body, carried);
    BlankAround(blocks[n].body, carried);
  }

  /** Where no section is blank there are blocks exactly if there is a mark, one for each section, with its
      text and its mark, and the blank line between where more follows. */
  lemma {:induction k} EachSectionIsABlock(p: Prompt, k: nat)
    requires k <= |p| && forall s :: s in p ==> !Blank(s.text)
    ensures var b := Built(p, k);
      && |b.blocks| == k && b.carried == "" && (b.marked <==> exists i :: 0 <= i < k && p[i].cache)
      && forall i :: 0 <= i < k ==> b.blocks[i] == Block("text", p[i].text + Separator(p, i + 1), p[i].cache)
  {
    hide Blank, Separator;
    if k > 0 {
      EachSectionIsABlock(p, k - 1);
      var s := p[k - 1];
      assert s in p && "" + s.text == s.text;
      BlankAround(s.text, Separator(p, k));
    }
  }

  lemma BlocksJustWhenMarked(p: Prompt, i: nat)
    requires i < |p| && forall s :: s in p ==> !Blank(s.text)
    ensures SystemBlocks(p).Some? <==> exists j :: 0 <= j < |p| && p[j].cache
    ensures SystemBlocks(p).Some? ==>
      && |SystemBlocks(p).value| == |p|
      && SystemBlocks(p).value[i] == Block("text", p[i].text + (if i + 1 < |p| then "\n\n" else ""), p[i].cache)
  {
    hide Blank, Built;
    EachSectionIsABlock(p, |p|);
    var b := Built(p, |p|);
    assert b.blocks[|p| - 1].body + "" == b.blocks[|p| - 1].body;
  }

  // ----- the request

  /** A message as given: a system message's text, or the content blocks made of another's. */
  datatype Message = SystemMessage(text: string) | ChatMessage(blocks: seq<Block>)

  datatype System = NoSystem | Blocks(blocks: seq<Block>) | Plain(text: string)

  datatype Request = Request(system: System, messages: seq<seq<Block>>)

  function Merged(p: Prompt, msgs: seq<Message>): Prompt {
    if msgs == [] then p
    else
      var out, m := Merged(p, msgs[..|msgs| - 1]), msgs[|msgs| - 1];
      if m.ChatMessage? || m.text == "" then out
      else if out == [] then [Section(m.text, false)]
      else out[|out| - 1 := out[|out| - 1].(text := out[|out| - 1].text + "\n\n" + m.text)]
  }

  function Sent(msgs: seq<Message>): seq<seq<Block>> {
    if msgs == [] then []
    else
      var m := msgs[|msgs| - 1];
      Sent(msgs[..|msgs| - 1]) + if m.ChatMessage? && m.blocks != [] then [m.blocks] else []
  }

  /** The last message of the cached prefix, as sent; or -1. */
  function BreakIndex(msgs: seq<Message>, prefix: int): (k: int)
    ensures -1 <= k
  {
    if prefix <= 0 then -1
    else |Sent(if prefix > |msgs| then msgs else msgs[..prefix])| - 1
  }

  predicate Cacheable(kind: string) {
    kind == "text" || kind == "image" || kind == "tool_use" || kind == "tool_result" || kind == "document"
  }

  function MarkedBlocks(blocks: seq<Block>): seq<Block> {
    if blocks == [] then []
    else
      var n := |blocks| - 1;
      if Cacheable(blocks[n].kind) then blocks[n := blocks[n].(mark := true)] else MarkedBlocks(blocks[..n]) + [blocks[n]]
  }

  function RequestFor(p: Prompt, msgs: seq<Message>, prefix: int): Request {
    var k := BreakIndex(msgs, prefix);
    var sections := Clamped(Merged(SectionsOf(p), msgs), if k >= 0 then MAX_CACHE_BREAKPOINTS - 1 else MAX_CACHE_BREAKPOINTS);
    var sent, blocks := Sent(msgs), SystemBlocks(sections);
    Request(
      if sections == [] then NoSystem else if blocks.Some? then Blocks(blocks.value) else Plain(TextOf(sections)),
      if 0 <= k < |sent| then sent[k := MarkedBlocks(sent[k])] else sent)
  }

  method MarkLastCacheable(a: array<Block>)
    modifies a
    ensures a[..] == MarkedBlocks(old(a[..]))
  {
    ghost var was := a[..];
    var i := a.Length;
    assert was[..i] == was && was[i..] == [];
    while i > 0
      invariant 0 <= i <= a.Length && a[..] == was
      invariant MarkedBlocks(was) == MarkedBlocks(was[..i]) + was[i..]
    {
      i := i - 1;
      assert was[..i + 1][..i] == was[..i] && was[i..] == [was[i]] + was[i + 1..];
      if Cacheable(a[i].kind) {
        a[i] := a[i].(mark := true);
        assert a[..] == was[..i + 1][i := was[i].(mark := true)] + was[i + 1..];
        return;
      }
      assert MarkedBlocks(was[..i + 1]) + was[i + 1..] == MarkedBlocks(was[..i]) + ([was[i]] + was[i + 1..]);
    }
  }

  method BuildRequest(p: Prompt, msgs: seq<Message>, prefix: int) returns (r: Request)
    ensures r == RequestFor(p, msgs, prefix)
  {
    hide SectionsOf, Clamped, SystemBlocks, MarkedBlocks, TextOf, Merged, Sent;
    var sections := Sections(p);
    var messages, bpIndex;
    sections, messages, bpIndex := Convert(sections, msgs, prefix);
    var msgBreak := prefix > 0 && bpIndex >= 0;
    var budget := MAX_CACHE_BREAKPOINTS;
    if msgBreak { budget := budget - 1; }
    var a := new Section[|sections|](i requires 0 <= i < |sections| => sections[i]);
    assert a[..] == sections;
    ClampMarks(a, budget);
    var blocks := MakeSystemBlocks(a[..]);
    var system := NoSystem;
    if |a[..]| > 0 { system := if blocks.Some? then Blocks(blocks.value) else Plain(TextOf(a[..])); }
    if msgBreak && bpIndex < |messages| {
      var m := new Block[|messages[bpIndex]|](i requires 0 <= i < |messages[bpIndex]| => messages[bpIndex][i]);
      assert m[..] == messages[bpIndex];
      MarkLastCacheable(m);
      messages := messages[bpIndex := m[..]];
    }
    r := Request(system, messages);
  }

  /** System messages go into the last section, the others are sent; bpIndex is where the cached prefix ends. */
  method Convert(p: Prompt, msgs: seq<Message>, prefix: int) returns (sections: Prompt, messages: seq<seq<Block>>, bpIndex: int)
    ensures sections == Merged(p, msgs) && messages == Sent(msgs) && bpIndex == BreakIndex(msgs, prefix)
  {
    sections, messages, bpIndex := p, [], -1;
    for i := 0 to |msgs|
      invariant sections == Merged(p, msgs[..i]) && messages == Sent(msgs[..i])
      invariant bpIndex == if 0 < prefix <= i then |Sent(msgs[..prefix])| - 1 else -1
    {
      assert msgs[..i + 1][..i] == msgs[..i];
      match msgs[i] {
        case SystemMessage(text) =>
          if text != "" {
            var n := |sections|;
            if n > 0 {
              sections := sections[n - 1 := sections[n - 1].(text := sections[n - 1].text + "\n\n" + text)];
            } else {
              sections := [Section(text, false)];
            }
          }
        case ChatMessage(blocks) =>
          if |blocks| > 0 { messages := messages + [blocks]; }
      }
      if i + 1 == prefix { bpIndex := |messages| - 1; }
    }
    assert msgs[..|msgs|] == msgs;
    if prefix > |msgs| { bpIndex := |messages| - 1; }
  }

  // ----- four marks, and the same text

  function MessageMarks(messages: seq<seq<Block>>): nat {
    if messages == [] then 0 else MessageMarks(messages[..|messages| - 1]) + BlockMarks(messages[|messages| - 1])
  }

  function SystemMarks(s: System): nat { if s.Blocks? then BlockMarks(s.blocks) else 0 }

  function SystemText(s: System): string {
    match s
    case NoSystem => ""
    case Blocks(blocks) => Whole(blocks)
    case Plain(text) => text
  }

  /** The prompt's text and the system messages' texts, blank lines between. */
  function FullText(p: Prompt, msgs: seq<Message>): string {
    if msgs == [] then TextOf(p)
    else
      var m := msgs[|msgs| - 1];
      Then(FullText(p, msgs[..|msgs| - 1]), if m.SystemMessage? then m.text else "")
  }

  lemma MergedText(p: Prompt, msgs: seq<Message>)
    requires forall s :: s in p ==> s.text != ""
    ensures TextOf(Merged(p, msgs)) == FullText(p, msgs) && forall s :: s in Merged(p, msgs) ==> s.text != ""
  {
    if msgs != [] {
      MergedText(p, msgs[..|msgs| - 1]);
      var out, m := Merged(p, msgs[..|msgs| - 1]), msgs[|msgs| - 1];
      NonEmptyText(out);
      if m.SystemMessage? && m.text != "" && out != [] { LastGrows(out, m.text); }
    }
  }

  lemma LastGrows(p: Prompt, more: string)
    requires p != [] && forall s :: s in p ==> s.text != ""
    ensures var last := p[|p| - 1];
      TextOf(p[|p| - 1 := last.(text := last.text + "\n\n" + more)]) == TextOf(p) + "\n\n" + more
  {
    var n := |p| - 1;
    var text := p[n].text + "\n\n" + more;
    var q := p[n := p[n].(text := text)];
    assert q[..n] == p[..n];
    var f := TextOf(p[..n]);
    assert f + "\n\n" + text == f + "\n\n" + p[n].text + "\n\n" + more;
  }

  lemma ClampKeepsText(p: Prompt, n: nat)
    ensures TextOf(Clamped(p, n)) == TextOf(p) && |Clamped(p, n)| == |p|
    ensures Marks(Clamped(p, n)) <= n
    ensures (forall s :: s in p ==> s.text != "") ==> forall s :: s in Clamped(p, n) ==> s.text != ""
  {
    hide Clamped, Marks;
    ClampFits(p, n);
    if p == [] {
      NoneToClamp(n);
      assert Marks([]) == 0 by { NoMarks(); }
    } else {
      ClampKeepsTheLatest(p, n, 0);
      forall i | 0 <= i < |p| ensures Clamped(p, n)[i].text == p[i].text { ClampKeepsTheLatest(p, n, i); }
      SameTexts(p, Clamped(p, n));
    }
  }

  lemma NoMarks()
    ensures Marks([]) == 0
  {
  }

  lemma SameTexts(p: Prompt, q: Prompt)
    requires |p| == |q| && forall i :: 0 <= i < |p| ==> p[i].text == q[i].text
    ensures TextOf(p) == TextOf(q)
  {
    if p != [] { SameTexts(p[..|p| - 1], q[..|q| - 1]); }
  }

  lemma OneMark(blocks: seq<Block>)
    ensures BlockMarks(MarkedBlocks(blocks)) <= BlockMarks(blocks) + 1
  {
    if blocks != [] {
      var n := |blocks| - 1;
      var front, last := blocks[..n], blocks[n];
      OneMark(front);
      assert (MarkedBlocks(front) + [last])[..|MarkedBlocks(front)|] == MarkedBlocks(front);
      assert blocks[n := last.(mark := true)][..n] == front;
    }
  }

  lemma MarksOfOneChanged(messages: seq<seq<Block>>, k: nat)
    requires k < |messages| && MessageMarks(messages) == 0
    ensures MessageMarks(messages[k := MarkedBlocks(messages[k])]) <= 1
  {
    var n := |messages| - 1;
    var q := messages[k := MarkedBlocks(messages[k])];
    if k < n {
      assert q[..n] == messages[..n][k := MarkedBlocks(messages[k])];
      MarksOfOneChanged(messages[..n], k);
    } else {
      assert q[..n] == messages[..n];
      OneMark(messages[n]);
    }
  }

  predicate Unmarked(msgs: seq<Message>) { forall m :: m in msgs && m.ChatMessage? ==> BlockMarks(m.blocks) == 0 }

  lemma SentUnmarked(msgs: seq<Message>)
    requires Unmarked(msgs)
    ensures MessageMarks(Sent(msgs)) == 0
  {
    if msgs != [] {
      var front, m := msgs[..|msgs| - 1], msgs[|msgs| - 1];
      SentUnmarked(front);
      assert Sent(front) + [] == Sent(front);
      if m.ChatMessage? && m.blocks != [] { assert Sent(msgs)[..|Sent(front)|] == Sent(front); }
    }
  }

  /** Main result. For every prompt, messages and cached prefix: the request carries at most four marks in
      all, of which at most one is on a message; no system block is blank; and the system part reads as the
      prompt and the system messages do without marks. */
  lemma FourMarksSameText(p: Prompt, msgs: seq<Message>, prefix: int)
    requires Unmarked(msgs)
    ensures var r := RequestFor(p, msgs, prefix);
      && SystemMarks(r.system) + MessageMarks(r.messages) <= MAX_CACHE_BREAKPOINTS
      && MessageMarks(r.messages) <= 1
      && SystemText(r.system) == FullText(p, msgs)
      && (r.system.Blocks? ==> forall i :: 0 <= i < |r.system.blocks| ==> !Blank(r.system.blocks[i].body))
  {
    hide Blank, SystemBlocks, Clamped, Merged, MarkedBlocks;
    var k := BreakIndex(msgs, prefix);
    var sections := Merged(SectionsOf(p), msgs);
    SectionsKeepTextAndMarks(p, "x");
    MergedText(SectionsOf(p), msgs);
    SameStart(SectionsOf(p), p, msgs);
    var n: nat := if k >= 0 then MAX_CACHE_BREAKPOINTS - 1 else MAX_CACHE_BREAKPOINTS;
    ClampKeepsText(sections, n);
    BlocksAreTheText(Clamped(sections, n));
    SentUnmarked(msgs);
    if 0 <= k < |Sent(msgs)| { MarksOfOneChanged(Sent(msgs), k); }
  }

  lemma SameStart(p: Prompt, q: Prompt, msgs: seq<Message>)
    requires TextOf(p) == TextOf(q)
    ensures FullText(p, msgs) == FullText(q, msgs)
  {
    if msgs != [] { SameStart(p, q, msgs[..|msgs| - 1]); }
  }

  // ----- the messages of the request

  /** How many of the messages are sent: those that are no system messages and have content. */
  function CountSent(msgs: seq<Message>): (n: nat)
    ensures n <= |msgs|
  {
    if msgs == [] then 0
    else CountSent(msgs[..|msgs| - 1]) + if msgs[|msgs| - 1].ChatMessage? && msgs[|msgs| - 1].blocks != [] then 1 else 0
  }

  /** Sent are just the chat messages with content, each in the place its number among them says. */
  lemma SentInOrder(msgs: seq<Message>, i: nat)
    requires i < |msgs|
    ensures |Sent(msgs)| == CountSent(msgs)
    ensures msgs[i].ChatMessage? && msgs[i].blocks != [] ==>
      CountSent(msgs[..i]) < |Sent(msgs)| && Sent(msgs)[CountSent(msgs[..i])] == msgs[i].blocks
  {
    var n := |msgs| - 1;
    if n > 0 {
      SentInOrder(msgs[..n], if i < n then i else 0);
    } else {
      assert msgs[..0] == [];
    }
    if i < n { assert msgs[..n][..i] == msgs[..i]; }
  }

  lemma SentCount(msgs: seq<Message>)
    ensures |Sent(msgs)| == CountSent(msgs)
  {
    if msgs != [] { SentCount(msgs[..|msgs| - 1]); }
  }

  /** The last block that can carry a mark gets one, and nothing else changes. */
  lemma {:induction false} OnlyTheLastIsMarked(blocks: seq<Block>, i: nat)
    requires i < |blocks|
    ensures var r, kinds := MarkedBlocks(blocks), {"text", "image", "tool_use", "tool_result", "document"};
      && |r| == |blocks| && r[i].kind == blocks[i].kind && r[i].body == blocks[i].body
      && (r[i].mark <==> blocks[i].mark || (blocks[i].kind in kinds && forall j :: i < j < |blocks| ==> blocks[j].kind !in kinds))
  {
    var n := |blocks| - 1;
    if !Cacheable(blocks[n].kind) {
      if n > 0 { OnlyTheLastIsMarked(blocks[..n], if i < n then i else 0); }
      assert i < n ==> forall j :: i < j < n ==> blocks[..n][j] == blocks[j];
    }
  }

  /** Main result. The messages of a request are the chat messages that have content, each once and in order.
      With a cached prefix that sends a message, the last one sent from it has its last block that can carry
      a mark marked; no other message changes. */
  lemma MessagesAreKept(p: Prompt, msgs: seq<Message>, prefix: int, i: nat)
    requires i < |msgs| && msgs[i].ChatMessage? && msgs[i].blocks != []
    ensures var r, k := RequestFor(p, msgs, prefix).messages, CountSent(msgs[..i]);
      var last := CountSent(if prefix <= 0 then [] else if prefix > |msgs| then msgs else msgs[..prefix]) - 1;
      && |r| == CountSent(msgs) && k < |r|
      && r[k] == if k == last then MarkedBlocks(msgs[i].blocks) else msgs[i].blocks
  {
    hide Clamped, Merged, SectionsOf, SystemBlocks, MarkedBlocks, TextOf, Sent, CountSent;
    SentInOrder(msgs, i);
    SentCount(if prefix <= 0 then [] else if prefix > |msgs| then msgs else msgs[..prefix]);
    NoneSent();
  }

  lemma NoneSent()
    ensures CountSent([]) == 0
  {
  }
}
