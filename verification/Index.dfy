// The sidecar index of a stored session: the tokens of its text, and a filter that may say "no" only if a
// scan of the session would (sessionstore/index.go, sessionstore/sessionstore.go). A char is a code point.
module Indexing {
  import opened Text

  const MAX_INDEX_TOKENS: nat := 4096
  const MAX_TOKEN_LEN: nat := 64

  /** What the Unicode tables say of a code point: its lower case, whether it is a letter or digit,
      whether it is white space, and its length in UTF-8. */
  datatype Alphabet = Alphabet(lower: char -> char, wordy: char -> bool, space: char -> bool, width: char -> nat)

  ghost predicate Sane(a: Alphabet) {
    && (forall c :: a.lower(a.lower(c)) == a.lower(c))
    && (forall c :: a.wordy(c) ==> !a.space(c))
  }

  function Lower(a: Alphabet, s: string): (t: string)
    ensures |t| == |s| && forall i :: 0 <= i < |s| ==> t[i] == a.lower(s[i])
  {
    seq(|s|, i requires 0 <= i < |s| => a.lower(s[i]))
  }

  function Width(a: Alphabet, s: string): nat {
    if s == "" then 0 else Width(a, s[..|s| - 1]) + a.width(s[|s| - 1])
  }

  // ----- runs of characters of one kind

  predicate All(kind: char -> bool, s: string) { forall i :: 0 <= i < |s| ==> kind(s[i]) }

  /** The closed runs of a text, and the one still open at its end. */
  datatype Split = Split(runs: seq<string>, open: string)

  function SplitAt(kind: char -> bool, s: string): Split {
    if s == "" then Split([], "")
    else
      var p, c := SplitAt(kind, s[..|s| - 1]), s[|s| - 1];
      if kind(c) then Split(p.runs, p.open + [c])
      else Split(if p.open == "" then p.runs else p.runs + [p.open], "")
  }

  /** strings.FieldsFunc: the maximal runs of the kind. */
  function Runs(kind: char -> bool, s: string): seq<string> {
    var p := SplitAt(kind, s);
    if p.open == "" then p.runs else p.runs + [p.open]
  }

  /** t occurs in s. */
  ghost predicate Within(s: string, t: string) { exists u, v :: s == u + t + v }

  predicate Contains(s: string, t: string)
    ensures Contains(s, t) <==> Within(s, t)
  {
    ContainsIsWithin(s, t);
    Index(s, t) >= 0
  }

  lemma ContainsIsWithin(s: string, t: string)
    ensures Index(s, t) >= 0 <==> Within(s, t)
  {
    var i := Index(s, t);
    if i >= 0 {
      AtSplit(s, t, i);
      assert s == s[..i] + t + s[i + |t|..];
    }
    if Within(s, t) {
      var u, v :| s == u + t + v;
      assert At(s, t, |u|);
    }
  }

  lemma WithinTrans(r: string, s: string, t: string)
    requires Within(r, s) && Within(s, t)
    ensures Within(r, t)
  {
    var u, v :| r == u + s + v;
    var u', v' :| s == u' + t + v';
    assert r == (u + u') + t + (v' + v);
  }

  lemma WithinMore(s: string, t: string, more: string)
    requires Within(s, t)
    ensures Within(s + more, t)
  {
    var u, v :| s == u + t + v;
    assert s + more == u + t + (v + more);
  }

  lemma SuffixWithin(s: string, k: nat)
    requires k <= |s|
    ensures Within(s, s[k..])
  {
    assert s == s[..k] + s[k..] + "";
  }

  /** The open run is the longest suffix of the kind. */
  lemma OpenIsSuffix(kind: char -> bool, s: string)
    ensures var o := SplitAt(kind, s).open;
      |o| <= |s| && s[|s| - |o|..] == o && All(kind, o) && (|o| < |s| ==> !kind(s[|s| - |o| - 1]))
  {
    if s != "" { OpenIsSuffix(kind, s[..|s| - 1]); }
  }

  /** Every run is a nonempty piece of the text, of the kind throughout. */
  lemma {:induction false} RunsAreWithin(kind: char -> bool, s: string, r: string)
    ensures r in SplitAt(kind, s).runs || r in Runs(kind, s) ==> r != "" && Within(s, r) && All(kind, r)
  {
    OpenIsSuffix(kind, s);
    SuffixWithin(s, |s| - |SplitAt(kind, s).open|);
    if s != "" {
      var front := s[..|s| - 1];
      RunsAreWithin(kind, front, r);
      assert front + [s[|s| - 1]] == s;
      if Within(front, r) { WithinMore(front, r, [s[|s| - 1]]); }
    }
  }

  lemma EndsInOpen(kind: char -> bool, s: string, k: nat)
    requires k <= |s| && All(kind, s[k..])
    ensures |SplitAt(kind, s).open| >= |s| - k
    ensures Within(SplitAt(kind, s).open, s[k..])
  {
    OpenIsSuffix(kind, s);
    var o := SplitAt(kind, s).open;
    forall j | k <= j < |s| ensures kind(s[j]) { assert s[k..][j - k] == s[j]; }
    assert s[k..] == o[|o| - (|s| - k)..];
    SuffixWithin(o, |o| - (|s| - k));
  }

  ghost predicate InSome(runs: seq<string>, t: string) { exists r :: r in runs && Within(r, t) }

  /** Anything of the kind that occurs in a text occurs in one of its runs. */
  lemma {:induction false} PieceInSomeRun(kind: char -> bool, u: string, t: string, v: string)
    requires t != "" && All(kind, t)
    ensures InSome(SplitAt(kind, u + t + v).runs, t) || Within(SplitAt(kind, u + t + v).open, t)
    decreases |v|
  {
    var s := u + t + v;
    if v == "" {
      assert s[|u|..] == t;
      EndsInOpen(kind, s, |u|);
    } else {
      var front := u + t + v[..|v| - 1];
      assert s[..|s| - 1] == front;
      PieceInSomeRun(kind, u, t, v[..|v| - 1]);
      var p := SplitAt(kind, front);
      if InSome(p.runs, t) {
        var r :| r in p.runs && Within(r, t);
        assert r in SplitAt(kind, s).runs;
      } else if kind(s[|s| - 1]) {
        WithinMore(p.open, t, [s[|s| - 1]]);
      } else {
        assert p.open != "";
        assert p.open in SplitAt(kind, s).runs;
      }
    }
  }

  lemma PieceInRuns(kind: char -> bool, s: string, t: string)
    requires t != "" && All(kind, t) && Within(s, t)
    ensures InSome(Runs(kind, s), t)
  {
    var u, v :| s == u + t + v;
    PieceInSomeRun(kind, u, t, v);
    var p := SplitAt(kind, s);
    if InSome(p.runs, t) {
      var r :| r in p.runs && Within(r, t);
      assert r in Runs(kind, s);
    } else {
      assert p.open != "" && p.open in Runs(kind, s);
    }
  }

  /** A text all of the kind is its own only run. */
  lemma OneRun(kind: char -> bool, s: string)
    requires All(kind, s)
    ensures SplitAt(kind, s) == Split([], s)
    ensures s != "" ==> Runs(kind, s) == [s]
  {
    if s != "" {
      OneRun(kind, s[..|s| - 1]);
      assert s[..|s| - 1] + [s[|s| - 1]] == s;
    }
  }

  // ----- sessions, hits and the index

  datatype Meta = Meta(id: string, parent: string, title: string, created: int, updated: int, messages: nat)

  /** history: the text of each message. */
  datatype Data = Data(id: string, parent: string, title: string, created: int, updated: int, history: seq<string>)

  function MetaOf(d: Data): Meta { Meta(d.id, d.parent, d.title, d.created, d.updated, |d.history|) }

  /** Where a session matches: in its title (index -1) or in a message. */
  datatype Hit = Hit(meta: Meta, index: int)

  predicate ContainsAll(s: string, terms: seq<string>) { forall t :: t in terms ==> Contains(s, t) }

  predicate Matches(a: Alphabet, text: string, terms: seq<string>) { text != "" && ContainsAll(Lower(a, text), terms) }

  /** The first message from i on that holds all the terms. */
  function FirstMatch(a: Alphabet, history: seq<string>, terms: seq<string>, i: nat): (k: Option<nat>)
    requires i <= |history|
    ensures k.Some? ==> i <= k.value < |history| && Matches(a, history[k.value], terms)
    ensures forall j :: i <= j < (if k.Some? then k.value else |history|) ==> !Matches(a, history[j], terms)
    decreases |history| - i
  {
    if i == |history| then None else if Matches(a, history[i], terms) then Some(i) else FirstMatch(a, history, terms, i + 1)
  }

  function HitFor(a: Alphabet, d: Data, terms: seq<string>): Option<Hit> {
    if terms == [] || Matches(a, d.title, terms) then Some(Hit(MetaOf(d), -1))
    else
      match FirstMatch(a, d.history, terms, 0)
      case Some(i) => Some(Hit(MetaOf(d), i))
      case None => None
  }

  method FindHit(a: Alphabet, d: Data, terms: seq<string>) returns (h: Option<Hit>)
    ensures h == HitFor(a, d, terms)
    ensures h.Some? ==> h.value.meta == Meta(d.id, d.parent, d.title, d.created, d.updated, |d.history|)
    ensures h.Some? && h.value.index == -1 ==> terms == [] || Matches(a, d.title, terms)
    ensures h.Some? && h.value.index != -1 ==> 0 <= h.value.index < |d.history| && Matches(a, d.history[h.value.index], terms)
    ensures terms != [] && (h.Some? ==> h.value.index != -1) ==>
      !Matches(a, d.title, terms) && forall j :: 0 <= j < (if h.Some? then h.value.index else |d.history|) ==> !Matches(a, d.history[j], terms)
  {
    hide Lower, ContainsAll, Contains;
    if |terms| == 0 { return Some(Hit(MetaOf(d), -1)); }
    if d.title != "" && ContainsAll(Lower(a, d.title), terms) { return Some(Hit(MetaOf(d), -1)); }
    for i := 0 to |d.history|
      invariant FirstMatch(a, d.history, terms, 0) == FirstMatch(a, d.history, terms, i)
    {
      if d.history[i] != "" && ContainsAll(Lower(a, d.history[i]), terms) { return Some(Hit(MetaOf(d), i)); }
    }
    return None;
  }

  /** Cut at a code point so that at most MAX_TOKEN_LEN bytes are left. */
  function Cut(a: Alphabet, s: string): (t: string)
    ensures Width(a, t) <= MAX_TOKEN_LEN
    ensures Width(a, s) <= MAX_TOKEN_LEN ==> t == s
    ensures exists n :: 0 <= n <= |s| && t == s[..n] && (n < |s| ==> Width(a, s[..n + 1]) > MAX_TOKEN_LEN)
  {
    if Width(a, s) <= MAX_TOKEN_LEN then assert s == s[..|s|]; s
    else
      var t := Cut(a, s[..|s| - 1]);
      var n :| 0 <= n <= |s| - 1 && t == s[..|s| - 1][..n] && (n < |s| - 1 ==> Width(a, s[..|s| - 1][..n + 1]) > MAX_TOKEN_LEN);
      assert t == s[..n];
      assert n < |s| - 1 ==> s[..|s| - 1][..n + 1] == s[..n + 1];
      assert s[..|s|] == s;
      t
  }

  function CutAll(a: Alphabet, runs: seq<string>): (r: seq<string>)
    ensures |r| == |runs| && forall i :: 0 <= i < |r| ==> r[i] == Cut(a, runs[i])
  {
    seq(|runs|, i requires 0 <= i < |runs| => Cut(a, runs[i]))
  }

  function Tokenise(a: Alphabet, text: string): seq<string> { CutAll(a, Runs(a.wordy, Lower(a, text))) }

  function TokensOf(a: Alphabet, texts: seq<string>): seq<string> {
    if texts == [] then [] else TokensOf(a, texts[..|texts| - 1]) + Tokenise(a, texts[|texts| - 1])
  }

  function Texts(d: Data): seq<string> { [d.title] + d.history }

  /** Distinct tokens so far, and whether one came when there was no room left. */
  datatype Seen = Seen(toks: set<string>, partial: bool)

  function Noted(s: Seen, tok: string): Seen {
    if |s.toks| >= MAX_INDEX_TOKENS then s.(partial := true) else s.(toks := s.toks + {tok})
  }

  function NotedAll(s: Seen, toks: seq<string>): Seen {
    if toks == [] then s else Noted(NotedAll(s, toks[..|toks| - 1]), toks[|toks| - 1])
  }

  datatype Entry = Entry(version: int, size: int, modTime: int, meta: Meta, tokens: set<string>, partial: bool)

  const INDEX_VERSION := 1

  function BuildIndex(a: Alphabet, d: Data, size: int, modTime: int): Entry {
    var s := NotedAll(Seen({}, false), TokensOf(a, Texts(d)));
    Entry(INDEX_VERSION, size, modTime, MetaOf(d), s.toks, s.partial)
  }

  method AddText(a: Alphabet, text: string, s: Seen) returns (s': Seen)
    ensures s' == NotedAll(s, Tokenise(a, text))
  {
    hide Tokenise;
    s' := s;
    var toks := Tokenise(a, text);
    for i := 0 to |toks|
      invariant s' == NotedAll(s, toks[..i])
    {
      assert toks[..i + 1][..i] == toks[..i];
      if |s'.toks| >= MAX_INDEX_TOKENS {
        s' := s'.(partial := true);
        FullStaysFull(s, toks, i + 1);
        return;
      }
      s' := s'.(toks := s'.toks + {toks[i]});
    }
    assert toks[..|toks|] == toks;
  }

  /** Once a token found no room, the rest of the text changes nothing. */
  lemma FullStaysFull(s: Seen, toks: seq<string>, i: nat)
    requires i <= |toks|
    requires var p := NotedAll(s, toks[..i]); p.partial && |p.toks| >= MAX_INDEX_TOKENS
    ensures NotedAll(s, toks) == NotedAll(s, toks[..i])
    decreases |toks|
  {
    if i == |toks| {
      assert toks[..i] == toks;
    } else {
      assert toks[..|toks| - 1][..i] == toks[..i];
      FullStaysFull(s, toks[..|toks| - 1], i);
    }
  }

  lemma NotedConcat(s: Seen, xs: seq<string>, ys: seq<string>)
    ensures NotedAll(s, xs + ys) == NotedAll(NotedAll(s, xs), ys)
    decreases |ys|
  {
    if ys == [] {
      assert xs + ys == xs;
    } else {
      assert (xs + ys)[..|xs + ys| - 1] == xs + ys[..|ys| - 1];
      NotedConcat(s, xs, ys[..|ys| - 1]);
    }
  }

  method MakeIndex(a: Alphabet, d: Data, size: int, modTime: int) returns (e: Entry)
    ensures e == BuildIndex(a, d, size, modTime)
  {
    hide Tokenise, NotedAll;
    var texts := Texts(d);
    var s := Seen({}, false);
    assert NotedAll(s, []) == s by { NotedNothing(s); }
    for i := 0 to |texts|
      invariant s == NotedAll(Seen({}, false), TokensOf(a, texts[..i]))
    {
      assert texts[..i + 1][..i] == texts[..i];
      NotedConcat(Seen({}, false), TokensOf(a, texts[..i]), Tokenise(a, texts[i]));
      s := AddText(a, texts[i], s);
    }
    assert texts[..|texts|] == texts;
    e := Entry(INDEX_VERSION, size, modTime, MetaOf(d), s.toks, s.partial);
  }

  lemma NotedNothing(s: Seen)
    ensures NotedAll(s, []) == s
  {
  }

  /** A complete index holds exactly the session's tokens. */
  lemma {:induction false} CompleteHoldsAll(toks: seq<string>)
    ensures var s := NotedAll(Seen({}, false), toks);
      && (!s.partial ==> forall t :: t in s.toks <==> t in toks)
      && (s.partial ==> |s.toks| >= MAX_INDEX_TOKENS)
  {
    if toks != [] { CompleteHoldsAll(toks[..|toks| - 1]); }
  }

  predicate Indexable(a: Alphabet, term: string) { term != "" && Width(a, term) <= MAX_TOKEN_LEN && All(a.wordy, term) }

  predicate MayContain(a: Alphabet, e: Entry, terms: seq<string>) {
    e.partial || forall t :: t in terms && Indexable(a, t) ==> exists tok :: tok in e.tokens && Contains(tok, t)
  }

  method CheckIndex(a: Alphabet, e: Entry, terms: seq<string>) returns (may: bool)
    ensures may == MayContain(a, e, terms)
  {
    if e.partial { return true; }
    for i := 0 to |terms|
      invariant forall j :: 0 <= j < i && Indexable(a, terms[j]) ==> exists tok :: tok in e.tokens && Contains(tok, terms[j])
    {
      if !Indexable(a, terms[i]) { continue; }
      var found := exists tok :: tok in e.tokens && Contains(tok, terms[i]);
      if !found { return false; }
    }
    return true;
  }

  // ----- when the index may be trusted

  lemma TokenOfText(a: Alphabet, texts: seq<string>, tok: string)
    ensures tok in TokensOf(a, texts) <==> exists i :: 0 <= i < |texts| && tok in Tokenise(a, texts[i])
  {
    hide Tokenise;
    if texts != [] { TokenOfText(a, texts[..|texts| - 1], tok); }
  }

  /** The runs longer than a token can be. */
  ghost predicate LongRun(a: Alphabet, d: Data, r: string) {
    Width(a, r) > MAX_TOKEN_LEN && exists i :: 0 <= i < |Texts(d)| && r in Runs(a.wordy, Lower(a, Texts(d)[i]))
  }

  /** Every stretch of a long run that is short enough to be looked up is part of some token. */
  ghost predicate LongRunsCovered(a: Alphabet, d: Data) {
    forall r, t :: LongRun(a, d, r) && Within(r, t) && t != "" && Width(a, t) <= MAX_TOKEN_LEN ==> InSome(TokensOf(a, Texts(d)), t)
  }

  lemma HitHasText(a: Alphabet, d: Data, terms: seq<string>)
    requires terms != []
    ensures HitFor(a, d, terms).Some? <==> exists i :: 0 <= i < |Texts(d)| && Matches(a, Texts(d)[i], terms)
  {
    hide Matches;
    forall i | 0 <= i < |d.history| ensures Texts(d)[i + 1] == d.history[i] {
    }
    assert Texts(d)[0] == d.title;
    if HitFor(a, d, terms).Some? && !Matches(a, d.title, terms) {
      assert Matches(a, Texts(d)[FirstMatch(a, d.history, terms, 0).value + 1], terms);
    }
    if i :| 0 <= i < |Texts(d)| && Matches(a, Texts(d)[i], terms) {
      if i > 0 { assert Matches(a, d.history[i - 1], terms); }
    }
  }

  /** What a text contains and the index looks up is in a token, or in a run too long for one. */
  lemma TermInTokens(a: Alphabet, d: Data, i: nat, t: string)
    requires i < |Texts(d)| && Indexable(a, t) && Within(Lower(a, Texts(d)[i]), t)
    ensures InSome(TokensOf(a, Texts(d)), t) || exists r :: LongRun(a, d, r) && Within(r, t)
  {
    var s := Lower(a, Texts(d)[i]);
    PieceInRuns(a.wordy, s, t);
    var r :| r in Runs(a.wordy, s) && Within(r, t);
    if Width(a, r) > MAX_TOKEN_LEN {
      assert LongRun(a, d, r);
    } else {
      assert Cut(a, r) == r;
      assert r in Tokenise(a, Texts(d)[i]);
      TokenOfText(a, Texts(d), r);
    }
  }

  lemma CoveredHidesNothing(a: Alphabet, d: Data, size: int, modTime: int, terms: seq<string>)
    requires LongRunsCovered(a, d) && HitFor(a, d, terms).Some?
    ensures MayContain(a, BuildIndex(a, d, size, modTime), terms)
  {
    var e := BuildIndex(a, d, size, modTime);
    if !e.partial && terms != [] {
      HitHasText(a, d, terms);
      var i :| 0 <= i < |Texts(d)| && Matches(a, Texts(d)[i], terms);
      CompleteHoldsAll(TokensOf(a, Texts(d)));
      forall t | t in terms && Indexable(a, t) ensures exists tok :: tok in e.tokens && Contains(tok, t) {
        assert Contains(Lower(a, Texts(d)[i]), t);
        TermInTokens(a, d, i, t);
        assert InSome(TokensOf(a, Texts(d)), t);
        var tok :| tok in TokensOf(a, Texts(d)) && Within(tok, t);
        assert tok in e.tokens && Contains(tok, t);
      }
    }
  }

  lemma PiecesAreOfTheKind(kind: char -> bool, r: string, t: string)
    requires All(kind, r) && Within(r, t)
    ensures All(kind, t)
  {
    var u, v :| r == u + t + v;
    forall i | 0 <= i < |t| ensures kind(t[i]) { assert r[|u| + i] == t[i]; }
  }

  /** A stretch of a long run that is in no token is a search the index gets wrong. */
  lemma UncoveredHidesAHit(a: Alphabet, d: Data, size: int, modTime: int, r: string, t: string)
    requires LongRun(a, d, r) && Within(r, t) && t != "" && Width(a, t) <= MAX_TOKEN_LEN
    requires !InSome(TokensOf(a, Texts(d)), t)
    requires !BuildIndex(a, d, size, modTime).partial
    ensures HitFor(a, d, [t]).Some? && !MayContain(a, BuildIndex(a, d, size, modTime), [t])
    ensures All(a.wordy, t) && exists i :: 0 <= i < |Texts(d)| && Within(Lower(a, Texts(d)[i]), t)
  {
    var i :| 0 <= i < |Texts(d)| && r in Runs(a.wordy, Lower(a, Texts(d)[i]));
    var s := Lower(a, Texts(d)[i]);
    RunsAreWithin(a.wordy, s, r);
    PiecesAreOfTheKind(a.wordy, r, t);
    WithinTrans(s, r, t);
    assert Contains(s, t) && Matches(a, Texts(d)[i], [t]);
    HitHasText(a, d, [t]);
    var e := BuildIndex(a, d, size, modTime);
    CompleteHoldsAll(TokensOf(a, Texts(d)));
    assert Indexable(a, t) && t in [t];
    forall tok | tok in e.tokens ensures !Contains(tok, t) { assert tok in TokensOf(a, Texts(d)); }
  }

  /** Main result. The index never turns away a session that a scan would find, whatever the search terms,
      exactly if it is partial or covers the session's over-long runs. */
  lemma IndexHidesNothingExactlyWhenCovered(a: Alphabet, d: Data, size: int, modTime: int)
    ensures (forall terms :: HitFor(a, d, terms).Some? ==> MayContain(a, BuildIndex(a, d, size, modTime), terms))
      <==> BuildIndex(a, d, size, modTime).partial || LongRunsCovered(a, d)
  {
    hide HitFor, MayContain, BuildIndex, TokensOf, InSome, LongRun;
    var e := BuildIndex(a, d, size, modTime);
    if e.partial {
      forall terms | true ensures MayContain(a, e, terms) { PartialMay(a, e, terms); }
    } else if LongRunsCovered(a, d) {
      forall terms | HitFor(a, d, terms).Some? ensures MayContain(a, e, terms) {
        CoveredHidesNothing(a, d, size, modTime, terms);
      }
    } else {
      var r, t :| LongRun(a, d, r) && Within(r, t) && t != "" && Width(a, t) <= MAX_TOKEN_LEN && !InSome(TokensOf(a, Texts(d)), t);
      UncoveredHidesAHit(a, d, size, modTime, r, t);
    }
  }

  lemma PartialMay(a: Alphabet, e: Entry, terms: seq<string>)
    ensures e.partial ==> MayContain(a, e, terms)
  {
  }

  /** A session without over-long runs is covered. */
  lemma ShortRunsAreCovered(a: Alphabet, d: Data)
    requires forall r :: !LongRun(a, d, r)
    ensures LongRunsCovered(a, d)
  {
  }

  // ----- a search it gets wrong

  function As(n: nat): string { seq(n, _ => 'a') }

  predicate IsA(c: char) { c == 'a' }

  lemma WidthOfOnes(a: Alphabet, s: string)
    requires forall i :: 0 <= i < |s| ==> a.width(s[i]) == 1
    ensures Width(a, s) == |s|
  {
    if s != "" { WidthOfOnes(a, s[..|s| - 1]); }
  }

  /** One word of 65 letters is cut to 64, and a search for its last letter alone misses the session. */
  lemma LongWordIsLost(a: Alphabet)
    requires a.lower('a') == 'a' && a.lower('b') == 'b' && a.wordy('a') && a.wordy('b') && a.width('a') == 1 && a.width('b') == 1
    ensures var d := Data("s", "", "", 0, 0, [As(64) + "b"]);
      HitFor(a, d, ["b"]).Some? && !MayContain(a, BuildIndex(a, d, 0, 0), ["b"])
  {
    hide HitFor, MayContain, BuildIndex, TokensOf, Contains, Runs, Cut, Width, Tokenise;
    var w := As(64) + "b";
    var d := Data("s", "", "", 0, 0, [w]);
    assert Lower(a, w) == w && Lower(a, "") == "" && Texts(d) == ["", w];
    OneRun(a.wordy, w);
    assert Runs(a.wordy, "") == [] by { NoRuns(a.wordy); }
    WidthOfOnes(a, w);
    WidthOfOnes(a, "b");
    assert w == As(64) + "b" + "";
    assert LongRun(a, d, w) by { assert w in Runs(a.wordy, Lower(a, Texts(d)[1])); }
    CutWord(a, w);
    OneToken(a, w);
    NoB();
    FewIsComplete(a, d);
    UncoveredHidesAHit(a, d, 0, 0, w, "b");
  }

  lemma NoRuns(kind: char -> bool)
    ensures Runs(kind, "") == []
  {
  }

  lemma NoB()
    ensures !Within(As(64), "b")
  {
    assert "b"[0] == 'b' && !All(IsA, "b");
    if Within(As(64), "b") { PiecesAreOfTheKind(IsA, As(64), "b"); }
  }

  lemma FewTokensFit(toks: seq<string>)
    requires |toks| <= MAX_INDEX_TOKENS
    ensures var s := NotedAll(Seen({}, false), toks); !s.partial && |s.toks| <= |toks|
  {
    if toks != [] { FewTokensFit(toks[..|toks| - 1]); }
  }

  /** A session of few words has a complete index. */
  lemma FewIsComplete(a: Alphabet, d: Data)
    requires |TokensOf(a, Texts(d))| <= MAX_INDEX_TOKENS
    ensures !BuildIndex(a, d, 0, 0).partial
  {
    FewTokensFit(TokensOf(a, Texts(d)));
  }

  lemma CutWord(a: Alphabet, w: string)
    requires w == As(64) + "b" && forall i :: 0 <= i < |w| ==> a.width(w[i]) == 1
    ensures Cut(a, w) == As(64)
  {
    var n :| 0 <= n <= |w| && Cut(a, w) == w[..n] && (n < |w| ==> Width(a, w[..n + 1]) > MAX_TOKEN_LEN);
    WidthOfOnes(a, w[..n]);
    if n < |w| { WidthOfOnes(a, w[..n + 1]); }
    assert w[..64] == As(64);
  }

  lemma OneToken(a: Alphabet, w: string)
    requires Runs(a.wordy, Lower(a, w)) == [w] && Runs(a.wordy, Lower(a, "")) == [] && Cut(a, w) == As(64)
    ensures TokensOf(a, ["", w]) == [As(64)]
  {
    assert ["", w][..1] == [""] && [""][..0] == [];
    assert Tokenise(a, w) == [As(64)];
    assert Tokenise(a, "") == [];
    assert TokensOf(a, [""]) == [] + [];
  }
}
