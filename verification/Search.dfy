// Listing and searching stored sessions: the in-memory scan, and the file store that filters by its
// sidecars first (sessionstore/memory.go, sessionstore/files.go, sessionstore/sessionstore.go).
module Searching {
  import opened Text
  import opened Sequences
  import opened Indexing

  /** Zero times and texts select everything. */
  datatype Query = Query(text: string, parent: string, since: Option<int>, until: Option<int>, offset: int, limit: int)

  predicate Selects(m: Meta, q: Query) {
    && (q.parent != "" ==> m.parent == q.parent)
    && (q.since.Some? ==> m.updated >= q.since.value)
    && (q.until.Some? ==> m.updated <= q.until.value)
  }

  function Terms(a: Alphabet, q: Query): seq<string> { Runs(c => !a.space(c), Lower(a, q.text)) }

  // ----- order

  predicate Less(s: string, t: string) {
    if t == "" then false
    else if s == "" then true
    else if s[0] != t[0] then s[0] < t[0]
    else Less(s[1..], t[1..])
  }

  lemma {:induction false} LessIsTotal(s: string, t: string)
    ensures !(Less(s, t) && Less(t, s))
    ensures s == t || Less(s, t) || Less(t, s)
  {
    if s != "" && t != "" && s[0] == t[0] {
      LessIsTotal(s[1..], t[1..]);
      assert s == [s[0]] + s[1..] && t == [t[0]] + t[1..];
    }
  }

  /** The first difference decides; a beginning comes first. */
  lemma {:induction false} LessIsAlphabetical(p: string, c: char, s: string, d: char, t: string)
    ensures c != d ==> (Less(p + [c] + s, p + [d] + t) <==> c < d)
    ensures Less(p, p + [c] + s)
  {
    if p != "" {
      assert (p + [c] + s)[1..] == p[1..] + [c] + s && (p + [d] + t)[1..] == p[1..] + [d] + t;
      LessIsAlphabetical(p[1..], c, s, d, t);
    }
  }

  lemma LessIsTransitive(s: string, t: string, u: string)
    requires Less(s, t) && Less(t, u)
    ensures Less(s, u)
  {
    if s != "" && s[0] == t[0] && t[0] == u[0] { LessIsTransitive(s[1..], t[1..], u[1..]); }
  }

  /** Newest first; of equally old ones the smaller id. */
  predicate ByUpdated(x: Meta, y: Meta) { if x.updated == y.updated then Less(x.id, y.id) else x.updated > y.updated }

  predicate Newer(x: Hit, y: Hit) { ByUpdated(x.meta, y.meta) }

  function IdOf(h: Hit): string { h.meta.id }

  lemma NewerOrders()
    ensures Orders(Newer)
  {
    forall a, b | true ensures Newer(a, b) ==> !Newer(b, a) { LessIsTotal(a.meta.id, b.meta.id); }
    forall a, b, c | !Newer(a, b) && !Newer(b, c) ensures !Newer(a, c) {
      LessIsTotal(a.meta.id, b.meta.id);
      LessIsTotal(b.meta.id, c.meta.id);
      LessIsTotal(a.meta.id, c.meta.id);
      if a.meta.updated == b.meta.updated == c.meta.updated && Less(c.meta.id, b.meta.id) && Less(b.meta.id, a.meta.id) {
        LessIsTransitive(c.meta.id, b.meta.id, a.meta.id);
      }
    }
  }

  /** A set of hits on different sessions has one sorted order. */
  lemma {:induction false} SortedIsUnique(xs: seq<Hit>, ys: seq<Hit>)
    requires Sorted(xs, Newer) && Sorted(ys, Newer) && Distinct(xs, IdOf) && Distinct(ys, IdOf)
    requires forall h :: h in xs <==> h in ys
    ensures xs == ys
  {
    assert xs != [] ==> xs[0] in xs;
    assert ys != [] ==> ys[0] in ys;
    if xs != [] && ys != [] {
      hide ByUpdated;
      FirstIsFirst(xs, ys);
      assert xs == [xs[0]] + xs[1..] && ys == [ys[0]] + ys[1..];
      forall h | true ensures h in xs[1..] <==> h in ys[1..] {
        assert h in xs[1..] <==> h in xs && h != xs[0];
        assert h in ys[1..] <==> h in ys && h != ys[0];
      }
      SortedIsUnique(xs[1..], ys[1..]);
    }
  }

  lemma FirstIsFirst(xs: seq<Hit>, ys: seq<Hit>)
    requires Sorted(xs, Newer) && Sorted(ys, Newer) && xs != [] && ys != [] && forall h :: h in xs <==> h in ys
    requires Distinct(xs, IdOf)
    ensures xs[0] == ys[0]
  {
    var x, y := xs[0], ys[0];
    assert x in ys && y in xs;
    LessIsTotal(x.meta.id, y.meta.id);
    assert x == y || !Newer(x, y);
    assert x == y || !Newer(y, x);
    assert x == y || IdOf(x) != IdOf(y);
  }

  // ----- pages

  datatype Bounds = Bounds(lo: nat, hi: nat)

  function PageBounds(n: nat, q: Query): (b: Bounds)
    ensures b.lo <= b.hi <= n
    ensures b.lo == n || b.lo == (if q.offset < 0 then 0 else q.offset)
    ensures q.limit > 0 ==> b.hi - b.lo <= q.limit && (b.hi == n || b.hi - b.lo == q.limit)
    ensures q.limit <= 0 ==> b.hi == n
  {
    var lo := if q.offset < 0 then 0 else if q.offset > n then n else q.offset;
    Bounds(lo, if q.limit > 0 && lo + q.limit < n then lo + q.limit else n)
  }

  function Page(hs: seq<Hit>, q: Query): seq<Hit> {
    var b := PageBounds(|hs|, q);
    Sort(hs, Newer)[b.lo..b.hi]
  }

  // ----- the in-memory store

  datatype StoreError = SessionNotFound | InvalidID | WriteFailed | IDMismatch

  datatype Found = Found(hits: seq<Hit>, err: Option<StoreError>)

  /** The session's hit, if the query selects it. */
  function Answer(a: Alphabet, d: Data, q: Query): Option<Hit> {
    if Selects(MetaOf(d), q) then HitFor(a, d, Terms(a, q)) else None
  }

  /** hs are, in some order, the hits of the sessions in m, each once. */
  ghost predicate AreHits(a: Alphabet, m: map<string, Data>, q: Query, hs: seq<Hit>) {
    && Distinct(hs, IdOf)
    && (forall id :: id in m && Answer(a, m[id], q).Some? ==> Answer(a, m[id], q).value in hs)
    && (forall h :: h in hs ==> h.meta.id in m && Answer(a, m[h.meta.id], q) == Some(h))
  }

  /** Each session is stored under its own id. */
  ghost predicate Keyed(m: map<string, Data>) { forall id :: id in m ==> m[id].id == id }

  lemma AnswerIsAbout(a: Alphabet, d: Data, q: Query)
    ensures Answer(a, d, q).Some? ==> Answer(a, d, q).value.meta == MetaOf(d)
  {
  }

  /** The page of a search does not depend on the order the sessions are scanned in. */
  lemma PageIsDetermined(a: Alphabet, m: map<string, Data>, q: Query, xs: seq<Hit>, ys: seq<Hit>)
    requires AreHits(a, m, q, xs) && AreHits(a, m, q, ys)
    ensures Page(xs, q) == Page(ys, q)
  {
    hide Answer, Sort, Sorted, Orders;
    NewerOrders();
    SortSorts(xs, Newer, IdOf);
    SortSorts(ys, Newer, IdOf);
    forall h | true ensures h in xs <==> h in ys {
    }
    SortedIsUnique(Sort(xs, Newer), Sort(ys, Newer));
  }

  /** A session is among the hits exactly if it has the parent asked for, if one is, lies within the times
      asked for, and its title or a message holds every term. */
  lemma HitsAreJustTheSelected(a: Alphabet, m: map<string, Data>, q: Query, hs: seq<Hit>, id: string)
    requires Keyed(m) && AreHits(a, m, q, hs) && id in m
    ensures (exists h :: h in hs && h.meta.id == id) <==>
      && (q.parent == "" || m[id].parent == q.parent)
      && (q.since.None? || q.since.value <= m[id].updated) && (q.until.None? || m[id].updated <= q.until.value)
      && (Terms(a, q) == [] || exists i :: 0 <= i < |Texts(m[id])| && Matches(a, Texts(m[id])[i], Terms(a, q)))
  {
    hide Matches, Terms, Texts, HitFor;
    AnswerIsAbout(a, m[id], q);
    if Terms(a, q) != [] { HitHasText(a, m[id], Terms(a, q)); } else { NoTermsHit(a, m[id]); }
  }

  lemma NoTermsHit(a: Alphabet, d: Data)
    ensures HitFor(a, d, []).Some?
  {
  }

  /** A page is newest first, of equally old sessions the smaller id first. */
  lemma PageIsNewestFirst(hs: seq<Hit>, q: Query)
    requires Distinct(hs, IdOf)
    ensures var page := Page(hs, q);
      forall i, j :: 0 <= i < j < |page| ==>
        page[i].meta.updated > page[j].meta.updated || (page[i].meta.updated == page[j].meta.updated && Less(page[i].meta.id, page[j].meta.id))
  {
    hide Sort, Orders, Less;
    NewerOrders();
    SortSorts(hs, Newer, IdOf);
    var all, b := Sort(hs, Newer), PageBounds(|hs|, q);
    forall i, j | 0 <= i < j < |all|
      ensures all[i].meta.updated > all[j].meta.updated || (all[i].meta.updated == all[j].meta.updated && Less(all[i].meta.id, all[j].meta.id))
    {
      assert !Newer(all[j], all[i]) && IdOf(all[i]) != IdOf(all[j]);
      LessIsTotal(all[i].meta.id, all[j].meta.id);
    }
  }

  class Memory {
    var m: map<string, Data>

    constructor ()
      ensures m == map[]
    {
      m := map[];
    }

    method Save(d: Data)
      modifies this
      ensures m == old(m)[d.id := d]
    {
      m := m[d.id := d];
    }

    method Delete(id: string) returns (err: Option<StoreError>)
      modifies this
      ensures m == old(m) - {id} && err == if id in old(m) then None else Some(SessionNotFound)
    {
      if id !in m { return Some(SessionNotFound); }
      m := m - {id};
      return None;
    }

    /** The reference: scan everything. */
    method Search(a: Alphabet, q: Query) returns (hits: seq<Hit>)
      requires Keyed(m)
      ensures exists all :: AreHits(a, m, q, all) && hits == Page(all, q)
    {
      hide Terms, HitFor, Selects;
      var out: seq<Hit> := [];
      var todo := m.Keys;
      while todo != {}
        invariant todo <= m.Keys && Distinct(out, IdOf)
        invariant forall id :: id in m && id !in todo && Answer(a, m[id], q).Some? ==> Answer(a, m[id], q).value in out
        invariant forall h :: h in out ==> h.meta.id in m && h.meta.id !in todo && Answer(a, m[h.meta.id], q) == Some(h)
      {
        var id :| id in todo;
        todo := todo - {id};
        var d := m[id];
        AnswerIsAbout(a, d, q);
        if !Selects(MetaOf(d), q) { continue; }
        var h := FindHit(a, d, Terms(a, q));
        if h.Some? { out := out + [h.value]; }
      }
      assert AreHits(a, m, q, out);
      hits := Page(out, q);
    }
  }

  // ----- the file store

  datatype Content = Session(d: Data) | Unreadable

  /** A session file as the disk has it, and its sidecar if there is one. */
  datatype File = File(size: int, modTime: int, content: Content, sidecar: Option<Entry>)

  type Disk = map<string, File>

  const MAX_ID_LEN: nat := 128

  /** Safe as a file name. */
  predicate ValidID(id: string) {
    0 < |id| <= MAX_ID_LEN &&
    forall i :: 0 <= i < |id| ==>
      'a' <= id[i] <= 'z' || 'A' <= id[i] <= 'Z' || '0' <= id[i] <= '9' || id[i] == '-' || id[i] == '_'
  }

  /** readIndex: a sidecar counts only if it is for this id, size and time. */
  predicate Fresh(id: string, f: File) {
    && f.sidecar.Some? && f.sidecar.value.version == INDEX_VERSION && f.sidecar.value.meta.id == id
    && f.sidecar.value.size == f.size && f.sidecar.value.modTime == f.modTime
  }

  datatype Loaded = Loaded(d: Data) | Skipped | Aborted

  /** data: a file that cannot be read is passed over; one that holds another session stops the search. */
  function Load(id: string, f: File): (l: Loaded)
    ensures l.Aborted? <==> f.content.Session? && f.content.d.id != id
    ensures l.Loaded? <==> f.content.Session? && f.content.d.id == id
    ensures l.Loaded? ==> l.d == f.content.d
  {
    if f.content.Unreadable? then Skipped else if f.content.d.id != id then Aborted else Loaded(f.content.d)
  }

  datatype Verdict = Pass | Stop | Take(h: Hit)

  function Scan(a: Alphabet, d: Data, q: Query): Verdict {
    match Answer(a, d, q)
    case Some(h) => Take(h)
    case None => Pass
  }

  /** What becomes of one file in a search without sidecars. */
  function Plainly(a: Alphabet, id: string, f: File, q: Query): Verdict {
    match Load(id, f)
    case Skipped => Pass
    case Aborted => Stop
    case Loaded(d) => Scan(a, d, q)
  }

  /** And with them: an entry, taken or built, decides whether the file is read at all. */
  function EntryOf(a: Alphabet, id: string, f: File): Option<Entry> {
    if Fresh(id, f) then f.sidecar
    else if Load(id, f).Loaded? then Some(BuildIndex(a, f.content.d, f.size, f.modTime)) else None
  }

  function Indexed(a: Alphabet, id: string, f: File, q: Query): Verdict {
    match EntryOf(a, id, f)
    case None => Plainly(a, id, f, q)
    case Some(e) => if !Selects(e.meta, q) || !MayContain(a, e, Terms(a, q)) then Pass else Plainly(a, id, f, q)
  }

  /** A fresh sidecar was built from what the file holds. */
  ghost predicate Trusted(a: Alphabet, id: string, f: File) {
    Fresh(id, f) ==> f.content.Session? && f.content.d.id == id && f.sidecar == Some(BuildIndex(a, f.content.d, f.size, f.modTime))
  }

  ghost predicate AllTrusted(a: Alphabet, disk: Disk) { forall id :: id in disk ==> Trusted(a, id, disk[id]) }

  /** No word of a file's session is lost to its index. */
  ghost predicate Complete(a: Alphabet, f: File) {
    f.content.Session? ==> BuildIndex(a, f.content.d, f.size, f.modTime).partial || LongRunsCovered(a, f.content.d)
  }

  lemma FilterIsSilent(a: Alphabet, id: string, f: File, q: Query)
    requires Trusted(a, id, f) && Complete(a, f)
    ensures Indexed(a, id, f, q) == Plainly(a, id, f, q)
  {
    hide HitFor, MayContain, LongRunsCovered, Terms, Selects;
    if EntryOf(a, id, f).Some? {
      var d := f.content.d;
      IndexHidesNothingExactlyWhenCovered(a, d, f.size, f.modTime);
      IndexKeepsMeta(a, d, f.size, f.modTime);
    }
  }

  lemma IndexKeepsMeta(a: Alphabet, d: Data, size: int, modTime: int)
    ensures BuildIndex(a, d, size, modTime).meta == MetaOf(d)
  {
  }

  // ----- the whole search

  /** The hits in the order of a directory listing, or the error that stops it. */
  function Gather(a: Alphabet, disk: Disk, ids: seq<string>, q: Query, indexed: bool): Found
    requires forall id :: id in ids ==> id in disk
  {
    if ids == [] then Found([], None)
    else
      var n := |ids| - 1;
      var before := Gather(a, disk, ids[..n], q, indexed);
      if before.err.Some? then before
      else
        match (if indexed then Indexed(a, ids[n], disk[ids[n]], q) else Plainly(a, ids[n], disk[ids[n]], q))
        case Pass => before
        case Stop => Found([], Some(IDMismatch))
        case Take(h) => Found(before.hits + [h], None)
  }

  ghost predicate Lists(disk: Disk, ids: seq<string>) {
    && (forall id :: id in ids <==> id in disk)
    && (forall i, j :: 0 <= i < j < |ids| ==> ids[i] != ids[j])
  }

  function Result(f: Found, q: Query): Found { if f.err.Some? then f else Found(Page(f.hits, q), None) }

  lemma GatherAgrees(a: Alphabet, disk: Disk, ids: seq<string>, q: Query)
    requires forall id :: id in ids ==> id in disk && Indexed(a, id, disk[id], q) == Plainly(a, id, disk[id], q)
    ensures Gather(a, disk, ids, q, true) == Gather(a, disk, ids, q, false)
  {
    hide Indexed, Plainly;
    if ids != [] { GatherAgrees(a, disk, ids[..|ids| - 1], q); }
  }

  /** The sessions a scan can read, by id. */
  function Readable(disk: Disk): map<string, Data> {
    map id | id in disk && disk[id].content.Session? && disk[id].content.d.id == id :: disk[id].content.d
  }

  function Of(a: Alphabet, id: string, f: File, q: Query, indexed: bool): Verdict {
    if indexed then Indexed(a, id, f, q) else Plainly(a, id, f, q)
  }

  /** hs are the hits taken from the listed files, each once. */
  ghost predicate AreTaken(a: Alphabet, disk: Disk, ids: seq<string>, q: Query, indexed: bool, hs: seq<Hit>)
    requires forall id :: id in ids ==> id in disk
  {
    && Distinct(hs, IdOf)
    && (forall id :: id in ids && Of(a, id, disk[id], q, indexed).Take? ==> Of(a, id, disk[id], q, indexed).h in hs)
    && (forall h :: h in hs ==> h.meta.id in ids && Of(a, h.meta.id, disk[h.meta.id], q, indexed) == Take(h))
  }

  lemma TakenIsOwn(a: Alphabet, id: string, f: File, q: Query, indexed: bool)
    ensures Of(a, id, f, q, indexed).Take? ==> Of(a, id, f, q, indexed).h.meta.id == id
  {
    hide HitFor, MayContain, BuildIndex, Terms, Selects;
    if Load(id, f).Loaded? { AnswerIsAbout(a, f.content.d, q); }
  }

  lemma GatherTakes(a: Alphabet, disk: Disk, ids: seq<string>, q: Query, indexed: bool)
    requires forall id :: id in ids ==> id in disk
    requires forall i, j :: 0 <= i < j < |ids| ==> ids[i] != ids[j]
    ensures var g := Gather(a, disk, ids, q, indexed);
      && (g.err.Some? <==> exists id :: id in ids && Of(a, id, disk[id], q, indexed).Stop?)
      && (g.err.Some? ==> g == Found([], Some(IDMismatch)))
      && (g.err.None? ==> AreTaken(a, disk, ids, q, indexed, g.hits))
  {
    hide Of, AreTaken;
    if ids == [] {
      NoneTaken(a, disk, q, indexed);
    } else {
      var n := |ids| - 1;
      assert ids == ids[..n] + [ids[n]];
      GatherTakes(a, disk, ids[..n], q, indexed);
      var before := Gather(a, disk, ids[..n], q, indexed);
      OfIs(a, ids[n], disk[ids[n]], q, indexed);
      if before.err.None? { TakenMore(a, disk, ids[..n], ids[n], q, indexed, before.hits); }
    }
  }

  lemma NoneTaken(a: Alphabet, disk: Disk, q: Query, indexed: bool)
    ensures AreTaken(a, disk, [], q, indexed, [])
  {
  }

  lemma OfIs(a: Alphabet, id: string, f: File, q: Query, indexed: bool)
    ensures Of(a, id, f, q, indexed) == if indexed then Indexed(a, id, f, q) else Plainly(a, id, f, q)
  {
  }

  lemma TakenMore(a: Alphabet, disk: Disk, ids: seq<string>, id: string, q: Query, indexed: bool, hs: seq<Hit>)
    requires id in disk && id !in ids && (forall x :: x in ids ==> x in disk) && AreTaken(a, disk, ids, q, indexed, hs)
    ensures var v := Of(a, id, disk[id], q, indexed);
      && (v.Pass? ==> AreTaken(a, disk, ids + [id], q, indexed, hs))
      && (v.Take? ==> AreTaken(a, disk, ids + [id], q, indexed, hs + [v.h]))
  {
    TakenIsOwn(a, id, disk[id], q, indexed);
    hide Of;
  }

  lemma PlainStops(a: Alphabet, id: string, f: File, q: Query)
    ensures Plainly(a, id, f, q).Stop? <==> Load(id, f).Aborted?
    ensures Load(id, f).Loaded? ==> Plainly(a, id, f, q) == Scan(a, Load(id, f).d, q)
    ensures Load(id, f).Skipped? ==> Plainly(a, id, f, q) == Pass
  {
  }

  /** A scan without an index finds the hits of the readable sessions, as the in-memory store would. */
  lemma ScanIsTheReference(a: Alphabet, disk: Disk, ids: seq<string>, q: Query)
    requires Lists(disk, ids)
    ensures var g := Gather(a, disk, ids, q, false);
      && (g.err.Some? <==> exists id :: id in disk && disk[id].content.Session? && disk[id].content.d.id != id)
      && (g.err.Some? ==> g == Found([], Some(IDMismatch)))
      && (g.err.None? ==> AreHits(a, Readable(disk), q, g.hits))
  {
    hide Plainly, Answer, Load, Gather;
    GatherTakes(a, disk, ids, q, false);
    forall id | id in disk
      ensures Plainly(a, id, disk[id], q).Stop? <==> Load(id, disk[id]).Aborted?
      ensures Load(id, disk[id]).Loaded? ==> Plainly(a, id, disk[id], q) == Scan(a, Load(id, disk[id]).d, q)
      ensures Load(id, disk[id]).Skipped? ==> Plainly(a, id, disk[id], q) == Pass
    {
      PlainStops(a, id, disk[id], q);
    }
  }

  lemma ScanIsDetermined(a: Alphabet, disk: Disk, ids: seq<string>, ids': seq<string>, q: Query)
    requires Lists(disk, ids) && Lists(disk, ids')
    ensures Result(Gather(a, disk, ids, q, false), q) == Result(Gather(a, disk, ids', q, false), q)
  {
    hide Gather, Load, AreHits, Page, Readable;
    ScanIsTheReference(a, disk, ids, q);
    ScanIsTheReference(a, disk, ids', q);
    var g, g' := Gather(a, disk, ids, q, false), Gather(a, disk, ids', q, false);
    if g.err.None? { PageIsDetermined(a, Readable(disk), q, g.hits, g'.hits); }
  }

  lemma {:induction false} AllComplete(a: Alphabet, disk: Disk, ids: seq<string>, ids': seq<string>, q: Query)
    requires AllTrusted(a, disk) && (forall id :: id in disk ==> Complete(a, disk[id]))
    requires Lists(disk, ids) && Lists(disk, ids')
    ensures Result(Gather(a, disk, ids, q, true), q) == Result(Gather(a, disk, ids', q, false), q)
  {
    hide Trusted, Complete, Gather, Indexed, Plainly;
    forall id | id in ids ensures Indexed(a, id, disk[id], q) == Plainly(a, id, disk[id], q) {
      FilterIsSilent(a, id, disk[id], q);
    }
    GatherAgrees(a, disk, ids, q);
    ScanIsDetermined(a, disk, ids, ids', q);
  }

  /** The terms are the pieces of the text, in lower case, that hold no white space, as long as they go. */
  lemma TermsAreThePieces(a: Alphabet, q: Query, p: string)
    ensures p in Terms(a, q) ==> p != "" && Within(Lower(a, q.text), p) && forall i :: 0 <= i < |p| ==> !a.space(p[i])
    ensures p != "" && Within(Lower(a, q.text), p) && (forall i :: 0 <= i < |p| ==> !a.space(p[i])) ==> InSome(Terms(a, q), p)
  {
    var kind := c => !a.space(c);
    RunsAreWithin(kind, Lower(a, q.text), p);
    if p != "" && Within(Lower(a, q.text), p) && All(kind, p) { PieceInRuns(kind, Lower(a, q.text), p); }
  }

  function Ask(text: string): Query { Query(text, "", None, None, 0, 0) }

  lemma AskedFor(a: Alphabet, t: string)
    requires Sane(a) && t != "" && All(a.wordy, t) && Lower(a, t) == t
    ensures Terms(a, Ask(t)) == [t]
  {
    OneRun(c => !a.space(c), t);
  }

  lemma LowerTwice(a: Alphabet, s: string, t: string)
    requires Sane(a) && Within(Lower(a, s), t)
    ensures Lower(a, t) == t
  {
    var u, v :| Lower(a, s) == u + t + v;
    forall i | 0 <= i < |t| ensures a.lower(t[i]) == t[i] {
      assert t[i] == Lower(a, s)[|u| + i];
      assert t[i] == a.lower(s[|u| + i]);
    }
  }

  /** A file whose session loses a word: a search that finds it only without the index. */
  lemma SomeSearchMisses(a: Alphabet, id: string, f: File) returns (t: string)
    requires Sane(a) && Trusted(a, id, f) && !Complete(a, f) && f.content.Session? && f.content.d.id == id
    ensures Plainly(a, id, f, Ask(t)).Take? && Indexed(a, id, f, Ask(t)) == Pass
  {
    hide HitFor, MayContain, BuildIndex, Terms, LongRun;
    var d := f.content.d;
    var r, w :| LongRun(a, d, r) && Within(r, w) && w != "" && Width(a, w) <= MAX_TOKEN_LEN && !InSome(TokensOf(a, Texts(d)), w);
    t := w;
    UncoveredHidesAHit(a, d, f.size, f.modTime, r, t);
    var i :| 0 <= i < |Texts(d)| && Within(Lower(a, Texts(d)[i]), t);
    LowerTwice(a, Texts(d)[i], t);
    AskedFor(a, t);
  }

  lemma WholePage(hs: seq<Hit>, text: string)
    ensures Page(hs, Ask(text)) == Sort(hs, Newer)
  {
  }

  /** Main result. Where fresh sidecars are their files' own and every file holds its own session, the
      indexed search gives for every query and every order of listing just the page the scan gives, exactly
      if every stored session's index is partial or covers the over-long words. */
  lemma SearchIsExactJustWhenComplete(a: Alphabet, disk: Disk, ids: seq<string>)
    requires Sane(a) && AllTrusted(a, disk) && Lists(disk, ids)
    requires forall id :: id in disk ==> !Load(id, disk[id]).Aborted?
    ensures (forall id :: id in disk ==> Complete(a, disk[id]))
      <==> forall q :: Result(Gather(a, disk, ids, q, true), q) == Result(Gather(a, disk, ids, q, false), q)
  {
    hide Trusted, Complete, Gather, Indexed, Plainly, Load, Page;
    if forall id :: id in disk ==> Complete(a, disk[id]) {
      forall q | true ensures Result(Gather(a, disk, ids, q, true), q) == Result(Gather(a, disk, ids, q, false), q) {
        AllComplete(a, disk, ids, ids, q);
      }
    } else {
      var id :| id in disk && !Complete(a, disk[id]);
      IncompleteHolds(a, id, disk[id]);
      var t := SomeSearchMisses(a, id, disk[id]);
      MissedOnThePage(a, disk, ids, id, t);
    }
  }

  lemma IncompleteHolds(a: Alphabet, id: string, f: File)
    ensures !Complete(a, f) && !Load(id, f).Aborted? ==> f.content.Session? && f.content.d.id == id
  {
  }

  lemma MissedOnThePage(a: Alphabet, disk: Disk, ids: seq<string>, id: string, t: string)
    requires Lists(disk, ids) && id in disk && forall id' :: id' in disk ==> !Load(id', disk[id']).Aborted?
    requires Plainly(a, id, disk[id], Ask(t)).Take? && Indexed(a, id, disk[id], Ask(t)) == Pass
    ensures Result(Gather(a, disk, ids, Ask(t), true), Ask(t)) != Result(Gather(a, disk, ids, Ask(t), false), Ask(t))
  {
    hide Gather, Indexed, Plainly, Load, Page;
    var q := Ask(t);
    var g, g' := Gather(a, disk, ids, q, true), Gather(a, disk, ids, q, false);
    GatherTakes(a, disk, ids, q, true);
    GatherTakes(a, disk, ids, q, false);
    forall id' | id' in disk ensures !Plainly(a, id', disk[id'], q).Stop? { PlainStops(a, id', disk[id'], q); }
    var h := Plainly(a, id, disk[id], q).h;
    TakenIsOwn(a, id, disk[id], q, false);
    assert h in g'.hits;
    WholePage(g'.hits, t);
    WholePage(g.hits, t);
    assert g.err.None? ==> h !in g.hits;
  }

  // ----- the store

  /** The same files, sidecars aside, and no sidecar that is not its file's own. */
  ghost predicate Kept(a: Alphabet, was: Disk, disk: Disk) {
    && disk.Keys == was.Keys && AllTrusted(a, disk)
    && forall id :: id in disk ==> disk[id].(sidecar := None) == was[id].(sidecar := None)
  }

  lemma KeptSelf(a: Alphabet, disk: Disk)
    ensures AllTrusted(a, disk) ==> Kept(a, disk, disk)
  {
  }

  lemma KeptTrusts(a: Alphabet, was: Disk, disk: Disk, id: string)
    ensures Kept(a, was, disk) && id in disk ==> Trusted(a, id, disk[id])
  {
  }

  lemma KeptStep(a: Alphabet, was: Disk, disk: Disk, id: string, f: File)
    requires Kept(a, was, disk) && id in disk && Trusted(a, id, f) && f.(sidecar := None) == disk[id].(sidecar := None)
    ensures Kept(a, was, disk[id := f])
  {
    hide Trusted;
  }

  class Files {
    var disk: Disk

    constructor ()
      ensures disk == map[]
    {
      disk := map[];
    }

    /** Stores the session under a safe id, and its sidecar beside it. written: the file could be written;
        indexed: so could the sidecar, or else an older one stays. */
    method Save(a: Alphabet, d: Data, size: int, modTime: int, written: bool, indexed: bool) returns (err: Option<StoreError>)
      modifies this
      ensures err == if !ValidID(d.id) then Some(InvalidID) else if !written then Some(WriteFailed) else None
      ensures err.Some? ==> disk == old(disk)
      ensures err.None? ==>
        var left := if d.id in old(disk) then old(disk)[d.id].sidecar else None;
        disk == old(disk)[d.id := File(size, modTime, Session(d), if indexed then Some(BuildIndex(a, d, size, modTime)) else left)]
      ensures AllTrusted(a, old(disk)) && (err.None? && !indexed ==> !Fresh(d.id, disk[d.id])) ==> AllTrusted(a, disk)
    {
      hide BuildIndex;
      if !ValidID(d.id) { return Some(InvalidID); }
      if !written { return Some(WriteFailed); }
      var sidecar := None;
      if d.id in disk { sidecar := disk[d.id].sidecar; }
      if indexed {
        var e := MakeIndex(a, d, size, modTime);
        sidecar := Some(e);
      }
      disk := disk[d.id := File(size, modTime, Session(d), sidecar)];
      err := None;
    }

    /** The entry that decides: a fresh sidecar, or else one built now and stored. */
    method EntryFor(a: Alphabet, id: string) returns (e: Option<Entry>)
      requires id in disk
      modifies this
      ensures e == EntryOf(a, id, old(disk)[id])
      ensures disk == old(disk)[id := if e.Some? then old(disk)[id].(sidecar := e) else old(disk)[id]]
      ensures var f := old(disk)[id];
        var own := f.sidecar.Some? && f.sidecar.value.version == INDEX_VERSION && f.sidecar.value.meta.id == id
          && f.sidecar.value.size == f.size && f.sidecar.value.modTime == f.modTime;
        e == if own then f.sidecar
             else if f.content.Session? && f.content.d.id == id then Some(BuildIndex(a, f.content.d, f.size, f.modTime)) else None
    {
      var f := disk[id];
      assert disk[id := f] == disk;
      if Fresh(id, f) {
        assert f.(sidecar := f.sidecar) == f;
        return f.sidecar;
      }
      if !Load(id, f).Loaded? { return None; }
      var made := MakeIndex(a, f.content.d, f.size, f.modTime);
      disk := disk[id := f.(sidecar := Some(made))];
      return Some(made);
    }

    method Search(a: Alphabet, q: Query, ids: seq<string>) returns (r: Found)
      requires Lists(disk, ids) && AllTrusted(a, disk)
      modifies this
      ensures r == Result(Gather(a, old(disk), ids, q, true), q)
      ensures Kept(a, old(disk), disk)
    {
      hide Indexed, Page, Trusted, Kept;
      ghost var was := disk;
      var want := Terms(a, q);
      r := Found([], None);
      KeptSelf(a, was);
      for i := 0 to |ids|
        invariant Kept(a, was, disk) && r.err.None?
        invariant forall j :: i <= j < |ids| ==> ids[j] in disk && disk[ids[j]] == was[ids[j]]
        invariant r == Gather(a, was, ids[..i], q, true)
      {
        var id := ids[i];
        assert ids[..i + 1][..i] == ids[..i] && id in disk;
        if Indexed(a, id, was[id], q).Stop? { GatherStops(a, was, ids, q, i); }
        KeptTrusts(a, was, disk, id);
        ghost var before := disk;
        var v := Judge(a, id, q, want);
        KeptStep(a, was, before, id, disk[id]);
        match v {
          case Pass => continue;
          case Stop => return Found([], Some(IDMismatch));
          case Take(h) => r := Found(r.hits + [h], None);
        }
      }
      assert ids[..|ids|] == ids;
      r := Found(Page(r.hits, q), None);
    }

    /** One file's part in a search. */
    method Judge(a: Alphabet, id: string, q: Query, want: seq<string>) returns (v: Verdict)
      requires id in disk && Trusted(a, id, disk[id]) && want == Terms(a, q)
      modifies this
      ensures v == Indexed(a, id, old(disk)[id], q)
      ensures id in disk && disk == old(disk)[id := disk[id]] && disk[id].(sidecar := None) == old(disk)[id].(sidecar := None)
      ensures Trusted(a, id, disk[id])
    {
      hide HitFor, MayContain, BuildIndex, Terms, Selects, Fresh;
      TrustedEntry(a, id, disk[id]);
      var e := EntryFor(a, id);
      if e.Some? && (!Selects(e.value.meta, q) || !MayContain(a, e.value, want)) { return Pass; }
      match Load(id, disk[id]) {
        case Aborted => return Stop;
        case Skipped => return Pass;
        case Loaded(d) =>
          if !Selects(MetaOf(d), q) { return Pass; }
          var h := FindHit(a, d, want);
          if h.Some? { return Take(h.value); }
          return Pass;
      }
    }
  }

  lemma TrustedEntry(a: Alphabet, id: string, f: File)
    ensures Trusted(a, id, f) && EntryOf(a, id, f).Some? ==> Trusted(a, id, f.(sidecar := EntryOf(a, id, f)))
  {
  }

  /** The first file that stops the search stops it for good. */
  lemma GatherStops(a: Alphabet, disk: Disk, ids: seq<string>, q: Query, i: nat)
    requires i < |ids| && (forall id :: id in ids ==> id in disk)
    requires Gather(a, disk, ids[..i], q, true).err.None? && Indexed(a, ids[i], disk[ids[i]], q).Stop?
    ensures Gather(a, disk, ids, q, true) == Found([], Some(IDMismatch))
    decreases |ids|
  {
    hide Indexed;
    var n := |ids| - 1;
    if i < n {
      assert ids[..n][..i] == ids[..i];
      GatherStops(a, disk, ids[..n], q, i);
    }
  }
}
