// The network bus: a hub with a bounded replay ring and bounded subscriber channels
// (netbus/hub.go), and a client that resumes by last event id and drops repeats (netbus/client.go).
module Netbus {
  import opened Text
  import opened Sequences

  const RING_SIZE: nat := 256
  const CHANNEL_SIZE: nat := 64

  datatype Event = Event(id: nat, topic: string, origin: string, payload: string)

  // ----- the replay ring

  datatype RingState = RingState(seqNo: nat, buf: seq<Event>, cap: nat)

  function RingAdd(r: RingState, ev: Event): RingState {
    RingState(r.seqNo + 1, Last(r.buf + [ev.(id := r.seqNo + 1)], r.cap), r.cap)
  }

  /** The events of s with an id above the given one, in order. */
  function Above(s: seq<Event>, id: nat): seq<Event> {
    if s == [] then []
    else Above(s[..|s| - 1], id) + if s[|s| - 1].id > id then [s[|s| - 1]] else []
  }

  class Ring {
    var seqNo: nat
    var buf: seq<Event>
    const cap: nat

    constructor (cap: nat)
      ensures State() == RingState(0, [], cap)
    {
      this.cap, seqNo, buf := cap, 0, [];
    }

    function State(): RingState
      reads this
    {
      RingState(seqNo, buf, cap)
    }

    method Add(ev: Event) returns (stamped: Event)
      modifies this
      ensures State() == RingAdd(old(State()), ev)
      ensures stamped == ev.(id := seqNo)
    {
      seqNo := seqNo + 1;
      stamped := ev.(id := seqNo);
      buf := buf + [stamped];
      if |buf| > cap { buf := buf[|buf| - cap..]; }
    }

    method After(id: nat) returns (out: seq<Event>)
      ensures out == Above(buf, id)
    {
      out := [];
      for i := 0 to |buf|
        invariant out == Above(buf[..i], id)
      {
        assert buf[..i + 1][..i] == buf[..i];
        if buf[i].id > id { out := out + [buf[i]]; }
      }
      assert buf[..|buf|] == buf;
    }
  }

  // ----- the hub's subscribers

  datatype Channel = Channel(queue: seq<Event>, closed: bool)

  datatype Subscriber = Subscriber(topics: set<string>, ch: Channel)

  predicate Topical(topics: set<string>, ev: Event) { topics == {} || ev.topic in topics }

  /** A send that is dropped when the channel is full. */
  function Offer(q: seq<Event>, ev: Event): seq<Event> {
    if |q| < CHANNEL_SIZE then q + [ev] else q
  }

  function Offered(s: Subscriber, ev: Event): Subscriber {
    if Topical(s.topics, ev) then s.(ch := s.ch.(queue := Offer(s.ch.queue, ev))) else s
  }

  class Hub {
    var subs: map<nat, Subscriber>
    var nextSub: nat
    var shutdown: bool
    const ring: Ring

    constructor ()
      ensures Valid() && subs == map[] && !shutdown && fresh(ring) && ring.State() == RingState(0, [], RING_SIZE)
    {
      subs, nextSub, shutdown := map[], 0, false;
      ring := new Ring(RING_SIZE);
    }

    /** Registered channels are open, and their numbers have been given out. */
    ghost predicate Valid()
      reads this
    {
      && (forall id :: id in subs ==> id < nextSub && !subs[id].ch.closed)
      && (shutdown ==> subs.Keys == {})
    }

    method AddSub(topics: set<string>) returns (id: int, ch: Channel)
      requires Valid()
      modifies this`subs, this`nextSub
      ensures Valid()
      ensures ch == Channel([], shutdown)
      ensures shutdown ==> id == -1 && subs == old(subs)
      ensures !shutdown ==> 0 <= id && id !in old(subs) && subs == old(subs)[id := Subscriber(topics, ch)]
    {
      ch := Channel([], false);
      if shutdown {
        ch := ch.(closed := true);
        return -1, ch;
      }
      id := nextSub;
      nextSub := nextSub + 1;
      subs := subs[id := Subscriber(topics, ch)];
    }

    /** Takes a subscriber out; its channel is closed only if it is still registered. */
    method RemoveSub(id: int) returns (closed: bool)
      requires Valid()
      modifies this`subs
      ensures Valid() && subs == map k | k in old(subs) && k != id :: old(subs)[k]
      ensures closed <==> id >= 0 && id in old(subs)
    {
      closed := id >= 0 && id in subs;
      if closed { subs := map k | k in subs && k != id :: subs[k]; }
    }

    method CloseAll() returns (closed: set<nat>)
      requires Valid()
      modifies this`subs, this`shutdown
      ensures Valid() && shutdown && subs.Keys == {}
      ensures closed == old(subs.Keys)
    {
      shutdown := true;
      closed := {};
      while subs.Keys != {}
        invariant shutdown && subs.Keys !! closed && subs.Keys + closed == old(subs.Keys)
        invariant forall id :: id in subs ==> id in old(subs) && subs[id] == old(subs)[id]
        decreases subs.Keys
      {
        var id: nat :| id in subs.Keys;
        closed := closed + {id};
        subs := subs - {id};
      }
    }

    /** Every registered subscriber is offered the event once; nobody else is touched. */
    method Broadcast(ev: Event)
      requires Valid()
      modifies this`subs
      ensures Valid()
      ensures subs == map id | id in old(subs) :: Offered(old(subs)[id], ev)
    {
      var left := subs.Keys;
      while left != {}
        invariant left <= subs.Keys == old(subs.Keys)
        invariant forall id :: id in left ==> subs[id] == old(subs)[id]
        invariant forall id :: id in subs && id !in left ==> subs[id] == Offered(old(subs)[id], ev)
        decreases left
      {
        var id: nat :| id in left;
        var s := subs[id];
        if s.topics == {} || ev.topic in s.topics {
          if |s.ch.queue| < CHANNEL_SIZE { subs := subs[id := s.(ch := s.ch.(queue := s.ch.queue + [ev]))]; }
        }
        left := left - {id};
      }
    }

    /** What a publish request does once its body is decoded: stamp, remember, hand on. */
    method Publish(ev: Event)
      requires Valid()
      modifies this`subs, ring
      ensures Valid()
      ensures ring.State() == RingAdd(old(ring.State()), Stamped(ev))
      ensures subs == map id | id in old(subs) :: Offered(old(subs)[id], Stamped(ev).(id := ring.seqNo))
    {
      var stamped := ring.Add(Stamped(ev));
      Broadcast(stamped);
    }
  }

  function Stamped(ev: Event): Event { if ev.origin == "" then ev.(origin := "external") else ev }

  // ----- the receiving client

  datatype ClientState = ClientState(lastID: nat, bus: seq<Event>)

  function Received(c: ClientState, ev: Event, self: string): ClientState {
    if ev.id != 0 && ev.id <= c.lastID then c
    else ClientState(if ev.id > c.lastID then ev.id else c.lastID, if ev.origin == self then c.bus else c.bus + [ev])
  }

  class Client {
    const self: string
    var lastID: nat
    var bus: seq<Event>

    constructor (self: string)
      ensures this.self == self && State() == ClientState(0, [])
    {
      this.self, lastID, bus := self, 0, [];
    }

    function State(): ClientState
      reads this
    {
      ClientState(lastID, bus)
    }

    method Receive(ev: Event)
      modifies this
      ensures State() == Received(old(State()), ev, self)
      ensures var news := ev.id == 0 || ev.id > old(State()).lastID;
        && State().bus == old(State()).bus + (if news && ev.origin != self then [ev] else [])
        && State().lastID == if ev.id > old(State()).lastID then ev.id else old(State()).lastID
    {
      if ev.id != 0 && ev.id <= lastID { return; }
      if ev.id > lastID { lastID := ev.id; }
      if ev.origin == self { return; }
      bus := bus + [ev];
    }
  }

  // ----- the hub's handler of one subscription

  /** A live connection. Until the snapshot is taken nothing is written; `taken` counts how far the
      channel has been read, `upTo` how far the snapshot reached. */
  datatype Link = Link(ch: seq<Event>, replayed: set<nat>, serving: bool, wire: seq<Event>, taken: nat, upTo: nat)

  function Ids(es: seq<Event>): set<nat> { set e | e in es :: e.id }

  function Selected(topics: set<string>, es: seq<Event>): seq<Event> {
    if es == [] then []
    else Selected(topics, es[..|es| - 1]) + if Topical(topics, es[|es| - 1]) then [es[|es| - 1]] else []
  }

  /** The replay: everything above the last event id, all of it remembered, what is on topic written. */
  function Replayed(l: Link, topics: set<string>, ring: RingState, last: nat): Link {
    if last == 0 then l.(serving := true)
    else
      var snapshot := Above(ring.buf, last);
      l.(serving := true, replayed := Ids(snapshot), wire := Selected(topics, snapshot), upTo := ring.seqNo)
  }

  /** One event off the channel: a repeat of the replay is dropped, anything else is written. */
  function Forwarded(l: Link): Link
    requires l.ch != []
  {
    var ev := l.ch[0];
    var l' := l.(ch := l.ch[1..], taken := ev.id);
    if ev.id in l.replayed then l'.(replayed := l.replayed - {ev.id}) else l'.(wire := l.wire + [ev])
  }

  lemma NothingSelected(topics: set<string>)
    ensures Selected(topics, []) == [] && Ids([]) == {}
  {
  }

  lemma OneMoreSelected(topics: set<string>, es: seq<Event>, e: Event)
    ensures Selected(topics, es + [e]) == Selected(topics, es) + if Topical(topics, e) then [e] else []
    ensures Ids(es + [e]) == Ids(es) + {e.id}
  {
    assert (es + [e])[..|es|] == es;
  }

  class Handler {
    const topics: set<string>
    var ch: seq<Event>
    var replayed: set<nat>
    var wire: seq<Event>
    ghost var serving: bool
    ghost var taken: nat
    ghost var upTo: nat

    constructor (topics: set<string>, ghost from: nat)
      ensures this.topics == topics && Abs() == Link([], {}, false, [], from, from)
    {
      this.topics, ch, replayed, wire := topics, [], {}, [];
      serving, taken, upTo := false, from, from;
    }

    ghost function Abs(): Link
      reads this
    {
      Link(ch, replayed, serving, wire, taken, upTo)
    }

    method Replay(ring: Ring, last: nat)
      requires wire == [] && replayed == {}
      modifies this`replayed, this`wire, this`serving, this`upTo
      ensures Abs() == Replayed(old(Abs()), topics, ring.State(), last)
    {
      hide Above, Ids, Selected;
      serving := true;
      NothingSelected(topics);
      if last > 0 {
        var snapshot := ring.After(last);
        upTo := ring.seqNo;
        for k := 0 to |snapshot|
          invariant serving && upTo == ring.seqNo
          invariant replayed == Ids(snapshot[..k]) && wire == Selected(topics, snapshot[..k])
        {
          var ev := snapshot[k];
          assert snapshot[..k + 1] == snapshot[..k] + [ev];
          OneMoreSelected(topics, snapshot[..k], ev);
          replayed := replayed + {ev.id};
          if topics == {} || ev.topic in topics { wire := wire + [ev]; }
        }
        assert snapshot[..|snapshot|] == snapshot;
      }
    }

    method Forward()
      requires ch != []
      modifies this`ch, this`replayed, this`wire, this`taken
      ensures Abs() == Forwarded(old(Abs()))
    {
      var ev := ch[0];
      ch := ch[1..];
      taken := ev.id;
      if ev.id in replayed {
        replayed := replayed - {ev.id};
        return;
      }
      wire := wire + [ev];
    }
  }

  // ----- the protocol: one hub, every publisher, and one client with its connection

  /** What the client asked for, and the origin it stamps its own events with. */
  datatype Interest = Interest(topics: set<string>, self: string)

  /** `log` is every event added, `base` and `mark` what the client has everything between;
      `lossless` until a full channel or the ring's end costs an event. */
  datatype State = State(
    ring: RingState, publishing: Option<Event>, link: Option<Link>, client: ClientState,
    log: seq<Event>, base: nat, mark: nat, lossless: bool)

  const INIT := State(RingState(0, [], RING_SIZE), None, None, ClientState(0, []), [], 0, 0, true)

  datatype Action =
    | Add(ev: Event)       // a publisher takes the publish lock and adds to the ring
    | Broadcast            // the same publisher hands the event to the channels and unlocks
    | Connect              // the client's subscriber is registered
    | Snapshot             // its handler reads the ring and writes the replay
    | Forward              // the handler takes one event off the channel
    | Receive              // the client reads one event off the wire
    | Disconnect           // the connection breaks; what is on the wire is gone

  function Broadcasted(s: State): nat {
    if s.publishing.Some? && |s.log| > 0 then |s.log| - 1 else |s.log|
  }

  predicate Enabled(s: State, a: Action) {
    match a
    case Add(_) => s.publishing.None?
    case Broadcast => s.publishing.Some?
    case Connect => s.link.None?
    case Snapshot => s.link.Some? && !s.link.value.serving
    case Forward => s.link.Some? && s.link.value.serving && s.link.value.ch != []
    case Receive => s.link.Some? && s.link.value.wire != []
    case Disconnect => s.link.Some?
  }

  function Apply(i: Interest, s: State, a: Action): State
    requires Enabled(s, a)
  {
    match a
    case Add(ev) =>
      var r := RingAdd(s.ring, Stamped(ev));
      var e := Stamped(ev).(id := r.seqNo);
      s.(ring := r, publishing := Some(e), log := s.log + [e])
    case Broadcast =>
      var ev := s.publishing.value;
      if s.link.None? || !Topical(i.topics, ev) then s.(publishing := None)
      else
        var l := s.link.value;
        s.(publishing := None, link := Some(l.(ch := Offer(l.ch, ev))), lossless := s.lossless && |l.ch| < CHANNEL_SIZE)
    case Connect =>
      var b := Broadcasted(s);
      var l := Link([], {}, false, [], b, b);
      if s.client.lastID > 0 then s.(link := Some(l)) else s.(link := Some(l), base := b, mark := b)
    case Snapshot =>
      var l := s.link.value;
      s.(link := Some(Replayed(l, i.topics, s.ring, s.client.lastID)),
         lossless := s.lossless && (s.client.lastID > 0 ==> |s.log| - |s.ring.buf| <= s.client.lastID))
    case Forward =>
      s.(link := Some(Forwarded(s.link.value)))
    case Receive =>
      var l := s.link.value;
      var c := Received(s.client, l.wire[0], i.self);
      s.(link := Some(l.(wire := l.wire[1..])), client := c, mark := if c.lastID > s.client.lastID then c.lastID else s.mark)
    case Disconnect => s.(link := None)
  }

  /** The state a run of steps leads to, if each was enabled when it was taken. */
  function Run(i: Interest, acts: seq<Action>): Option<State> {
    if acts == [] then Some(INIT)
    else
      match Run(i, acts[..|acts| - 1])
      case None => None
      case Some(s) => if Enabled(s, acts[|acts| - 1]) then Some(Apply(i, s, acts[|acts| - 1])) else None
  }

  // ----- stretches of the log

  /** The events of log[lo..hi] on the given topics. */
  function Part(topics: set<string>, log: seq<Event>, lo: nat, hi: nat): seq<Event>
    requires hi <= |log|
    decreases hi
  {
    if hi <= lo then [] else Part(topics, log, lo, hi - 1) + if Topical(topics, log[hi - 1]) then [log[hi - 1]] else []
  }

  /** Those of them that come from somebody else. */
  function Wanted(i: Interest, log: seq<Event>, lo: nat, hi: nat): seq<Event>
    requires hi <= |log|
    decreases hi
  {
    if hi <= lo then []
    else
      var e := log[hi - 1];
      Wanted(i, log, lo, hi - 1) + if Topical(i.topics, e) && e.origin != i.self then [e] else []
  }

  ghost predicate Numbered(log: seq<Event>) { forall k :: 0 <= k < |log| ==> log[k].id == k + 1 }

  lemma PartSplit(topics: set<string>, log: seq<Event>, lo: nat, mid: nat, hi: nat)
    requires lo <= mid <= hi <= |log|
    ensures Part(topics, log, lo, hi) == Part(topics, log, lo, mid) + Part(topics, log, mid, hi)
    decreases hi
  {
    if mid < hi { PartSplit(topics, log, lo, mid, hi - 1); }
  }

  lemma WantedSplit(i: Interest, log: seq<Event>, lo: nat, mid: nat, hi: nat)
    requires lo <= mid <= hi <= |log|
    ensures Wanted(i, log, lo, hi) == Wanted(i, log, lo, mid) + Wanted(i, log, mid, hi)
    decreases hi
  {
    if mid < hi { WantedSplit(i, log, lo, mid, hi - 1); }
  }

  lemma PartGrows(i: Interest, log: seq<Event>, e: Event, lo: nat, hi: nat)
    requires hi <= |log|
    ensures Part(i.topics, log + [e], lo, hi) == Part(i.topics, log, lo, hi)
    ensures Wanted(i, log + [e], lo, hi) == Wanted(i, log, lo, hi)
    decreases hi
  {
    if lo < hi { PartGrows(i, log, e, lo, hi - 1); }
  }

  /** The first event of a stretch: nothing on topic lies before it, the rest of the stretch after it. */
  lemma PartHead(i: Interest, log: seq<Event>, lo: nat, hi: nat)
    requires hi <= |log| && Numbered(log) && Part(i.topics, log, lo, hi) != []
    ensures var e := Part(i.topics, log, lo, hi)[0];
      && lo < e.id <= hi && log[e.id - 1] == e && Topical(i.topics, e)
      && Part(i.topics, log, lo, hi) == [e] + Part(i.topics, log, e.id, hi)
      && Part(i.topics, log, lo, e.id - 1) == [] && Wanted(i, log, lo, e.id - 1) == []
    decreases hi
  {
    var p := Part(i.topics, log, lo, hi - 1);
    if p == [] {
      NothingOnTopic(i, log, lo, hi - 1);
      assert Part(i.topics, log, hi, hi) == [];
    } else {
      PartHead(i, log, lo, hi - 1);
      assert Part(i.topics, log, lo, hi)[0] == p[0];
    }
  }

  lemma NothingOnTopic(i: Interest, log: seq<Event>, lo: nat, hi: nat)
    requires hi <= |log| && Part(i.topics, log, lo, hi) == []
    ensures Wanted(i, log, lo, hi) == []
    decreases hi
  {
    if lo < hi { NothingOnTopic(i, log, lo, hi - 1); }
  }

  lemma SelectedIsPart(topics: set<string>, log: seq<Event>, lo: nat, hi: nat)
    requires lo <= hi <= |log|
    ensures Selected(topics, log[lo..hi]) == Part(topics, log, lo, hi)
    decreases hi
  {
    if lo < hi {
      assert log[lo..hi][..hi - lo - 1] == log[lo..hi - 1];
      SelectedIsPart(topics, log, lo, hi - 1);
    }
  }

  lemma {:induction false} AboveConcat(a: seq<Event>, b: seq<Event>, id: nat)
    ensures Above(a + b, id) == Above(a, id) + Above(b, id)
  {
    if b == [] {
      assert a + b == a;
    } else {
      var b', e := b[..|b| - 1], b[|b| - 1];
      AboveConcat(a, b', id);
      hide Above;
      assert a + b == a + b' + [e] && b == b' + [e];
      AboveAppend(a + b', e, id);
      AboveAppend(b', e, id);
    }
  }

  lemma {:induction false} AboveNumbered(log: seq<Event>, id: nat)
    requires Numbered(log)
    ensures Above(log, id) == if id < |log| then log[id..] else []
  {
    if log != [] {
      var p, e := log[..|log| - 1], log[|log| - 1];
      AboveNumbered(p, id);
      if id < |log| { assert log[id..] == p[id..] + [e]; }
    }
  }

  /** What the ring holds above id, as long as its start has not passed it. */
  lemma AboveOfTail(log: seq<Event>, lo: nat, id: nat)
    requires lo <= id <= |log| && Numbered(log)
    ensures Above(log[lo..], id) == log[id..]
  {
    hide Above;
    assert log == log[..lo] + log[lo..];
    AboveConcat(log[..lo], log[lo..], id);
    AboveNumbered(log, id);
    AboveNumbered(log[..lo], id);
    hide Numbered;
    assert Above(log[..lo], id) == [] && [] + Above(log[lo..], id) == Above(log[lo..], id);
  }

  lemma AboveAppend(s: seq<Event>, e: Event, id: nat)
    ensures Above(s + [e], id) == Above(s, id) + if e.id > id then [e] else []
  {
    assert (s + [e])[..|s|] == s;
  }

  lemma AbovePrepend(e: Event, s: seq<Event>, id: nat)
    ensures Above([e] + s, id) == (if e.id > id then [e] else []) + Above(s, id)
  {
    if s == [] {
      assert [e] + s == [e] && [e][..0] == [];
    } else {
      assert ([e] + s)[..|s|] == [e] + s[..|s| - 1];
      AbovePrepend(e, s[..|s| - 1], id);
    }
  }

  lemma AboveMembers(s: seq<Event>, id: nat, e: Event)
    ensures e in Above(s, id) <==> e in s && e.id > id
  {
    if s != [] { AboveMembers(s[..|s| - 1], id, e); }
  }

  lemma AboveAgain(s: seq<Event>, id: nat, id': nat)
    requires id <= id'
    ensures Above(Above(s, id), id') == Above(s, id')
  {
    if s != [] {
      var p, e := s[..|s| - 1], s[|s| - 1];
      AboveAgain(p, id, id');
      if e.id > id {
        AboveAppend(Above(p, id), e, id');
      } else {
        assert Above(s, id) == Above(p, id) && Above(s, id') == Above(p, id');
      }
    }
  }

  lemma AbovePart(i: Interest, log: seq<Event>, lo: nat, hi: nat, id: nat)
    requires lo <= id && hi <= |log| && Numbered(log)
    ensures Above(Part(i.topics, log, lo, hi), id) == Part(i.topics, log, id, hi)
    decreases hi
  {
    if lo < hi {
      var p, e := Part(i.topics, log, lo, hi - 1), log[hi - 1];
      AbovePart(i, log, lo, hi - 1, id);
      if Topical(i.topics, e) {
        AboveAppend(p, e, id);
      } else {
        assert Part(i.topics, log, lo, hi) == p;
      }
      if hi <= id { assert Part(i.topics, log, id, hi - 1) == []; }
    }
  }

  // ----- what every step keeps

  /** The hub: ids follow the log, and the ring holds its end. */
  ghost predicate HubInv(s: State) {
    && Numbered(s.log)
    && s.ring.seqNo == |s.log| && s.ring.cap == RING_SIZE && s.ring.buf == Last(s.log, RING_SIZE)
    && (s.publishing.Some? ==> s.log != [] && s.publishing.value == s.log[|s.log| - 1])
  }

  /** An event the client may be shown. */
  ghost predicate Known(i: Interest, s: State, e: Event) {
    1 <= e.id <= |s.log| && s.log[e.id - 1] == e && Topical(i.topics, e)
  }

  /** Nothing reaches the bus twice, out of order, off topic or from the client itself; losses or not. */
  ghost predicate SafeInv(i: Interest, s: State) {
    && (s.link.Some? ==> forall e :: e in s.link.value.ch || e in s.link.value.wire ==> Known(i, s, e))
    && (forall e :: e in s.client.bus ==> Known(i, s, e) && e.origin != i.self && e.id <= s.client.lastID)
    && (forall j, k :: 0 <= j < k < |s.client.bus| ==> s.client.bus[j].id < s.client.bus[k].id)
  }

  function Cover(l: Link): nat { if l.upTo > l.taken then l.upTo else l.taken }

  /** The channel holds what was broadcast since it was last read; the wire holds, past what the client
      has, everything up to where the replay and the channel have got; and repeats are known as such. */
  ghost predicate LinkInv(i: Interest, s: State, l: Link) {
    var b := Broadcasted(s);
    && l.taken <= b && l.upTo <= |s.log| && s.mark <= |s.log|
    && l.ch == Part(i.topics, s.log, l.taken, b)
    && (!l.serving ==> l.wire == [] && l.replayed == {} && l.upTo == l.taken)
    && (l.serving ==>
        && s.mark <= Cover(l)
        && Above(l.wire, s.mark) == Part(i.topics, s.log, s.mark, Cover(l))
        && (forall id :: id in l.replayed ==> id <= l.upTo)
        && (forall id :: l.taken < id <= l.upTo && id !in l.replayed ==> id <= s.mark))
    && (s.client.lastID == 0 ==> l.upTo <= l.taken && s.mark <= l.taken && (forall e :: e in l.wire ==> e.id > s.mark))
    && (s.client.lastID == 0 && !l.serving ==> s.mark == l.taken)
  }

  /** The bus has exactly the wanted events between base and mark. */
  ghost predicate CompleteInv(i: Interest, s: State) {
    && s.base <= s.mark <= |s.log|
    && s.client.bus == Wanted(i, s.log, s.base, s.mark)
    && (s.client.lastID > 0 ==> s.mark == s.client.lastID)
    && (s.client.lastID == 0 ==> s.client.bus == [] && s.base == s.mark)
    && (s.link.Some? ==> LinkInv(i, s, s.link.value))
  }

  ghost predicate Inv(i: Interest, s: State) {
    HubInv(s) && SafeInv(i, s) && (s.lossless ==> CompleteInv(i, s))
  }

  lemma HubStep(i: Interest, s: State, a: Action)
    requires HubInv(s) && Enabled(s, a)
    ensures HubInv(Apply(i, s, a))
  {
    hide Above, Selected, Ids;
  }

  lemma SelectedMembers(topics: set<string>, es: seq<Event>, e: Event)
    ensures e in Selected(topics, es) <==> e in es && Topical(topics, e)
  {
    if es != [] { SelectedMembers(topics, es[..|es| - 1], e); }
  }

  /** A replay shows the client only what it may be shown. */
  lemma ReplayKnown(i: Interest, s: State, id: nat)
    requires HubInv(s)
    ensures forall e :: e in Selected(i.topics, Above(s.ring.buf, id)) ==> Known(i, s, e)
  {
    hide Above, Selected;
    forall e | e in Selected(i.topics, Above(s.ring.buf, id)) ensures Known(i, s, e) {
      SelectedMembers(i.topics, Above(s.ring.buf, id), e);
      AboveMembers(s.ring.buf, id, e);
    }
  }

  lemma KnownGrows(i: Interest, s: State, a: Action)
    requires Enabled(s, a)
    ensures forall e :: Known(i, s, e) ==> Known(i, Apply(i, s, a), e)
  {
    hide Above, Selected, Ids;
    assert s.log <= Apply(i, s, a).log;
  }

  lemma PublishedIsKnown(i: Interest, s: State)
    ensures HubInv(s) && s.publishing.Some? && Topical(i.topics, s.publishing.value) ==> Known(i, s, s.publishing.value)
  {
  }

  lemma SafeStep(i: Interest, s: State, a: Action)
    requires HubInv(s) && SafeInv(i, s) && Enabled(s, a)
    ensures SafeInv(i, Apply(i, s, a))
  {
    hide Above, Selected, Ids, Known;
    KnownGrows(i, s, a);
    match a
    case Broadcast => PublishedIsKnown(i, s);
    case Snapshot => ReplayKnown(i, s, s.client.lastID);
    case Forward => assert s.link.value.ch[0] in s.link.value.ch;
    case Receive =>
      assert s.link.value.wire[0] in s.link.value.wire;
      KnownHasID(i, s, s.link.value.wire[0]);
    case _ =>
  }

  lemma KnownHasID(i: Interest, s: State, e: Event)
    ensures Known(i, s, e) ==> e.id >= 1
  {
  }

  lemma CompleteAdd(i: Interest, s: State, ev: Event)
    requires HubInv(s) && CompleteInv(i, s) && Enabled(s, Add(ev))
    ensures CompleteInv(i, Apply(i, s, Add(ev)))
  {
    hide Above, Part, Wanted;
    var s' := Apply(i, s, Add(ev));
    var e := s'.publishing.value;
    PartGrows(i, s.log, e, s.base, s.mark);
    if s.link.Some? {
      var l := s.link.value;
      PartGrows(i, s.log, e, l.taken, |s.log|);
      PartGrows(i, s.log, e, s.mark, Cover(l));
    }
  }

  lemma CompleteBroadcast(i: Interest, s: State)
    requires HubInv(s) && CompleteInv(i, s) && Enabled(s, Broadcast) && Apply(i, s, Broadcast).lossless
    ensures CompleteInv(i, Apply(i, s, Broadcast))
  {
    hide Above, Wanted;
  }

  lemma CompleteConnect(i: Interest, s: State)
    requires HubInv(s) && CompleteInv(i, s) && Enabled(s, Connect)
    ensures CompleteInv(i, Apply(i, s, Connect))
  {
    hide Above;
  }

  lemma CompleteSnapshot(i: Interest, s: State)
    requires HubInv(s) && CompleteInv(i, s) && Enabled(s, Snapshot) && Apply(i, s, Snapshot).lossless
    ensures CompleteInv(i, Apply(i, s, Snapshot))
  {
    hide Above, Wanted, Part, Selected, Ids;
    var s' := Apply(i, s, Snapshot);
    var l := s'.link.value;
    if s.client.lastID > 0 {
      var lo, hi, last := |s.log| - |s.ring.buf|, |s.log|, s.client.lastID;
      var snapshot := Above(s.ring.buf, last);
      assert s.ring.buf == s.log[lo..];
      AboveOfTail(s.log, lo, last);
      assert snapshot == s.log[last..] == s.log[last..hi];
      SelectedIsPart(i.topics, s.log, last, hi);
      AbovePart(i, s.log, last, hi, last);
      SnapshotIds(s.log, last);
    } else {
      EmptyPart(i, s.log, s.mark);
      NothingAbove(s.mark);
    }
  }

  lemma SnapshotIds(log: seq<Event>, last: nat)
    requires last <= |log| && Numbered(log)
    ensures forall id: nat :: id in Ids(log[last..]) <==> last < id <= |log|
  {
    forall id: nat | last < id <= |log| ensures id in Ids(log[last..]) {
      assert log[last..][id - 1 - last] == log[id - 1];
      assert log[id - 1] in log[last..];
    }
  }

  lemma EmptyPart(i: Interest, log: seq<Event>, lo: nat)
    ensures lo <= |log| ==> Part(i.topics, log, lo, lo) == []
  {
  }

  lemma NothingAbove(id: nat)
    ensures Above([], id) == []
  {
  }

  lemma CompleteForward(i: Interest, s: State)
    requires HubInv(s) && CompleteInv(i, s) && Enabled(s, Forward)
    ensures CompleteInv(i, Apply(i, s, Forward))
  {
    hide Above, Wanted, Part;
    var l, b := s.link.value, Broadcasted(s);
    var ev, l' := l.ch[0], Apply(i, s, Forward).link.value;
    PartHead(i, s.log, l.taken, b);
    assert l'.ch == Part(i.topics, s.log, ev.id, b);
    if ev.id in l.replayed {
      assert Cover(l') == Cover(l);
    } else {
      AboveAppend(l.wire, ev, s.mark);
      if ev.id <= l.upTo {
        assert ev.id <= s.mark && Cover(l') == Cover(l);
      } else {
        StretchTo(i, s.log, l.taken, Cover(l), ev);
        PartSplit(i.topics, s.log, s.mark, Cover(l), ev.id);
      }
    }
  }

  /** From anywhere past lo on, e is all there is up to its own id. */
  lemma StretchTo(i: Interest, log: seq<Event>, lo: nat, mid: nat, e: Event)
    requires lo <= mid < e.id <= |log| && log[e.id - 1] == e && Topical(i.topics, e)
    requires Part(i.topics, log, lo, e.id - 1) == []
    ensures Part(i.topics, log, mid, e.id) == [e]
  {
    PartSplit(i.topics, log, lo, mid, e.id - 1);
    assert Part(i.topics, log, mid, e.id - 1) == [];
  }

  lemma CompleteReceive(i: Interest, s: State)
    requires HubInv(s) && CompleteInv(i, s) && SafeInv(i, s) && Enabled(s, Receive)
    ensures CompleteInv(i, Apply(i, s, Receive))
  {
    hide Above, Wanted, Part;
    var l, s' := s.link.value, Apply(i, s, Receive);
    var ev, rest := l.wire[0], l.wire[1..];
    assert l.wire == [ev] + rest && ev in l.wire && Known(i, s, ev);
    AbovePrepend(ev, rest, s.mark);
    if ev.id > s.client.lastID {
      assert ev.id > s.mark;
      PartHead(i, s.log, s.mark, Cover(l));
      assert ([ev] + Above(rest, s.mark))[1..] == ([ev] + Part(i.topics, s.log, ev.id, Cover(l)))[1..];
      AboveAgain(rest, s.mark, ev.id);
      AbovePart(i, s.log, ev.id, Cover(l), ev.id);
      WantedSplit(i, s.log, s.base, s.mark, ev.id - 1);
      WantedNext(i, s.log, s.base, ev);
    }
  }

  lemma WantedNext(i: Interest, log: seq<Event>, lo: nat, e: Event)
    requires lo < e.id <= |log| && log[e.id - 1] == e && Topical(i.topics, e)
    ensures Wanted(i, log, lo, e.id) == Wanted(i, log, lo, e.id - 1) + if e.origin != i.self then [e] else []
  {
  }

  /** Every step keeps the invariant. */
  lemma StepKeepsInv(i: Interest, s: State, a: Action)
    requires Inv(i, s) && Enabled(s, a)
    ensures Inv(i, Apply(i, s, a))
  {
    hide Numbered, SafeInv, CompleteInv, HubInv, Above, Part, Wanted;
    HubStep(i, s, a);
    SafeStep(i, s, a);
    var s' := Apply(i, s, a);
    if s'.lossless {
      match a
      case Add(ev) => CompleteAdd(i, s, ev);
      case Broadcast => CompleteBroadcast(i, s);
      case Connect => CompleteConnect(i, s);
      case Snapshot => CompleteSnapshot(i, s);
      case Forward => CompleteForward(i, s);
      case Receive => CompleteReceive(i, s);
      case Disconnect => CompleteDisconnect(i, s);
    }
  }

  lemma CompleteDisconnect(i: Interest, s: State)
    requires CompleteInv(i, s) && Enabled(s, Disconnect)
    ensures CompleteInv(i, Apply(i, s, Disconnect))
  {
    hide LinkInv, Wanted;
  }

  lemma RunsKeepInv(i: Interest, acts: seq<Action>)
    requires Run(i, acts).Some?
    ensures Inv(i, Run(i, acts).value)
  {
    if acts == [] {
      assert Wanted(i, [], 0, 0) == [];
    } else {
      var s := Run(i, acts[..|acts| - 1]).value;
      RunsKeepInv(i, acts[..|acts| - 1]);
      StepKeepsInv(i, s, acts[|acts| - 1]);
    }
  }

  // ----- main results

  /** Whatever is lost, the bus never sees an event twice or late, and never one it should not see. */
  lemma {:induction false} AtMostOnceInOrder(i: Interest, acts: seq<Action>)
    requires Run(i, acts).Some?
    ensures var s := Run(i, acts).value;
      && (forall j, k :: 0 <= j < k < |s.client.bus| ==> s.client.bus[j].id < s.client.bus[k].id)
      && (forall e :: e in s.client.bus ==> e in s.log && Topical(i.topics, e) && e.origin != i.self)
  {
    hide Run;
    RunsKeepInv(i, acts);
  }

  /** The events publishers added, in order, as they were given. */
  function AddedIn(acts: seq<Action>): seq<Event> {
    if acts == [] then []
    else AddedIn(acts[..|acts| - 1]) + if acts[|acts| - 1].Add? then [acts[|acts| - 1].ev] else []
  }

  /** The log is what was added, numbered: topic, payload and origin are the publisher's own, "external" only
      where no origin was given. */
  lemma {:induction false} LogIsWhatWasAdded(i: Interest, acts: seq<Action>)
    requires Run(i, acts).Some?
    ensures var log, added := Run(i, acts).value.log, AddedIn(acts);
      && |log| == |added| && Run(i, acts).value.ring.seqNo == |log|
      && forall k :: 0 <= k < |log| ==>
          && log[k].id == k + 1 && log[k].topic == added[k].topic && log[k].payload == added[k].payload
          && log[k].origin == if added[k].origin == "" then "external" else added[k].origin
  {
    hide Above, Selected, Ids;
    if acts != [] { LogIsWhatWasAdded(i, acts[..|acts| - 1]); }
  }

  /** So over every run the client's bus holds only events as they were added, on its topics if it named any,
      and none that was added under its own name. */
  lemma OwnEventsStayOut(i: Interest, acts: seq<Action>, e: Event)
    requires Run(i, acts).Some? && e in Run(i, acts).value.client.bus
    ensures var added := AddedIn(acts);
      && 1 <= e.id <= |added| && e.topic == added[e.id - 1].topic && e.payload == added[e.id - 1].payload
      && (i.topics == {} || e.topic in i.topics)
      && (i.self != "" ==> added[e.id - 1].origin != i.self)
  {
    hide Run, AddedIn;
    AtMostOnceInOrder(i, acts);
    LogIsWhatWasAdded(i, acts);
  }

  /** What is wanted of a stretch of the log: all on the topics, or all if none is named, that others added. */
  lemma {:induction false} WantedAreJust(i: Interest, log: seq<Event>, lo: nat, hi: nat, e: Event)
    requires hi <= |log|
    ensures e in Wanted(i, log, lo, hi) <==>
      exists k :: lo <= k < hi && log[k] == e && (i.topics == {} || e.topic in i.topics) && e.origin != i.self
    decreases hi
  {
    if hi > lo {
      WantedAreJust(i, log, lo, hi - 1, e);
      assert e in Wanted(i, log, lo, hi) <==> e in Wanted(i, log, lo, hi - 1) || (e == log[hi - 1] && Topical(i.topics, e) && e.origin != i.self);
    }
  }

  /** A connection with nothing in flight anywhere. */
  predicate Quiet(s: State) {
    s.publishing.None? && s.link.Some? && s.link.value.serving && s.link.value.ch == [] && s.link.value.wire == []
  }

  /** While no channel has overflowed and no replay came too late, the bus has exactly the wanted events
      from the point the first fruitful connection was made up to the last id received; and all of them
      once nothing is in flight. */
  lemma ExactlyOnce(i: Interest, acts: seq<Action>)
    requires Run(i, acts).Some? && Run(i, acts).value.lossless
    ensures var s := Run(i, acts).value;
      && s.base <= s.mark <= |s.log|
      && s.client.bus == Wanted(i, s.log, s.base, s.mark)
      && (s.client.lastID > 0 ==> s.mark == s.client.lastID)
      && (Quiet(s) ==> s.client.bus == Wanted(i, s.log, s.base, |s.log|))
  {
    hide Run, Part, Wanted;
    RunsKeepInv(i, acts);
    var s := Run(i, acts).value;
    if Quiet(s) { QuietHasAll(i, s); }
  }

  lemma QuietHasAll(i: Interest, s: State)
    requires HubInv(s) && CompleteInv(i, s) && Quiet(s)
    ensures Wanted(i, s.log, s.base, s.mark) == Wanted(i, s.log, s.base, |s.log|)
  {
    hide Wanted;
    var l, n := s.link.value, |s.log|;
    PartSplit(i.topics, s.log, s.mark, Cover(l), n);
    PartSplit(i.topics, s.log, l.taken, Cover(l), n);
    assert Part(i.topics, s.log, s.mark, n) == [];
    NothingOnTopic(i, s.log, s.mark, n);
    WantedSplit(i, s.log, s.base, s.mark, n);
  }

  /** What the connection still owes the client: the unread wire, the channel without repeats, and the
      event being published, past what the client has. */
  function Owed(i: Interest, s: State): seq<Event>
    requires s.link.Some?
  {
    var l := s.link.value;
    var coming := l.ch + if s.publishing.Some? && Topical(i.topics, s.publishing.value) then [s.publishing.value] else [];
    Above(l.wire, s.mark) + Above(coming, if Cover(l) > s.mark then Cover(l) else s.mark)
  }

  /** Nothing is lost on the way: what is owed is every event on topic past the client's mark. */
  lemma NothingIsLost(i: Interest, acts: seq<Action>)
    requires Run(i, acts).Some? && Run(i, acts).value.lossless
    requires Run(i, acts).value.link.Some? && Run(i, acts).value.link.value.serving
    ensures var s := Run(i, acts).value; Owed(i, s) == Part(i.topics, s.log, s.mark, |s.log|)
  {
    hide Run, Above, Wanted;
    RunsKeepInv(i, acts);
    var s := Run(i, acts).value;
    var l, n := s.link.value, |s.log|;
    assert l.ch + (if s.publishing.Some? && Topical(i.topics, s.publishing.value) then [s.publishing.value] else []) ==
      Part(i.topics, s.log, l.taken, n);
    AbovePart(i, s.log, l.taken, n, Cover(l));
    PartSplit(i.topics, s.log, s.mark, Cover(l), n);
  }
}
