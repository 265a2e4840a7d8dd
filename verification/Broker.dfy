// The broker of one streaming task: a bounded buffer of its events for those who come late, and a
// bounded channel for everyone who follows live (a2a/taskstore.go, taskBroker and Subscribe).
module Brokers {
  import opened Text
  import opened Sequences
  import opened A2A

  const CHANNEL_SIZE: nat := 64
  const DEFAULT_MAX_EVENTS: nat := 4096

  /** misused: sent to after it was closed, or closed again; either panics. */
  datatype Channel = Channel(queue: seq<Event>, closed: bool, overflow: bool, misused: bool)

  const OPEN := Channel([], false, false, false)

  /** chans: the channel of every subscriber there ever was; subs: those still registered. */
  datatype Broker = Broker(max: nat, buf: seq<Event>, chans: seq<Channel>, subs: set<nat>, done: bool)

  function Capacity(max: int): nat { if max <= 0 then DEFAULT_MAX_EVENTS else max }

  function Closed(c: Channel): Channel { c.(closed := true, misused := c.misused || c.closed) }

  predicate Room(c: Channel) { |c.queue| < CHANNEL_SIZE }

  /** Sending without waiting: a full channel is marked and closed. */
  function Sent(c: Channel, ev: Event): Channel {
    if Room(c) then c.(queue := c.queue + [ev], misused := c.misused || c.closed) else Closed(c.(overflow := true))
  }

  function Published(b: Broker, ev: Event): Broker {
    Broker(b.max, Last(b.buf + [ev], b.max),
      seq(|b.chans|, i requires 0 <= i < |b.chans| => if i in b.subs then Sent(b.chans[i], ev) else b.chans[i]),
      (set i | i in b.subs && i < |b.chans| && Room(b.chans[i])),
      b.done)
  }

  function Shut(b: Broker): Broker {
    if b.done then b
    else
      Broker(b.max, b.buf,
        seq(|b.chans|, i requires 0 <= i < |b.chans| => if i in b.subs then Closed(b.chans[i]) else b.chans[i]),
        {}, true)
  }

  /** The new subscriber is the last one; after the end it gets a channel closed from the start. */
  function Subscribed(b: Broker): Broker {
    b.(chans := b.chans + [OPEN.(closed := b.done)], subs := if b.done then b.subs else b.subs + {|b.chans|})
  }

  function Unsubscribed(b: Broker, i: nat): Broker {
    if i in b.subs && i < |b.chans| then b.(chans := b.chans[i := Closed(b.chans[i])], subs := b.subs - {i}) else b
  }

  // ----- the class

  class TaskBroker {
    const max: nat
    var buf: seq<Event>
    var chans: seq<Channel>
    var subs: set<nat>
    var done: bool

    constructor (max: int)
      ensures State() == Broker(Capacity(max), [], [], {}, false)
    {
      this.max, buf, chans, subs, done := Capacity(max), [], [], {}, false;
    }

    function State(): Broker
      reads this
    {
      Broker(max, buf, chans, subs, done)
    }

    predicate Valid()
      reads this
    {
      forall i :: i in subs ==> i < |chans|
    }

    method Publish(ev: Event)
      requires Valid()
      modifies this`buf, this`chans, this`subs
      ensures State() == Published(old(State()), ev) && Valid()
      ensures buf == if |old(buf)| < max then old(buf) + [ev] else (old(buf) + [ev])[|old(buf)| + 1 - max..]
      ensures forall i :: i in old(subs) ==> if |old(chans)[i].queue| < CHANNEL_SIZE
        then i in subs && chans[i].queue == old(chans)[i].queue + [ev] && chans[i].closed == old(chans)[i].closed && chans[i].overflow == old(chans)[i].overflow
        else i !in subs && chans[i].queue == old(chans)[i].queue && chans[i].closed && chans[i].overflow
      ensures subs <= old(subs) && forall i :: 0 <= i < |chans| && i !in old(subs) ==> chans[i] == old(chans)[i]
    {
      buf := buf + [ev];
      if |buf| > max { buf := buf[|buf| - max..]; }
      SendAll(ev);
    }

    method SendAll(ev: Event)
      requires Valid()
      modifies this`chans, this`subs
      ensures Valid() && |chans| == |old(chans)|
      ensures forall i :: 0 <= i < |chans| ==> chans[i] == if i in old(subs) then Sent(old(chans)[i], ev) else old(chans)[i]
      ensures subs == set i | i in old(subs) && i < |old(chans)| && Room(old(chans)[i])
    {
      hide Sent, Room, Closed;
      ghost var was, chs := subs, chans;
      var todo := subs;
      while todo != {}
        invariant todo <= was && |chans| == |chs|
        invariant forall i :: 0 <= i < |chans| ==> chans[i] == if i in was && i !in todo then Sent(chs[i], ev) else chs[i]
        invariant forall i :: i in subs <==> i in was && (i in todo || Room(chs[i]))
      {
        var id :| id in todo;
        todo := todo - {id};
        Send(id, ev);
      }
    }

    method Send(id: nat, ev: Event)
      requires id < |chans|
      modifies this`chans, this`subs
      ensures chans == old(chans)[id := Sent(old(chans)[id], ev)]
      ensures subs == if Room(old(chans)[id]) then old(subs) else old(subs) - {id}
    {
      var c := chans[id];
      if |c.queue| < CHANNEL_SIZE {
        chans := chans[id := c.(queue := c.queue + [ev], misused := c.misused || c.closed)];
      } else {
        chans := chans[id := Closed(c.(overflow := true))];
        subs := subs - {id};
      }
    }

    method Close()
      requires Valid()
      modifies this`chans, this`subs, this`done
      ensures State() == Shut(old(State())) && Valid()
      ensures done && (!old(done) ==> subs == {} && forall i :: i in old(subs) ==> chans[i].closed && chans[i].queue == old(chans)[i].queue)
    {
      if done { return; }
      done := true;
      ghost var was := old(State());
      var todo := subs;
      while todo != {}
        invariant todo <= was.subs && |chans| == |was.chans| && subs == todo && done && buf == was.buf
        invariant forall i :: 0 <= i < |chans| ==> chans[i] == if i in was.subs && i !in todo then Closed(was.chans[i]) else was.chans[i]
      {
        var id :| id in todo;
        todo := todo - {id};
        chans := chans[id := Closed(chans[id])];
        subs := subs - {id};
      }
    }

    method Subscribe() returns (replay: seq<Event>, id: nat)
      requires Valid()
      modifies this`chans, this`subs
      ensures State() == Subscribed(old(State())) && Valid() && replay == buf && id == |old(chans)|
      ensures chans == old(chans) + [Channel([], done, false, false)] && subs == if done then old(subs) else old(subs) + {id}
    {
      replay, id := buf, |chans|;
      chans := chans + [OPEN.(closed := done)];
      if !done { subs := subs + {id}; }
    }

    method Unsubscribe(id: nat)
      requires Valid()
      modifies this`chans, this`subs
      ensures State() == Unsubscribed(old(State()), id) && Valid()
      ensures subs == old(subs) - {id} && (id in old(subs) ==> chans[id].closed && chans[id].queue == old(chans)[id].queue)
    {
      if id !in subs { return; }
      chans := chans[id := Closed(chans[id])];
      subs := subs - {id};
    }

    /** What a dropped subscriber is shown last: the latest artifact and the latest status in the buffer, as final. */
    method EmitFinal() returns (shown: seq<Event>)
      ensures shown == LatestArtifact(buf) + LatestStatus(buf)
    {
      hide IsTerminal;
      var status: Option<Event> := None;
      var artifact: Option<Event> := None;
      var i := |buf|;
      assert buf[..i] == buf;
      while i > 0 && !(status.Some? && artifact.Some?)
        invariant 0 <= i <= |buf|
        invariant status.Some? ==> status.value.StatusEvent? && LatestStatus(buf) == [StatusEvent(status.value.status, true)]
        invariant status.None? ==> LatestStatus(buf) == LatestStatus(buf[..i])
        invariant artifact.Some? ==> LatestArtifact(buf) == [artifact.value]
        invariant artifact.None? ==> LatestArtifact(buf) == LatestArtifact(buf[..i])
      {
        i := i - 1;
        assert buf[..i + 1][..i] == buf[..i];
        if status.None? && buf[i].StatusEvent? { status := Some(buf[i]); }
        if artifact.None? && buf[i].ArtifactEvent? { artifact := Some(buf[i]); }
      }
      shown := [];
      if artifact.Some? { shown := shown + [artifact.value]; }
      if status.Some? { shown := shown + [StatusEvent(status.value.status, true)]; }
    }
  }

  function LatestStatus(s: seq<Event>): seq<Event> {
    if s == [] then []
    else if s[|s| - 1].StatusEvent? then [StatusEvent(s[|s| - 1].status, true)]
    else LatestStatus(s[..|s| - 1])
  }

  function LatestArtifact(s: seq<Event>): seq<Event> {
    if s == [] then [] else if s[|s| - 1].ArtifactEvent? then [s[|s| - 1]] else LatestArtifact(s[..|s| - 1])
  }

  // ----- the protocol

  /** What one subscriber has been given: a copy of the buffer at its start, then what it received.
      from: the log index its replay starts at; left: it unsubscribed. */
  datatype View = View(from: nat, replay: seq<Event>, received: seq<Event>, left: bool)

  /** log: every event published; ended: how many had been when the broker was closed. */
  datatype State = State(b: Broker, log: seq<Event>, views: seq<View>, ended: nat)

  datatype Action = Publish(ev: Event) | Close | Subscribe | Receive(i: nat) | Unsubscribe(i: nat)

  predicate Enabled(s: State, a: Action) {
    match a
    case Receive(i) => i < |s.views| && i < |s.b.chans| && s.b.chans[i].queue != []
    case Unsubscribe(i) => i < |s.views|
    case _ => true
  }

  function Apply(s: State, a: Action): State
    requires Enabled(s, a)
  {
    match a
    case Publish(ev) => s.(b := Published(s.b, ev), log := s.log + [ev])
    case Close => s.(b := Shut(s.b), ended := if s.b.done then s.ended else |s.log|)
    case Subscribe => s.(b := Subscribed(s.b), views := s.views + [View(if |s.log| >= |s.b.buf| then |s.log| - |s.b.buf| else 0, s.b.buf, [], false)])
    case Receive(i) =>
      var c := s.b.chans[i];
      s.(b := s.b.(chans := s.b.chans[i := c.(queue := c.queue[1..])]),
         views := s.views[i := s.views[i].(received := s.views[i].received + [c.queue[0]])])
    case Unsubscribe(i) => s.(b := Unsubscribed(s.b, i), views := s.views[i := s.views[i].(left := true)])
  }

  function Run(max: nat, acts: seq<Action>): Option<State> {
    if acts == [] then Some(State(Broker(max, [], [], {}, false), [], [], 0))
    else
      var s := Run(max, acts[..|acts| - 1]);
      if s.Some? && Enabled(s.value, acts[|acts| - 1]) then Some(Apply(s.value, acts[|acts| - 1])) else None
  }

  /** All a subscriber has been given or still has waiting. */
  function Given(s: State, i: nat): seq<Event>
    requires i < |s.views| && i < |s.b.chans|
  {
    s.views[i].replay + s.views[i].received + s.b.chans[i].queue
  }

  /** One subscriber's side: one block of the log, open-ended just while it is registered. */
  ghost predicate ViewInv(s: State, i: nat)
    requires i < |s.views| && |s.views| == |s.b.chans|
  {
    var c, v, g := s.b.chans[i], s.views[i], Given(s, i);
    && v.from + |g| <= |s.log| && g == s.log[v.from..v.from + |g|] && v.from + |s.b.buf| <= |s.log|
    && (i in s.b.subs ==> !c.closed && v.from + |g| == |s.log|)
    && (i !in s.b.subs ==> c.closed)
    && (c.overflow ==> c.closed) && !c.misused
    && (c.closed && !c.overflow && !v.left ==> s.b.done && v.from + |g| >= s.ended)
  }

  ghost predicate Inv(s: State) {
    && |s.views| == |s.b.chans| && s.ended <= |s.log|
    && s.b.buf == Last(s.log, s.b.max)
    && (forall i :: i in s.b.subs ==> i < |s.views|)
    && (s.b.done ==> s.b.subs == {})
    && forall i :: 0 <= i < |s.views| ==> ViewInv(s, i)
  }

  lemma PublishView(s: State, ev: Event, i: nat)
    requires Inv(s) && i < |s.views|
    ensures ViewInv(Apply(s, Publish(ev)), i)
  {
    hide Last;
    assert ViewInv(s, i);
    var s', g := Apply(s, Publish(ev)), Given(s, i);
    assert s'.b.chans[i] == if i in s.b.subs then Sent(s.b.chans[i], ev) else s.b.chans[i];
    if i in s.b.subs && |s.b.chans[i].queue| < CHANNEL_SIZE {
      assert Given(s', i) == g + [ev];
    } else {
      assert Given(s', i) == g;
    }
  }

  /** A step that publishes nothing and starts nobody leaves everyone with what they have been given. */
  lemma QuietView(s: State, a: Action, i: nat)
    requires Inv(s) && i < |s.views| && Enabled(s, a) && !a.Publish? && !a.Subscribe?
    ensures ViewInv(Apply(s, a), i)
  {
    hide Last;
    assert ViewInv(s, i);
    assert Given(Apply(s, a), i) == Given(s, i);
  }

  lemma SubscribeView(s: State, i: nat)
    requires Inv(s) && i <= |s.views|
    ensures ViewInv(Apply(s, Subscribe), i)
  {
    var s' := Apply(s, Subscribe);
    if i < |s.views| {
      assert ViewInv(s, i);
      assert Given(s', i) == Given(s, i);
    } else {
      assert Given(s', i) == s.b.buf;
    }
  }

  lemma StepKeepsInv(s: State, a: Action)
    requires Inv(s) && Enabled(s, a)
    ensures Inv(Apply(s, a))
  {
    var s' := Apply(s, a);
    if a.Publish? { LastGrows(s.log, a.ev, s.b.max); }
    if a.Unsubscribe? && a.i in s.b.subs { assert ViewInv(s, a.i); }
    hide ViewInv, Last;
    forall i | 0 <= i < |s'.views| ensures ViewInv(s', i) {
      match a
      case Publish(ev) => PublishView(s, ev, i);
      case Subscribe => SubscribeView(s, i);
      case _ => QuietView(s, a, i);
    }
  }

  lemma RunsKeepInv(max: nat, acts: seq<Action>)
    ensures Run(max, acts).Some? ==> Inv(Run(max, acts).value) && Run(max, acts).value.b.max == max
  {
    hide Inv, Enabled;
    if acts == [] {
      EmptyInv(max);
    } else {
      var before := acts[..|acts| - 1];
      RunsKeepInv(max, before);
      if Run(max, acts).Some? { StepKeepsInv(Run(max, before).value, acts[|acts| - 1]); }
    }
  }

  lemma EmptyInv(max: nat)
    ensures Inv(State(Broker(max, [], [], {}, false), [], [], 0))
  {
  }

  /** Main result. Over every interleaving no channel is sent to once closed or closed twice, and what a
      subscriber was replayed, has received and has waiting is one block of the published log, in order,
      without gap or repeat. It reaches the end of the log while the subscriber is registered, and at
      least to where the broker was closed unless the subscriber left or fell behind. */
  lemma EverySubscriberSeesOneBlock(max: nat, acts: seq<Action>, i: nat)
    requires Run(max, acts).Some? && i < |Run(max, acts).value.views|
    ensures var s := Run(max, acts).value;
      && |s.views| == |s.b.chans|
      && var c, v, g := s.b.chans[i], s.views[i], Given(s, i);
      && !c.misused && v.from + |g| <= |s.log| && g == s.log[v.from..v.from + |g|]
      && (!c.closed ==> v.from + |g| == |s.log|)
      && (c.closed && !c.overflow && !v.left ==> s.b.done && s.ended <= v.from + |g|)
  {
    RunsKeepInv(max, acts);
    assert ViewInv(Run(max, acts).value, i);
  }

  /** Only a subscriber whose channel was full is ever dropped. */
  lemma OnlyTheFullAreDropped(s: State, a: Action, i: nat)
    requires Enabled(s, a) && i < |s.b.chans| && !s.b.chans[i].overflow
    ensures i < |Apply(s, a).b.chans|
    ensures Apply(s, a).b.chans[i].overflow ==> a.Publish? && i in s.b.subs && |s.b.chans[i].queue| >= CHANNEL_SIZE
  {
    hide Last;
  }

  /** A subscriber starts with as much of the log's end as the buffer holds. */
  lemma {:induction false} ReplayIsTheTail(max: nat, acts: seq<Action>)
    requires Run(max, acts).Some?
    ensures var s := Run(max, acts).value; var v := Apply(s, Subscribe).views[|s.views|];
      v.replay == s.log[v.from..] && v.from == if |s.log| > max then |s.log| - max else 0
  {
    RunsKeepInv(max, acts);
  }

  /** Once a run's last event, its final status, is out, a subscriber that fell behind is still shown it. */
  lemma {:induction false} DroppedStillSeeTheEnd(max: nat, acts: seq<Action>, st: TaskStatus)
    requires max > 0 && Run(max, acts).Some?
    requires var log := Run(max, acts).value.log; log != [] && log[|log| - 1] == StatusEvent(st, true)
    ensures LatestStatus(Run(max, acts).value.b.buf) == [StatusEvent(st, true)]
  {
    hide Run, LatestStatus, ViewInv;
    RunsKeepInv(max, acts);
    LastIsShown(Run(max, acts).value.log, max, st);
  }

  lemma LastIsShown(log: seq<Event>, max: nat, st: TaskStatus)
    requires max > 0 && log != [] && log[|log| - 1] == StatusEvent(st, true)
    ensures LatestStatus(Last(log, max)) == [StatusEvent(st, true)]
  {
    var buf := Last(log, max);
    assert buf[|buf| - 1] == log[|log| - 1];
  }

  /** A subscriber that was there from the start, stayed, and kept up has the whole run, so the client that
      reads from it gets the run's answer. */
  lemma SubscriberGetsTheAnswer(max: nat, acts: seq<Action>, i: nat, t: Task, h: HandlerRun)
    requires Run(max, acts).Some? && i < |Run(max, acts).value.views| && i < |Run(max, acts).value.b.chans|
    requires t.status.state == Working && t.artifacts == []
    requires var s := Run(max, acts).value; var c, v := s.b.chans[i], s.views[i];
      && s.log == RunEvents(t, h) && s.ended == |s.log| && v.from == 0
      && c.closed && c.queue == [] && !c.overflow && !v.left
    ensures var v := Run(max, acts).value.views[i]; var seen, done := v.replay + v.received, Settled(t, h);
      && seen == RunEvents(t, h)
      && (FirstFatal(OnWire(seen)).None? <==> done.status.state == Completed)
      && (done.status.state == Completed ==>
          Result(TookAll(OnWire(seen))) == if PartsText(h.outcome.parts) != "" then PartsText(h.outcome.parts) else Joined(h.deltas))
  {
    hide RunEvents, Run, FirstFatal, TookAll, Settled;
    EverySubscriberSeesOneBlock(max, acts, i);
    var s := Run(max, acts).value;
    assert Given(s, i) == s.views[i].replay + s.views[i].received;
    assert s.log[0..|s.log|] == s.log;
    ClientGetsTheAnswer(t, h);
  }

  lemma NoLaterStatus(s: seq<Event>)
    requires s != [] && s[0].StatusEvent? && forall i :: 0 < i < |s| ==> s[i].ArtifactEvent?
    ensures LatestStatus(s) == [StatusEvent(s[0].status, true)]
  {
    if |s| > 1 { NoLaterStatus(s[..|s| - 1]); }
  }

  lemma NoStatusAtAll(s: seq<Event>)
    requires forall i :: 0 <= i < |s| ==> s[i].ArtifactEvent?
    ensures LatestStatus(s) == []
  {
    if s != [] { NoStatusAtAll(s[..|s| - 1]); }
  }

  /** What a subscriber that fell behind is shown as final when it has drained, k events into the run: the
      terminal status exactly if the run is over; before that the working status, marked final too early,
      while the buffer still holds it, and nothing once it does not. */
  lemma DroppedSeeTheEndOnlyOnceItIsOut(max: nat, t: Task, h: HandlerRun, k: nat)
    requires t.status.state == Working && t.artifacts == [] && max > 0 && k <= |RunEvents(t, h)|
    ensures IsTerminal(Settled(t, h).status.state)
    ensures LatestStatus(Last(RunEvents(t, h)[..k], max)) ==
      if k == |RunEvents(t, h)| then [StatusEvent(Settled(t, h).status, true)]
      else if 0 < k <= max then [StatusEvent(Status(Working, h.now, None), true)]
      else []
  {
    var es := RunEvents(t, h);
    RunShape(t, h);
    RunStarts(t, h);
    hide RunEvents, Settled;
    assert es[..|es|] == es;
    if 0 < k < |es| {
      var buf := Last(es[..k], max);
      if k <= max { NoLaterStatus(buf); } else { NoStatusAtAll(buf); }
    }
  }

  lemma RunStarts(t: Task, h: HandlerRun)
    ensures RunEvents(t, h)[0] == StatusEvent(Status(Working, h.now, None), false)
  {
  }

  /** What a subscriber is shown in all: what it was given, and, if it was dropped, the latest artifact and
      status of the buffer. */
  function ShownTo(given: seq<Event>, dropped: bool, buf: seq<Event>): seq<Event> {
    given + if dropped then LatestArtifact(buf) + LatestStatus(buf) else []
  }

  lemma LatestSay(s: seq<Event>, st: TaskStatus)
    requires Says(s, st)
    ensures Says(LatestArtifact(s), st) && Says(LatestStatus(s), st)
  {
    if s != [] {
      assert s[|s| - 1] in s;
      LatestSay(s[..|s| - 1], st);
    }
  }

  lemma StretchSays(s: seq<Event>, st: TaskStatus, lo: nat, hi: nat)
    ensures Says(s, st) && lo <= hi <= |s| ==> Says(s[lo..hi], st)
  {
  }

  lemma ShownSays(given: seq<Event>, dropped: bool, buf: seq<Event>, st: TaskStatus)
    requires Says(given, st) && Says(buf, st)
    ensures Says(ShownTo(given, dropped, buf), st)
  {
    hide LatestArtifact, LatestStatus;
    LatestSay(buf, st);
  }

  lemma SliceOfPrefix(es: seq<Event>, k: nat, lo: nat, hi: nat)
    ensures lo <= hi <= k <= |es| ==> es[..k][lo..hi] == es[lo..hi]
  {
  }

  /** One dropped and drained before the run is over is told of no failure, whatever the run comes to. */
  lemma DroppedEarlySeeNoFailure(max: nat, t: Task, h: HandlerRun, k: nat, lo: nat, hi: nat)
    requires t.status.state == Working && t.artifacts == [] && lo <= hi <= k < |RunEvents(t, h)|
    ensures FirstFatal(OnWire(ShownTo(RunEvents(t, h)[lo..hi], true, Last(RunEvents(t, h)[..k], max)))) == None
  {
    hide RunEvents, Settled, ShownTo, FirstFatal;
    var es, buf, st := RunEvents(t, h)[..k], Last(RunEvents(t, h)[..k], max), Status(Working, 0, None);
    RunSays(t, h);
    SliceOfPrefix(RunEvents(t, h), k, lo, hi);
    assert Says(es, st);
    StretchSays(es, st, lo, hi);
    StretchSays(es, st, |es| - |buf|, |es|);
    hide Says, Last;
    ShownSays(es[lo..hi], true, buf, st);
    NoneFatal(ShownTo(es[lo..hi], true, buf), st);
  }

  lemma NoneFatal(es: seq<Event>, st: TaskStatus)
    requires Says(es, st) && st.state == Working
    ensures FirstFatal(OnWire(es)) == None
  {
    hide Says, FirstFatal;
    forall w | w in OnWire(es) ensures Fatal(w) == None { OnlyItIsFatal(es, st, w); }
    FatalIsOne(OnWire(es), None);
  }

  /** The end of a run, as its buffer holds it. */
  lemma EndOfTheBuffer(t: Task, h: HandlerRun, max: nat)
    requires t.status.state == Working && t.artifacts == [] && max > 0
    ensures var buf, done := Last(RunEvents(t, h), max), Settled(t, h);
      && LatestStatus(buf) == [StatusEvent(done.status, true)]
      && (done.status.state == Completed ==>
          LatestArtifact(buf) == if max >= 2 then [ArtifactEvent(Artifact(h.outcome.parts), false, true)] else [])
  {
    RunShape(t, h);
    hide RunEvents, Settled;
    var es, buf := RunEvents(t, h), Last(RunEvents(t, h), max);
    var n := |buf| - 1;
    assert buf[n] == es[|es| - 1];
    if Settled(t, h).status.state == Completed {
      if max >= 2 { assert buf[..n][n - 1] == es[|es| - 2]; } else { assert buf[..n] == []; }
    }
  }

  lemma ShownFails(t: Task, h: HandlerRun, max: nat, lo: nat, hi: nat, dropped: bool)
    requires t.status.state == Working && t.artifacts == [] && max > 0
    requires lo <= hi <= |RunEvents(t, h)| && lo < |RunEvents(t, h)| && (dropped || hi == |RunEvents(t, h)|)
    ensures FirstFatal(OnWire(ShownTo(RunEvents(t, h)[lo..hi], dropped, Last(RunEvents(t, h), max)))) == StatusFailure(Settled(t, h).status)
  {
    hide RunEvents, Settled, FirstFatal, StatusFailure, Says, LatestArtifact, LatestStatus;
    var es, buf, st := RunEvents(t, h), Last(RunEvents(t, h), max), Settled(t, h).status;
    RunSays(t, h);
    EndOfTheBuffer(t, h, max);
    StretchSays(es, st, lo, hi);
    StretchSays(es, st, |es| - |buf|, |es|);
    assert buf == es[|es| - |buf|..|es|];
    ShownSays(es[lo..hi], dropped, buf, st);
    EndsInStatus(es[lo..hi], dropped, buf, st);
    FinalDecides(ShownTo(es[lo..hi], dropped, buf), st);
  }

  lemma EndsInStatus(given: seq<Event>, dropped: bool, buf: seq<Event>, st: TaskStatus)
    requires LatestStatus(buf) == [StatusEvent(st, true)]
    requires dropped || (given != [] && given[|given| - 1] == StatusEvent(st, true))
    ensures var shown := ShownTo(given, dropped, buf); shown != [] && shown[|shown| - 1] == StatusEvent(st, true)
  {
    hide LatestArtifact, LatestStatus;
  }

  lemma ShownInTwo(given: seq<Event>, dropped: bool, buf: seq<Event>)
    ensures OnWire(ShownTo(given, dropped, buf)) == OnWire(given) + OnWire(if dropped then LatestArtifact(buf) + LatestStatus(buf) else [])
  {
    hide LatestArtifact, LatestStatus;
  }

  /** What the buffer's artifact and status add to what is put together. */
  lemma EndFolds(ws: seq<Wire>, tail: seq<Event>, parts: seq<Part>, st: TaskStatus)
    requires tail == [ArtifactEvent(Artifact(parts), false, true), StatusEvent(st, true)] || tail == [StatusEvent(st, true)]
    ensures TookAll(ws + OnWire(tail)) == if |tail| == 2 then Final(TookAll(ws), PartsText(parts)) else TookAll(ws)
  {
    hide TookAll, PartsText, Told;
    TookTwo(ws, OnWire(tail));
  }

  /** What a follower's client puts together from events lo..hi of a completed run, and the buffer's end if
      it was dropped. */
  function FollowersText(t: Task, h: HandlerRun, max: nat, lo: nat, hi: nat, dropped: bool): string {
    if FinalText(h) != "" && (LastSeen(t, h, lo, hi) || (dropped && max >= 2)) then FinalText(h)
    else Joined(ChunksSeen(h.deltas, lo, hi))
  }

  /** The follower's stream has ended: nothing is left in its closed channel, and it did not leave. */
  predicate Drained(s: State, i: nat) {
    i < |s.views| && i < |s.b.chans| && s.b.chans[i].closed && s.b.chans[i].queue == [] && !s.views[i].left
  }

  lemma ShownText(t: Task, h: HandlerRun, max: nat, lo: nat, hi: nat, dropped: bool)
    requires t.status.state == Working && t.artifacts == [] && max > 0 && Settled(t, h).status.state == Completed
    requires lo <= hi <= |RunEvents(t, h)|
    ensures Result(TookAll(OnWire(ShownTo(RunEvents(t, h)[lo..hi], dropped, Last(RunEvents(t, h), max))))) ==
      FollowersText(t, h, max, lo, hi, dropped)
  {
    hide RunEvents, ShownTo, LatestArtifact, LatestStatus, TookAll, OnWire, PartsText, Joined, ChunksSeen, LastSeen, Settled;
    var given, buf, st := RunEvents(t, h)[lo..hi], Last(RunEvents(t, h), max), Settled(t, h).status;
    EndOfTheBuffer(t, h, max);
    CompletedIsDone(t, h);
    StretchFolds(t, h, lo, hi);
    NothingFolds();
    ShownInTwo(given, dropped, buf);
    if dropped {
      var tail := LatestArtifact(buf) + LatestStatus(buf);
      assert tail == if max >= 2 then [ArtifactEvent(Artifact(h.outcome.parts), false, true), StatusEvent(st, true)] else [StatusEvent(st, true)];
      EndFolds(OnWire(given), tail, h.outcome.parts, st);
    } else {
      NoTail(OnWire(given));
    }
  }

  lemma NoTail(ws: seq<Wire>)
    ensures ws + OnWire([]) == ws
  {
  }

  lemma CompletedIsDone(t: Task, h: HandlerRun)
    ensures t.status.state == Working && Settled(t, h).status.state == Completed ==> h.outcome.Done?
  {
  }

  /** Main result. A follower of a finished run, however late it came and whether or not it was dropped,
      fails just as the run did. Where the run completed it returns the result's text, if that is not empty
      and it was shown the artifact, as it is when dropped with a buffer of two or more; otherwise it returns
      the chunks it was given. */
  lemma FollowersGetWhatTheySaw(max: nat, acts: seq<Action>, i: nat, t: Task, h: HandlerRun)
    requires max > 0 && Run(max, acts).Some? && Drained(Run(max, acts).value, i)
    requires t.status.state == Working && t.artifacts == []
    requires Run(max, acts).value.log == RunEvents(t, h) && Run(max, acts).value.ended == |RunEvents(t, h)|
    ensures var s := Run(max, acts).value; var v, dropped := s.views[i], s.b.chans[i].overflow;
      var given := v.replay + v.received;
      var shown := OnWire(ShownTo(given, dropped, s.b.buf));
      && FirstFatal(shown) == FirstFatal(OnWire(RunEvents(t, h)))
      && (Settled(t, h).status.state == Completed ==>
          Result(TookAll(shown)) == FollowersText(t, h, max, v.from, v.from + |given|, dropped))
  {
    RunsKeepInv(max, acts);
    hide *;
    FollowerFolds(Run(max, acts).value, i, t, h);
  }

  lemma FollowerFolds(s: State, i: nat, t: Task, h: HandlerRun)
    requires Inv(s) && s.b.max > 0 && Drained(s, i) && t.status.state == Working && t.artifacts == []
    requires s.log == RunEvents(t, h) && s.ended == |RunEvents(t, h)|
    ensures i < |s.views| && i < |s.b.chans|
    ensures var v, dropped := s.views[i], s.b.chans[i].overflow;
      var given := v.replay + v.received;
      var shown := OnWire(ShownTo(given, dropped, s.b.buf));
      && FirstFatal(shown) == FirstFatal(OnWire(RunEvents(t, h)))
      && (Settled(t, h).status.state == Completed ==>
          Result(TookAll(shown)) == FollowersText(t, h, s.b.max, v.from, v.from + |given|, dropped))
  {
    hide *;
    RunIsLong(t, h);
    FollowerSaw(s, i);
    var lo, hi := s.views[i].from, s.views[i].from + |s.views[i].replay + s.views[i].received|;
    ShownFails(t, h, s.b.max, lo, hi, s.b.chans[i].overflow);
    RunFails(t, h);
    if Settled(t, h).status.state == Completed { ShownText(t, h, s.b.max, lo, hi, s.b.chans[i].overflow); }
  }

  lemma RunIsLong(t: Task, h: HandlerRun)
    ensures |RunEvents(t, h)| > 0
  {
  }

  lemma RunFails(t: Task, h: HandlerRun)
    requires t.status.state == Working && t.artifacts == []
    ensures FirstFatal(OnWire(RunEvents(t, h))) == StatusFailure(Settled(t, h).status)
  {
    hide RunEvents, Settled, Says;
    RunSays(t, h);
    FinalDecides(RunEvents(t, h), Settled(t, h).status);
  }

  /** So it gets a completed run's answer exactly if it was shown a result that is not empty, or if the chunks
      it missed make no difference. */
  lemma FollowersGetTheAnswerJustWhen(t: Task, h: HandlerRun, max: nat, lo: nat, hi: nat, dropped: bool)
    requires t.status.state == Working && t.artifacts == [] && Settled(t, h).status.state == Completed
    ensures FollowersText(t, h, max, lo, hi, dropped) == Result(TookAll(OnWire(RunEvents(t, h)))) <==>
      if FinalText(h) == "" then Joined(ChunksSeen(h.deltas, lo, hi)) == Joined(h.deltas)
      else LastSeen(t, h, lo, hi) || (dropped && max >= 2) || Joined(ChunksSeen(h.deltas, lo, hi)) == FinalText(h)
  {
    hide RunEvents, TookAll, Settled, Joined, ChunksSeen, LastSeen, PartsText, OnWire;
    ClientGetsTheAnswer(t, h);
    CompletedIsDone(t, h);
  }

  lemma FollowerSaw(s: State, i: nat)
    requires Inv(s) && Drained(s, i) && s.b.max > 0 && s.ended == |s.log| && |s.log| > 0
    ensures i < |s.views| && i < |s.b.chans|
    ensures var v := s.views[i]; var lo, hi := v.from, v.from + |v.replay + v.received|;
      && lo <= hi <= |s.log| && lo < |s.log| && v.replay + v.received == s.log[lo..hi]
      && (s.b.chans[i].overflow || hi == |s.log|) && s.b.buf == Last(s.log, s.b.max)
  {
    assert ViewInv(s, i) && Given(s, i) == s.views[i].replay + s.views[i].received;
  }
}
