// One end of a JSON-RPC connection (JSON-RPC 2.0, sections 4.1 and 5): calls and the responses that
// answer them (internal/rpc/peer.go), notifications handled in turn (internal/rpc/notechain.go).
module Rpc {
  import opened Text

  datatype Response = Response(key: string, body: string)

  /** A channel for one response. misused: sent to or closed after it was closed, or sent to while full. */
  datatype Chan = Chan(queue: seq<Response>, closed: bool, misused: bool)

  const OPEN := Chan([], false, false)

  function Send(c: Chan, r: Response): Chan { Chan(c.queue + [r], c.closed, c.misused || c.closed || c.queue != []) }

  function Close(c: Chan): Chan { Chan(c.queue, true, c.misused || c.closed) }

  /** Call i, counting from 0, has the id i + 1 and the channel i. */
  function Key(i: nat): string { Decimal(i + 1) }

  datatype PeerState = PeerState(chans: seq<Chan>, pending: map<string, nat>, closed: bool)

  function Drawn(p: PeerState): PeerState { p.(chans := p.chans + [OPEN]) }

  function Registered(p: PeerState, i: nat): PeerState { if p.closed then p else p.(pending := p.pending[Key(i) := i]) }

  function Forgotten(p: PeerState, i: nat): PeerState { p.(pending := p.pending - {Key(i)}) }

  function Failed(p: PeerState): PeerState {
    if p.closed then p
    else PeerState(
      seq(|p.chans|, i requires 0 <= i < |p.chans| => if Key(i) in p.pending && p.pending[Key(i)] == i then Close(p.chans[i]) else p.chans[i]),
      map[], true)
  }

  class Peer {
    var chans: seq<Chan>
    var pending: map<string, nat>
    var closed: bool

    constructor ()
      ensures State() == PeerState([], map[], false) && Valid()
    {
      chans, pending, closed := [], map[], false;
    }

    function State(): PeerState
      reads this
    {
      PeerState(chans, pending, closed)
    }

    ghost predicate Valid()
      reads this
    {
      forall k :: k in pending ==> pending[k] < |chans| && k == Key(pending[k])
    }

    method Draw() returns (i: nat)
      requires Valid()
      modifies this`chans
      ensures State() == Drawn(old(State())) && i == |old(chans)| && Valid()
    {
      i := |chans|;
      chans := chans + [OPEN];
    }

    method Register(i: nat) returns (ok: bool)
      requires Valid() && i < |chans|
      modifies this`pending
      ensures State() == Registered(old(State()), i) && ok == !closed && Valid()
    {
      if closed { return false; }
      pending := pending[Key(i) := i];
      ok := true;
    }

    method Forget(i: nat)
      requires Valid()
      modifies this`pending
      ensures State() == Forgotten(old(State()), i) && Valid()
    {
      pending := pending - {Key(i)};
    }

    /** The channel of the call a response is for, if it is still waited for; it is not looked up twice. */
    method Claim(key: string) returns (i: Option<nat>)
      requires Valid()
      modifies this`pending
      ensures pending == old(pending) - {key} && Valid()
      ensures i == if key in old(pending) then Some(old(pending)[key]) else None
    {
      i := None;
      if key in pending { i := Some(pending[key]); }
      pending := pending - {key};
    }

    method Fail()
      requires Valid()
      modifies this
      ensures State() == Failed(old(State())) && Valid()
    {
      hide FailedDown;
      if closed { return; }
      closed := true;
      ghost var was := old(State());
      FailedNone(was);
      while pending != map[]
        invariant closed && FailedDown(was, chans, pending)
        decreases |pending|
      {
        var k :| k in pending;
        FailedMore(was, chans, pending, k);
        chans := chans[pending[k] := Close(chans[pending[k]])];
        pending := pending - {k};
      }
      FailedAll(was, chans);
    }
  }

  /** Failing under way: the channels of the entries already taken out of the map are closed. */
  ghost predicate FailedDown(was: PeerState, chans: seq<Chan>, pending: map<string, nat>) {
    && |chans| == |was.chans|
    && (forall k :: k in pending ==> k in was.pending && pending[k] == was.pending[k])
    && (forall k :: k in was.pending ==> was.pending[k] < |chans| && k == Key(was.pending[k]))
    && (forall i :: 0 <= i < |chans| ==>
        chans[i] == if Key(i) in was.pending && was.pending[Key(i)] == i && Key(i) !in pending then Close(was.chans[i]) else was.chans[i])
  }

  lemma FailedNone(was: PeerState)
    requires forall k :: k in was.pending ==> was.pending[k] < |was.chans| && k == Key(was.pending[k])
    ensures FailedDown(was, was.chans, was.pending)
  {
    hide Key, Close;
  }

  lemma FailedMore(was: PeerState, chans: seq<Chan>, pending: map<string, nat>, k: string)
    requires FailedDown(was, chans, pending) && k in pending
    ensures pending[k] < |chans| && FailedDown(was, chans[pending[k] := Close(chans[pending[k]])], pending - {k})
  {
    hide Key, Close;
  }

  lemma FailedAll(was: PeerState, chans: seq<Chan>)
    requires FailedDown(was, chans, map[]) && !was.closed
    ensures Failed(was) == PeerState(chans, map[], true)
  {
    hide Key, Close;
  }

  // ----- the protocol

  datatype Result = Answered(r: Response) | Disconnected | Refused | WriteFailed | Canceled

  /** A call has drawn its id, registered, written its request; or it has returned. */
  datatype Phase = Fresh | Writing | Waiting | Returned(res: Result)

  /** carried: a response taken for the call and not yet passed on. */
  datatype Call = Call(phase: Phase, carried: seq<Response>)

  datatype State = State(p: PeerState, calls: seq<Call>)

  datatype Action =
    | Draw
    | Register(i: nat)
    | Wrote(i: nat, ok: bool)
    | Deliver(r: Response)
    | Pass(i: nat)
    | Receive(i: nat)
    | Cancel(i: nat)
    | Fail

  predicate Enabled(s: State, a: Action) {
    && |s.calls| == |s.p.chans|
    && match a
       case Register(i) => i < |s.calls| && s.calls[i].phase == Fresh
       case Wrote(i, _) => i < |s.calls| && s.calls[i].phase == Writing
       case Deliver(r) => r.key in s.p.pending ==> s.p.pending[r.key] < |s.calls|
       case Pass(i) => i < |s.calls| && s.calls[i].carried != []
       case Receive(i) => i < |s.calls| && s.calls[i].phase == Waiting && (s.p.chans[i].queue != [] || s.p.chans[i].closed)
       case Cancel(i) => i < |s.calls| && s.calls[i].phase == Waiting
       case _ => true
  }

  function To(s: State, i: nat, p: PeerState, phase: Phase): State
    requires i < |s.calls|
  {
    State(p, s.calls[i := s.calls[i].(phase := phase)])
  }

  function Apply(s: State, a: Action): State
    requires Enabled(s, a)
  {
    match a
    case Draw => State(Drawn(s.p), s.calls + [Call(Fresh, [])])
    case Register(i) => To(s, i, Registered(s.p, i), if s.p.closed then Returned(Refused) else Writing)
    case Wrote(i, ok) => if ok then To(s, i, s.p, Waiting) else To(s, i, Forgotten(s.p, i), Returned(WriteFailed))
    case Deliver(r) =>
      if r.key in s.p.pending then
        var i := s.p.pending[r.key];
        State(s.p.(pending := s.p.pending - {r.key}), s.calls[i := s.calls[i].(carried := s.calls[i].carried + [r])])
      else s
    case Pass(i) =>
      State(s.p.(chans := s.p.chans[i := Send(s.p.chans[i], s.calls[i].carried[0])]),
            s.calls[i := s.calls[i].(carried := s.calls[i].carried[1..])])
    case Receive(i) =>
      var c := s.p.chans[i];
      if c.queue != [] then To(s, i, s.p.(chans := s.p.chans[i := c.(queue := c.queue[1..])]), Returned(Answered(c.queue[0])))
      else To(s, i, s.p, Returned(Disconnected))
    case Cancel(i) => To(s, i, Forgotten(s.p, i), Returned(Canceled))
    case Fail => s.(p := Failed(s.p))
  }

  function Run(acts: seq<Action>): Option<State> {
    if acts == [] then Some(State(PeerState([], map[], false), []))
    else
      var s := Run(acts[..|acts| - 1]);
      if s.Some? && Enabled(s.value, acts[|acts| - 1]) then Some(Apply(s.value, acts[|acts| - 1])) else None
  }

  /** A registered call is answered once: its answer is still awaited, on its way, in its channel, or taken;
      or the connection's end was announced to it instead. */
  ghost predicate CallInv(s: State, i: nat)
    requires i < |s.calls| && |s.calls| == |s.p.chans|
  {
    var c, ch := s.calls[i], s.p.chans[i];
    && !ch.misused
    && |c.carried| + |ch.queue| + (if ch.closed then 1 else 0) + (if Key(i) in s.p.pending then 1 else 0)
       + (if c.phase.Returned? && c.phase.res.Answered? then 1 else 0) <= 1
    && (forall r :: r in c.carried || r in ch.queue ==> r.key == Key(i))
    && (c.phase.Returned? && c.phase.res.Answered? ==> c.phase.res.r.key == Key(i))
    && (c.phase == Fresh ==> Key(i) !in s.p.pending && c.carried == [] && ch.queue == [] && !ch.closed)
    && (c.phase.Returned? ==> Key(i) !in s.p.pending)
    && (c.phase == Writing || c.phase == Waiting ==> Key(i) in s.p.pending || c.carried != [] || ch.queue != [] || ch.closed)
  }

  ghost predicate Inv(s: State) {
    && |s.calls| == |s.p.chans|
    && (forall k :: k in s.p.pending ==> s.p.pending[k] < |s.calls| && k == Key(s.p.pending[k]))
    && (s.p.closed ==> s.p.pending == map[])
    && (forall i :: 0 <= i < |s.calls| ==> CallInv(s, i))
  }

  lemma KeysDiffer(i: nat, j: nat)
    ensures Key(i) == Key(j) <==> i == j
  {
    if Key(i) == Key(j) { DecimalInjective(i + 1, j + 1); }
  }

  lemma StepKeepsCall(s: State, a: Action, i: nat)
    requires Inv(s) && Enabled(s, a) && i < |Apply(s, a).calls|
    ensures CallInv(Apply(s, a), i)
  {
    hide Key;
    if i < |s.calls| { assert CallInv(s, i); }
    if !(a.Draw? || a.Fail? || a.Deliver?) {
      KeysDiffer(i, a.i);
    } else {
      if Key(i) in s.p.pending { KeysDiffer(i, s.p.pending[Key(i)]); }
      if a.Deliver? && a.r.key in s.p.pending {
        KeysDiffer(i, s.p.pending[a.r.key]);
        assert CallInv(s, s.p.pending[a.r.key]);
      }
    }
  }

  lemma StepKeepsInv(s: State, a: Action)
    requires Inv(s) && Enabled(s, a)
    ensures Inv(Apply(s, a))
  {
    hide CallInv, Key;
    var s' := Apply(s, a);
    forall i | 0 <= i < |s'.calls| ensures CallInv(s', i) {
      StepKeepsCall(s, a, i);
    }
  }

  lemma RunsKeepInv(acts: seq<Action>)
    ensures Run(acts).Some? ==> Inv(Run(acts).value)
  {
    hide CallInv, Enabled;
    if acts != [] {
      RunsKeepInv(acts[..|acts| - 1]);
      if Run(acts).Some? { StepKeepsInv(Run(acts[..|acts| - 1]).value, acts[|acts| - 1]); }
    }
  }

  /** Main result. Over every interleaving no channel is sent to once closed, closed twice, or sent to while
      full; a call is answered only by the response that bears its id, and at most once; and a call that
      waits is registered, or has its answer or the connection's end on the way. */
  lemma CallsAreAnsweredOnce(acts: seq<Action>, i: nat)
    requires Run(acts).Some? && i < |Run(acts).value.calls|
    ensures var s := Run(acts).value;
      && |s.p.chans| == |s.calls| && !s.p.chans[i].misused
      && (s.calls[i].phase.Returned? && s.calls[i].phase.res.Answered? ==>
          s.calls[i].phase.res.r.key == Key(i) && s.calls[i].carried == [] && s.p.chans[i].queue == [] && !s.p.chans[i].closed)
      && (s.calls[i].phase == Waiting ==> Key(i) in s.p.pending || s.calls[i].carried != [] || Enabled(s, Receive(i)))
      && (s.calls[i].phase.Returned? ==> Key(i) !in s.p.pending)
  {
    RunsKeepInv(acts);
    hide Key;
    assert CallInv(Run(acts).value, i);
  }

  /** What a call returned stays what it returned. */
  lemma ReturnedIsFinal(s: State, a: Action, i: nat)
    requires Enabled(s, a) && i < |s.calls| && s.calls[i].phase.Returned?
    ensures i < |Apply(s, a).calls| && Apply(s, a).calls[i].phase == s.calls[i].phase
  {
    hide Key;
  }

  /** After the connection's end nothing is registered, or ever will be, and no waiting call is left without
      a response or the end to receive. */
  lemma NothingPendingAfterTheEnd(acts: seq<Action>, more: seq<Action>, i: nat)
    requires Run(acts + [Fail] + more).Some? && i < |Run(acts + [Fail] + more).value.calls|
    ensures var s := Run(acts + [Fail] + more).value;
      && s.p.closed && s.p.pending == map[]
      && (s.calls[i].phase == Waiting ==> s.calls[i].carried != [] || Enabled(s, Receive(i)))
  {
    RunsKeepInv(acts + [Fail] + more);
    StaysClosed(acts, more);
    CallsAreAnsweredOnce(acts + [Fail] + more, i);
  }

  lemma StaysClosed(acts: seq<Action>, more: seq<Action>)
    requires Run(acts + [Fail] + more).Some?
    ensures Run(acts + [Fail] + more).value.p.closed
    decreases |more|
  {
    hide Enabled, Key;
    var run := acts + [Fail] + more;
    if more == [] {
      assert run == acts + [Fail] && run[..|run| - 1] == acts;
    } else {
      assert run[..|run| - 1] == acts + [Fail] + more[..|more| - 1];
      StaysClosed(acts, more[..|more| - 1]);
    }
  }

  // ----- notifications

  datatype NotePhase = Held | Running | Finished

  /** Note i waits for channel i and closes channel i + 1 when it is done; channel 0 is closed from the start.
      order: the notes in the order their handlers started. */
  datatype Notes = Notes(notes: seq<NotePhase>, closed: seq<bool>, order: seq<nat>, canceled: bool, misused: bool)

  datatype NoteAction = Next | Start(i: nat) | Finish(i: nat) | GiveUp(i: nat) | CancelAll

  const NO_NOTES := Notes([], [true], [], false, false)

  predicate NoteEnabled(n: Notes, a: NoteAction) {
    && |n.closed| == |n.notes| + 1
    && match a
       case Start(i) => i < |n.notes| && n.notes[i] == Held && n.closed[i]
       case Finish(i) => i < |n.notes| && n.notes[i] == Running
       case GiveUp(i) => i < |n.notes| && n.notes[i] == Held && n.canceled
       case _ => true
  }

  function Closing(n: Notes, i: nat): Notes
    requires i < |n.notes| && |n.closed| == |n.notes| + 1
  {
    n.(notes := n.notes[i := Finished], closed := n.closed[i + 1 := true], misused := n.misused || n.closed[i + 1])
  }

  function NoteApply(n: Notes, a: NoteAction): Notes
    requires NoteEnabled(n, a)
  {
    match a
    case Next => n.(notes := n.notes + [Held], closed := n.closed + [false])
    case Start(i) => n.(notes := n.notes[i := Running], order := n.order + [i])
    case Finish(i) => Closing(n, i)
    case GiveUp(i) => Closing(n, i)
    case CancelAll => n.(canceled := true)
  }

  function NoteRun(acts: seq<NoteAction>): Option<Notes> {
    if acts == [] then Some(NO_NOTES)
    else
      var n := NoteRun(acts[..|acts| - 1]);
      if n.Some? && NoteEnabled(n.value, acts[|acts| - 1]) then Some(NoteApply(n.value, acts[|acts| - 1])) else None
  }

  ghost predicate NoteInv(n: Notes) {
    && |n.closed| == |n.notes| + 1 && n.closed[0] && !n.misused
    && (forall i :: 0 <= i < |n.notes| ==> (n.closed[i + 1] <==> n.notes[i] == Finished))
    && (!n.canceled ==>
        && |n.order| <= |n.notes|
        && (forall k :: 0 <= k < |n.order| ==> n.order[k] == k)
        && (forall i :: 0 <= i < |n.notes| ==> (n.notes[i] == Held <==> i >= |n.order|))
        && (forall i :: 0 <= i < |n.order| - 1 ==> n.notes[i] == Finished))
  }

  lemma NotesKeepInv(acts: seq<NoteAction>)
    ensures NoteRun(acts).Some? ==> NoteInv(NoteRun(acts).value)
  {
    if acts != [] {
      NotesKeepInv(acts[..|acts| - 1]);
      if NoteRun(acts).Some? && acts[|acts| - 1].Start? {
        var n, i := NoteRun(acts[..|acts| - 1]).value, acts[|acts| - 1].i;
        assert !n.canceled && i > 0 ==> n.closed[i - 1 + 1] && n.notes[i - 1] == Finished;
        assert !n.canceled ==> i == |n.order|;
      }
    }
  }

  /** Before the context is canceled the handlers of notifications run one at a time, in the order of arrival;
      no channel of the chain is ever closed twice. */
  lemma NotesRunInOrder(acts: seq<NoteAction>)
    requires NoteRun(acts).Some?
    ensures var n := NoteRun(acts).value;
      && !n.misused
      && (!n.canceled ==>
          && (forall k :: 0 <= k < |n.order| ==> n.order[k] == k)
          && (forall i, j :: 0 <= i < |n.notes| && 0 <= j < |n.notes| && n.notes[i] == Running && n.notes[j] == Running ==> i == j)
          && (forall i, j :: 0 <= i < j < |n.notes| && n.notes[j] != Held ==> n.notes[i] == Finished))
  {
    NotesKeepInv(acts);
  }

  /** And none is stuck: while one is held, the first unfinished one can start or finish. */
  lemma NotesProgress(acts: seq<NoteAction>)
    requires NoteRun(acts).Some? && exists i :: 0 <= i < |NoteRun(acts).value.notes| && NoteRun(acts).value.notes[i] != Finished
    ensures var n := NoteRun(acts).value;
      exists i :: 0 <= i < |n.notes| && (NoteEnabled(n, Start(i)) || NoteEnabled(n, Finish(i)))
  {
    NotesKeepInv(acts);
    var n := NoteRun(acts).value;
    var i: nat :| i < |n.notes| && n.notes[i] != Finished;
    var f := FirstUnfinished(n.notes, i);
    assert n.closed[f];
    assert NoteEnabled(n, Start(f)) || NoteEnabled(n, Finish(f));
  }

  lemma FirstUnfinished(notes: seq<NotePhase>, i: nat) returns (f: nat)
    requires i < |notes| && notes[i] != Finished
    ensures f <= i && notes[f] != Finished && (f > 0 ==> notes[f - 1] == Finished)
  {
    f := i;
    while f > 0 && notes[f - 1] != Finished
      invariant f <= i && notes[f] != Finished
    {
      f := f - 1;
    }
  }

  class NoteChain {
    var chans: seq<bool>
    var prev: nat

    constructor ()
      ensures chans == [true] && prev == 0
    {
      chans, prev := [true], 0;
    }

    /** The next link: its wait is the last one's done. */
    method Link() returns (wait: nat, done: nat)
      requires |chans| == prev + 1
      modifies this
      ensures wait == old(prev) && done == wait + 1 && prev == done && chans == old(chans) + [false] && |chans| == prev + 1
    {
      wait, done := prev, |chans|;
      chans := chans + [false];
      prev := done;
    }
  }
}
