// One task of the Agent2Agent protocol: its states (A2A Protocol v0.3, section 6.3), the events its run
// emits (a2a/taskstore.go, runStream) and the client that folds them into an answer (a2a/client.go,
// a2a/protocol.go).
module A2A {
  import opened Text

  datatype TaskState =
    | Submitted | Working | InputRequired | AuthRequired | Completed | Failed | Canceled | Rejected

  predicate IsTerminal(s: TaskState) { s == Completed || s == Failed || s == Canceled || s == Rejected }

  datatype Part = TextPart(text: string) | OtherPart

  function PartsText(parts: seq<Part>): string {
    if parts == [] then "" else PartsText(parts[..|parts| - 1]) + PartText(parts[|parts| - 1])
  }

  function PartText(p: Part): string { if p.TextPart? then p.text else "" }

  /** stamp: the parsed timestamp, if it parses. */
  datatype TaskStatus = TaskStatus(state: TaskState, stamp: Option<int>, message: Option<seq<Part>>)

  datatype Artifact = Artifact(parts: seq<Part>)

  datatype Task = Task(status: TaskStatus, artifacts: seq<Artifact>)

  datatype Event =
    | StatusEvent(status: TaskStatus, final: bool)
    | ArtifactEvent(artifact: Artifact, append: bool, last: bool)

  // ----- what may happen to a task

  const SECOND := 1_000_000_000

  /** Stored times have second resolution. */
  function Truncated(now: int): int { now - now % SECOND }

  function Status(state: TaskState, now: int, message: Option<seq<Part>>): TaskStatus {
    TaskStatus(state, Some(Truncated(now)), message)
  }

  function CompletedTask(t: Task, parts: seq<Part>, now: int): Task {
    if IsTerminal(t.status.state) then t else Task(Status(Completed, now, None), [Artifact(parts)])
  }

  function FailedTask(t: Task, err: string, now: int): Task {
    if IsTerminal(t.status.state) then t else t.(status := Status(Failed, now, Some([TextPart(err)])))
  }

  function CanceledTask(t: Task, now: int): Task {
    if IsTerminal(t.status.state) then t else t.(status := Status(Canceled, now, None))
  }

  // ----- a run

  datatype Outcome = Done(parts: seq<Part>) | Error(err: string)

  /** A handler's chunks and its result, and whether a cancellation lands while the handler runs, or
      after its outcome is recorded. */
  datatype HandlerRun = HandlerRun(deltas: seq<string>, outcome: Outcome, canceledDuring: bool, canceledAfter: bool, now: int)

  function Chunks(deltas: seq<string>): seq<Event> {
    seq(|deltas|, i requires 0 <= i < |deltas| => ArtifactEvent(Artifact([TextPart(deltas[i])]), i > 0, false))
  }

  function Settled(t: Task, h: HandlerRun): Task {
    var t1 := if h.canceledDuring then CanceledTask(t, h.now) else t;
    var t2 := match h.outcome case Done(parts) => CompletedTask(t1, parts, h.now) case Error(e) => FailedTask(t1, e, h.now);
    if h.canceledAfter then CanceledTask(t2, h.now) else t2
  }

  function LastChunk(t: Task, h: HandlerRun): seq<Event> {
    if h.outcome.Error? || t.artifacts == [] then [] else [ArtifactEvent(t.artifacts[0], false, true)]
  }

  function RunEvents(t: Task, h: HandlerRun): seq<Event> {
    var done := Settled(t, h);
    [StatusEvent(Status(Working, h.now, None), false)] + Chunks(h.deltas) + LastChunk(done, h) + [StatusEvent(done.status, true)]
  }

  method RunStream(t: Task, h: HandlerRun) returns (t': Task, events: seq<Event>)
    ensures t' == Settled(t, h) && events == RunEvents(t, h)
  {
    t' := t;
    events := [StatusEvent(Status(Working, h.now, None), false)];
    var firstChunk := true;
    for i := 0 to |h.deltas|
      invariant firstChunk == (i == 0)
      invariant events == [StatusEvent(Status(Working, h.now, None), false)] + Chunks(h.deltas)[..i]
    {
      events := events + [ArtifactEvent(Artifact([TextPart(h.deltas[i])]), !firstChunk, false)];
      firstChunk := false;
    }
    if h.canceledDuring { t' := CanceledTask(t', h.now); }
    if h.outcome.Error? {
      t' := FailedTask(t', h.outcome.err, h.now);
      if h.canceledAfter { t' := CanceledTask(t', h.now); }
      events := events + [StatusEvent(t'.status, true)];
    } else {
      t' := CompletedTask(t', h.outcome.parts, h.now);
      if h.canceledAfter { t' := CanceledTask(t', h.now); }
      if |t'.artifacts| > 0 { events := events + [ArtifactEvent(t'.artifacts[0], false, true)]; }
      events := events + [StatusEvent(t'.status, true)];
    }
  }

  /** A run's events: the working status first, then chunks of which only the first starts afresh, at most
      one artifact marked last, and one final status, the stored terminal one. A cancellation wins exactly
      if it lands before the outcome is recorded. */
  lemma RunShape(t: Task, h: HandlerRun)
    requires t.status.state == Working && t.artifacts == []
    ensures var es, done, n := RunEvents(t, h), Settled(t, h), |h.deltas|;
      && n + 2 <= |es| <= n + 3
      && es[0].StatusEvent? && es[0].status.state == Working && !es[0].final
      && (forall i :: 0 < i <= n ==> es[i] == ArtifactEvent(Artifact([TextPart(h.deltas[i - 1])]), i > 1, false))
      && (forall i :: 0 <= i < |es| - 1 && es[i].StatusEvent? ==> !es[i].final)
      && es[|es| - 1] == StatusEvent(done.status, true)
      && done.status == (
          if h.canceledDuring then Status(Canceled, h.now, None)
          else if h.outcome.Error? then Status(Failed, h.now, Some([TextPart(h.outcome.err)]))
          else Status(Completed, h.now, None))
      && (|es| == n + 3 <==> done.status.state == Completed)
      && (done.status.state == Completed ==> es[n + 1] == ArtifactEvent(Artifact(h.outcome.parts), false, true) && done.artifacts == [Artifact(h.outcome.parts)])
      && (done.status.state != Completed ==> done.artifacts == [])
  {
  }

  // ----- the client

  datatype AsmState = AsmState(full: string, final: string, sawDelta: bool, sawFinal: bool)

  const EMPTY := AsmState("", "", false, false)

  function Delta(a: AsmState, text: string, append: bool): AsmState {
    a.(full := (if append then a.full else "") + text, sawDelta := true)
  }

  function Final(a: AsmState, text: string): AsmState { a.(final := text, sawFinal := true) }

  function Result(a: AsmState): string {
    if a.sawFinal && a.final != "" then a.final else if a.sawDelta then a.full else a.final
  }

  class StreamAssembler {
    var full: string
    var final: string
    var sawDelta: bool
    var sawFinal: bool

    constructor ()
      ensures State() == EMPTY
    {
      full, final, sawDelta, sawFinal := "", "", false, false;
    }

    function State(): AsmState
      reads this
    {
      AsmState(full, final, sawDelta, sawFinal)
    }

    method AddDelta(text: string, append: bool)
      modifies this
      ensures State() == Delta(old(State()), text, append)
    {
      if !append { full := ""; }
      full := full + text;
      sawDelta := true;
    }

    method SetFinal(text: string)
      modifies this
      ensures State() == Final(old(State()), text)
    {
      final, sawFinal := text, true;
    }

    method GetResult() returns (text: string)
      ensures text == Result(State())
    {
      if sawFinal && final != "" { return final; }
      if sawDelta { return full; }
      return final;
    }
  }

  /** One message of the response stream, decoded. */
  datatype Wire =
    | Noise
    | ReadError
    | RpcError
    | MessageUpdate(parts: seq<Part>)
    | TaskUpdate(task: Task)
    | Update(ev: Event)

  /** What the client returns when it does not return text. */
  datatype Failure = BrokenStream | Rpc | TaskFailure(state: TaskState, msg: string)

  function StatusFailure(st: TaskStatus): Option<Failure> {
    if st.state == Failed || st.state == Canceled || st.state == Rejected
    then Some(TaskFailure(st.state, if st.message.Some? then PartsText(st.message.value) else ""))
    else None
  }

  function ArtifactsText(artifacts: seq<Artifact>): string {
    if artifacts == [] then "" else ArtifactsText(artifacts[..|artifacts| - 1]) + PartsText(artifacts[|artifacts| - 1].parts)
  }

  function TaskText(t: Task): string {
    var text := ArtifactsText(t.artifacts);
    if text == "" && t.status.message.Some? then PartsText(t.status.message.value) else text
  }

  /** Why a message ends the stream with an error, if it does. */
  function Fatal(w: Wire): Option<Failure> {
    match w
    case ReadError => Some(BrokenStream)
    case RpcError => Some(Rpc)
    case TaskUpdate(t) => StatusFailure(t.status)
    case Update(StatusEvent(st, _)) => StatusFailure(st)
    case _ => None
  }

  function Settles(s: TaskState): bool { s == Completed || s == InputRequired || s == AuthRequired }

  function Took(a: AsmState, w: Wire): AsmState {
    match w
    case MessageUpdate(parts) => Delta(a, PartsText(parts), true)
    case TaskUpdate(t) => if Settles(t.status.state) then Final(a, TaskText(t)) else a
    case Update(ArtifactEvent(art, append, last)) =>
      if last then Final(a, PartsText(art.parts)) else Delta(a, PartsText(art.parts), append)
    case _ => a
  }

  function TookAll(ws: seq<Wire>): AsmState {
    if ws == [] then EMPTY else Took(TookAll(ws[..|ws| - 1]), ws[|ws| - 1])
  }

  function FirstFatal(ws: seq<Wire>): (f: Option<Failure>)
    ensures f.None? <==> forall w :: w in ws ==> Fatal(w).None?
  {
    if ws == [] then None
    else
      var f := FirstFatal(ws[..|ws| - 1]);
      if f.Some? then f else Fatal(ws[|ws| - 1])
  }

  /** What the caller's onDelta is told. */
  function Told(ws: seq<Wire>): seq<string> {
    if ws == [] then [] else Told(ws[..|ws| - 1]) + TextTold(ws[|ws| - 1])
  }

  function TextTold(w: Wire): seq<string> {
    match w
    case MessageUpdate(parts) => [PartsText(parts)]
    case Update(ArtifactEvent(art, _, last)) => if last then [] else [PartsText(art.parts)]
    case _ => []
  }

  /** The messages up to the first fatal one. */
  function Read(ws: seq<Wire>): seq<Wire> {
    if ws == [] then [] else if FirstFatal(ws[..|ws| - 1]).Some? then Read(ws[..|ws| - 1]) else ws
  }

  method SendMessageStream(ws: seq<Wire>) returns (text: string, failure: Option<Failure>, told: seq<string>)
    ensures failure == FirstFatal(ws)
    ensures text == if failure.None? then Result(TookAll(ws)) else ""
    ensures told == Told(Read(ws))
  {
    hide IsTerminal, PartsText, ArtifactsText, StatusFailure, TookAll, FirstFatal, Read;
    told := [];
    var asm := new StreamAssembler();
    NothingTook();
    for i := 0 to |ws|
      invariant FirstFatal(ws[..i]) == None && asm.State() == TookAll(ws[..i]) && told == Told(ws[..i])
    {
      TookMore(ws, i);
      if Fatal(ws[i]).Some? {
        FatalStays(ws, i);
        ReadStops(ws, i);
        FatalTellsNothing(ws[i]);
        assert Told(ws[..i]) + [] == Told(ws[..i]);
      }
      match ws[i] {
        case ReadError => return "", Some(BrokenStream), told;
        case RpcError => return "", Some(Rpc), told;
        case MessageUpdate(parts) =>
          asm.AddDelta(PartsText(parts), true);
          told := told + [PartsText(parts)];
        case TaskUpdate(t) =>
          var failed := StatusFailure(t.status);
          if failed.Some? { return "", failed, told; }
          if Settles(t.status.state) { asm.SetFinal(TaskText(t)); }
        case Update(ev) =>
          if ev.StatusEvent? {
            var failed := StatusFailure(ev.status);
            if failed.Some? { return "", failed, told; }
          } else if ev.last {
            asm.SetFinal(PartsText(ev.artifact.parts));
          } else {
            asm.AddDelta(PartsText(ev.artifact.parts), ev.append);
            told := told + [PartsText(ev.artifact.parts)];
          }
        case Noise =>
      }
    }
    assert ws[..|ws|] == ws;
    text := asm.GetResult();
    failure := None;
    AllRead(ws);
  }

  lemma NothingTook()
    ensures TookAll([]) == EMPTY && FirstFatal([]) == None
  {
  }

  lemma TookMore(ws: seq<Wire>, i: nat)
    requires i < |ws|
    ensures TookAll(ws[..i + 1]) == Took(TookAll(ws[..i]), ws[i]) && Told(ws[..i + 1]) == Told(ws[..i]) + TextTold(ws[i])
    ensures FirstFatal(ws[..i]).None? ==> FirstFatal(ws[..i + 1]) == Fatal(ws[i])
  {
    assert ws[..i + 1][..i] == ws[..i];
  }

  lemma AllRead(ws: seq<Wire>)
    ensures FirstFatal(ws).None? ==> Read(ws) == ws
  {
  }

  /** What ends the stream early is what ends it. */
  lemma FatalStays(ws: seq<Wire>, i: nat)
    requires i < |ws| && FirstFatal(ws[..i]) == None && Fatal(ws[i]).Some?
    ensures FirstFatal(ws) == Fatal(ws[i])
    decreases |ws|
  {
    hide Fatal;
    var n := |ws| - 1;
    if i < n {
      assert ws[..n][..i] == ws[..i];
      FatalStays(ws[..n], i);
    }
  }

  lemma ReadStops(ws: seq<Wire>, i: nat)
    requires i < |ws| && FirstFatal(ws[..i]) == None && Fatal(ws[i]).Some?
    ensures Read(ws) == ws[..i + 1]
    decreases |ws|
  {
    hide Fatal, FirstFatal;
    var n := |ws| - 1;
    if i < n {
      assert ws[..n][..i] == ws[..i] && ws[..n][..i + 1] == ws[..i + 1];
      FatalStays(ws[..n], i);
      ReadStops(ws[..n], i);
    } else {
      assert ws[..i + 1] == ws;
    }
  }

  lemma FatalTellsNothing(w: Wire)
    ensures Fatal(w).Some? ==> TextTold(w) == []
  {
  }

  // ----- the two together

  function OnWire(es: seq<Event>): seq<Wire> {
    seq(|es|, i requires 0 <= i < |es| => Update(es[i]))
  }

  function Joined(deltas: seq<string>): string {
    if deltas == [] then "" else Joined(deltas[..|deltas| - 1]) + deltas[|deltas| - 1]
  }

  lemma ChunksJoin(st: TaskStatus, deltas: seq<string>)
    ensures var ws := OnWire([StatusEvent(st, false)] + Chunks(deltas));
      TookAll(ws) == AsmState(Joined(deltas), "", deltas != [], false) && Told(ws) == deltas
  {
    hide TookAll, Told, Joined, PartsText, Took, TextTold;
    NothingFolds();
    var es, n := [StatusEvent(st, false)] + Chunks(deltas), |deltas|;
    if n == 0 {
      assert OnWire(es) == [] + [Update(StatusEvent(st, false))];
      TookTwo([], [Update(StatusEvent(st, false))]);
      StatusFolds(EMPTY, st);
    } else {
      var front, last := OnWire([StatusEvent(st, false)] + Chunks(deltas[..n - 1])), Update(ArtifactEvent(Artifact([TextPart(deltas[n - 1])]), n > 1, false));
      assert OnWire(es) == front + [last];
      ChunksJoin(st, deltas[..n - 1]);
      TookTwo(front, [last]);
      ChunkFolds(AsmState(Joined(deltas[..n - 1]), "", n > 1, false), deltas[n - 1], n > 1);
      assert deltas == deltas[..n - 1] + [deltas[n - 1]];
      JoinedMore(deltas[..n - 1], deltas[n - 1]);
      if n == 1 { assert deltas[..0] == []; }
    }
  }

  lemma StatusFolds(a: AsmState, st: TaskStatus)
    ensures Took(a, Update(StatusEvent(st, false))) == a && TextTold(Update(StatusEvent(st, false))) == []
  {
  }

  lemma ChunkFolds(a: AsmState, text: string, append: bool)
    ensures var w := Update(ArtifactEvent(Artifact([TextPart(text)]), append, false));
      Took(a, w) == Delta(a, text, append) && TextTold(w) == [text]
  {
    OnePart(text);
  }

  lemma JoinedMore(deltas: seq<string>, text: string)
    ensures Joined(deltas + [text]) == Joined(deltas) + text
  {
    assert (deltas + [text])[..|deltas|] == deltas;
  }

  lemma NothingFolds()
    ensures TookAll([]) == EMPTY && Told([]) == [] && Joined([]) == ""
  {
  }

  lemma OnePart(text: string)
    ensures PartsText([TextPart(text)]) == text
  {
    assert [TextPart(text)][..0] == [];
    assert "" + text == text;
  }

  lemma TookTwo(ws: seq<Wire>, tail: seq<Wire>)
    requires |tail| <= 2
    ensures TookAll(ws + tail) ==
      if tail == [] then TookAll(ws) else if |tail| == 1 then Took(TookAll(ws), tail[0]) else Took(Took(TookAll(ws), tail[0]), tail[1])
    ensures Told(ws + tail) ==
      if tail == [] then Told(ws) else if |tail| == 1 then Told(ws) + TextTold(tail[0]) else Told(ws) + TextTold(tail[0]) + TextTold(tail[1])
  {
    hide Took, TextTold;
    if tail == [] {
      assert ws + tail == ws;
    } else if |tail| == 1 {
      assert (ws + tail)[..|ws|] == ws;
    } else {
      assert (ws + tail)[..|ws| + 1][..|ws|] == ws;
      assert (ws + tail)[..|ws| + 1] == ws + [tail[0]];
    }
  }

  /** Main result. Whatever a handler streams and returns, and whenever it is canceled, the client fails
      exactly when the stored task did not complete, with that task's state; otherwise it returns the text
      of the result, or, where that is empty, the chunks joined, having told each chunk as it came. */
  lemma {:induction false} ClientGetsTheAnswer(t: Task, h: HandlerRun)
    requires t.status.state == Working && t.artifacts == []
    ensures var ws, done := OnWire(RunEvents(t, h)), Settled(t, h);
      && (FirstFatal(ws).None? <==> done.status.state == Completed)
      && (done.status.state != Completed ==>
          FirstFatal(ws) == Some(if h.canceledDuring then TaskFailure(Canceled, "") else TaskFailure(Failed, h.outcome.err)))
      && (done.status.state == Completed ==>
          && Result(TookAll(ws)) == (if PartsText(h.outcome.parts) != "" then PartsText(h.outcome.parts) else Joined(h.deltas))
          && Told(ws) == h.deltas)
  {
    hide TookAll, Told;
    var es, ws, done := RunEvents(t, h), OnWire(RunEvents(t, h)), Settled(t, h);
    RunShape(t, h);
    RunSays(t, h);
    FinalDecides(es, done.status);
    if h.outcome.Error? { OnePart(h.outcome.err); }
    if done.status.state == Completed {
      var st := Status(Working, h.now, None);
      ChunksJoin(st, h.deltas);
      var tail := [Update(ArtifactEvent(Artifact(h.outcome.parts), false, true)), Update(StatusEvent(done.status, true))];
      assert ws == OnWire([StatusEvent(st, false)] + Chunks(h.deltas)) + tail;
      TookTwo(OnWire([StatusEvent(st, false)] + Chunks(h.deltas)), tail);
      if h.deltas == [] { assert Joined(h.deltas) == ""; }
    }
  }

  lemma FatalIsOne(ws: seq<Wire>, f: Option<Failure>)
    requires forall w :: w in ws ==> Fatal(w).None? || Fatal(w) == f
    ensures FirstFatal(ws) == if exists w :: w in ws && Fatal(w).Some? then f else None
  {
    hide Fatal;
    if ws != [] {
      var n := |ws| - 1;
      assert ws == ws[..n] + [ws[n]];
      FatalIsOne(ws[..n], f);
    }
  }

  /** Every status among the events is the working state, or st. */
  predicate Says(es: seq<Event>, st: TaskStatus) { forall e :: e in es && e.StatusEvent? ==> e.status.state == Working || e.status == st }

  lemma OnlyItIsFatal(es: seq<Event>, st: TaskStatus, w: Wire)
    requires Says(es, st) && w in OnWire(es)
    ensures Fatal(w).None? || Fatal(w) == StatusFailure(st)
  {
    var i :| 0 <= i < |es| && OnWire(es)[i] == w;
    assert es[i] in es;
  }

  /** If the last event has that status, it decides. */
  lemma FinalDecides(es: seq<Event>, st: TaskStatus)
    requires Says(es, st) && es != [] && es[|es| - 1].StatusEvent? && es[|es| - 1].status == st
    ensures FirstFatal(OnWire(es)) == StatusFailure(st)
  {
    hide Says, StatusFailure;
    var ws := OnWire(es);
    forall w | w in ws ensures Fatal(w).None? || Fatal(w) == StatusFailure(st) { OnlyItIsFatal(es, st, w); }
    FatalIsOne(ws, StatusFailure(st));
    assert ws[|es| - 1] == Update(es[|es| - 1]) && Fatal(ws[|es| - 1]) == StatusFailure(st);
  }

  /** A run says it is working, and in the end what it came to. */
  lemma RunSays(t: Task, h: HandlerRun)
    requires t.status.state == Working && t.artifacts == []
    ensures var es, st := RunEvents(t, h), Settled(t, h).status;
      && Says(es, st) && |es| >= 2 && es[|es| - 1] == StatusEvent(st, true)
      && forall i :: 0 <= i < |es| - 1 && es[i].StatusEvent? ==> es[i].status.state == Working
  {
    RunShape(t, h);
    hide Settled;
  }

  // ----- streams of other agents: messages, tasks, and statuses

  /** The text of parts is the text parts' joined. */
  lemma {:induction false} PartsAreJoined(parts: seq<Part>, more: seq<Part>)
    ensures PartsText(parts + more) == PartsText(parts) + PartsText(more) && PartsText([OtherPart]) == ""
    decreases |more|
  {
    assert [OtherPart][..0] == [] && "" + "" == "";
    if more == [] {
      assert parts + more == parts;
    } else {
      assert (parts + more)[..|parts + more| - 1] == parts + more[..|more| - 1];
      PartsAreJoined(parts, more[..|more| - 1]);
      Associate(PartsText(parts), PartsText(more[..|more| - 1]), PartText(more[|more| - 1]));
    }
  }

  function TextsOf(artifacts: seq<Artifact>): seq<string> {
    seq(|artifacts|, i requires 0 <= i < |artifacts| => PartsText(artifacts[i].parts))
  }

  lemma {:induction false} ArtifactsAreJoined(artifacts: seq<Artifact>)
    ensures ArtifactsText(artifacts) == Joined(TextsOf(artifacts))
  {
    hide PartsText;
    if artifacts != [] {
      ArtifactsAreJoined(artifacts[..|artifacts| - 1]);
      assert TextsOf(artifacts)[..|artifacts| - 1] == TextsOf(artifacts[..|artifacts| - 1]);
    }
  }

  function Messages(pss: seq<seq<Part>>): seq<Wire> { seq(|pss|, i requires 0 <= i < |pss| => MessageUpdate(pss[i])) }

  /** An agent that answers in messages: the client returns their texts joined, and has told each once. */
  lemma {:induction false} MessagesAreJoined(pss: seq<seq<Part>>)
    ensures var ws, texts := Messages(pss), seq(|pss|, i requires 0 <= i < |pss| => PartsText(pss[i]));
      && FirstFatal(ws) == None && Told(ws) == texts
      && TookAll(ws) == AsmState(Joined(texts), "", pss != [], false) && Result(TookAll(ws)) == Joined(texts)
  {
    hide PartsText, TookAll, Told, Joined, FirstFatal;
    NothingFolds();
    NothingTook();
    if pss != [] {
      var n := |pss| - 1;
      MessagesAreJoined(pss[..n]);
      var texts := seq(n, i requires 0 <= i < n => PartsText(pss[..n][i]));
      assert Messages(pss) == Messages(pss[..n]) + [MessageUpdate(pss[n])];
      TookTwo(Messages(pss[..n]), [MessageUpdate(pss[n])]);
      FatalTwo(Messages(pss[..n]), MessageUpdate(pss[n]));
      JoinedMore(texts, PartsText(pss[n]));
      assert seq(|pss|, i requires 0 <= i < |pss| => PartsText(pss[i])) == texts + [PartsText(pss[n])];
    }
  }

  lemma FatalTwo(ws: seq<Wire>, w: Wire)
    ensures FirstFatal(ws + [w]) == if FirstFatal(ws).Some? then FirstFatal(ws) else Fatal(w)
  {
    hide Fatal;
    assert (ws + [w])[..|ws|] == ws;
  }

  /** A task that has come to rest decides the answer, whatever came before: its artifacts' texts, or where
      they are empty its status message's, if there is one that is not empty too. Nothing is told. */
  lemma SettledTaskAnswers(ws: seq<Wire>, t: Task)
    requires t.status.state == Completed || t.status.state == InputRequired || t.status.state == AuthRequired
    ensures var all, given := ws + [TaskUpdate(t)], Joined(TextsOf(t.artifacts));
      var answer := if given == "" && t.status.message.Some? then PartsText(t.status.message.value) else given;
      && FirstFatal(all) == FirstFatal(ws) && Told(all) == Told(ws)
      && (answer != "" || ws == [] ==> Result(TookAll(all)) == answer)
  {
    hide PartsText, TookAll, Told, FirstFatal, ArtifactsText;
    NothingFolds();
    ArtifactsAreJoined(t.artifacts);
    TookTwo(ws, [TaskUpdate(t)]);
    FatalTwo(ws, TaskUpdate(t));
    assert Told(ws) + [] == Told(ws);
  }

  /** A task or status still under way, or a message that says nothing, adds nothing. */
  lemma UnderWayAddsNothing(ws: seq<Wire>, w: Wire)
    requires w == Noise || (w.TaskUpdate? && (w.task.status.state == Submitted || w.task.status.state == Working))
      || (w.Update? && w.ev.StatusEvent? && w.ev.status.state != Failed && w.ev.status.state != Canceled && w.ev.status.state != Rejected)
    ensures FirstFatal(ws + [w]) == FirstFatal(ws) && Told(ws + [w]) == Told(ws) && TookAll(ws + [w]) == TookAll(ws)
  {
    hide PartsText, TookAll, Told, FirstFatal;
    TookTwo(ws, [w]);
    FatalTwo(ws, w);
    assert Told(ws) + [] == Told(ws);
  }

  /** Before anything final, a chunk is added to the answer, or starts it afresh, and is told. */
  lemma ChunkAddsOrRestarts(ws: seq<Wire>, art: Artifact, append: bool)
    requires !TookAll(ws).sawFinal && TookAll(ws).final == "" && (TookAll(ws).sawDelta || TookAll(ws).full == "")
    ensures var all := ws + [Update(ArtifactEvent(art, append, false))];
      && Result(TookAll(all)) == (if append then Result(TookAll(ws)) else "") + PartsText(art.parts)
      && Told(all) == Told(ws) + [PartsText(art.parts)] && FirstFatal(all) == FirstFatal(ws)
  {
    hide PartsText, TookAll, Told, FirstFatal;
    var w := Update(ArtifactEvent(art, append, false));
    TookTwo(ws, [w]);
    FatalTwo(ws, w);
  }

  /** What ends the stream: a broken stream, an error answer, or a task that failed, was canceled or rejected,
      with its state and message. */
  lemma FatalJustWhen(w: Wire)
    ensures w == ReadError ==> Fatal(w) == Some(BrokenStream)
    ensures w == RpcError ==> Fatal(w) == Some(Rpc)
    ensures w == Noise || w.MessageUpdate? || (w.Update? && w.ev.ArtifactEvent?) ==> Fatal(w) == None
    ensures w.TaskUpdate? || (w.Update? && w.ev.StatusEvent?) ==>
      var st := if w.TaskUpdate? then w.task.status else w.ev.status;
      if st.state == Failed || st.state == Canceled || st.state == Rejected
      then Fatal(w) == Some(TaskFailure(st.state, if st.message.Some? then PartsText(st.message.value) else ""))
      else Fatal(w) == None
  {
  }

  // ----- a client that sees only a stretch of a run

  function Least(a: int, b: int): int { if a < b then a else b }

  /** The chunks among events lo..hi of a run: event 0 is the working status. */
  function ChunksSeen(deltas: seq<string>, lo: nat, hi: nat): seq<string> {
    var a, b := Least(if lo <= 1 then 0 else lo - 1, |deltas|), Least(if hi <= 1 then 0 else hi - 1, |deltas|);
    if a <= b then deltas[a..b] else []
  }

  /** The artifact marked last is among events lo..hi of a run. */
  predicate LastSeen(t: Task, h: HandlerRun, lo: nat, hi: nat) {
    Settled(t, h).status.state == Completed && lo <= |h.deltas| + 1 < hi
  }

  function FinalText(h: HandlerRun): string { if h.outcome.Done? then PartsText(h.outcome.parts) else "" }

  function Assembled(t: Task, h: HandlerRun, lo: nat, hi: nat): AsmState {
    var seen, last := ChunksSeen(h.deltas, lo, hi), LastSeen(t, h, lo, hi);
    AsmState(Joined(seen), if last then FinalText(h) else "", seen != [], last)
  }

  /** What a client has put together from a stretch of a run's events. */
  lemma {:induction false} StretchFolds(t: Task, h: HandlerRun, lo: nat, hi: nat)
    requires t.status.state == Working && t.artifacts == [] && lo <= hi <= |RunEvents(t, h)|
    ensures TookAll(OnWire(RunEvents(t, h)[lo..hi])) == Assembled(t, h, lo, hi)
    decreases hi
  {
    hide TookAll, RunEvents, Assembled, Took, Told;
    var es := RunEvents(t, h);
    if lo < hi {
      var front := OnWire(es[lo..hi - 1]);
      assert OnWire(es[lo..hi]) == front + [Update(es[hi - 1])];
      StretchFolds(t, h, lo, hi - 1);
      TookTwo(front, [Update(es[hi - 1])]);
      if 2 <= hi <= |h.deltas| + 1 { OneChunkMore(t, h, lo, hi); } else { NoChunkMore(t, h, lo, hi); }
    } else {
      NothingFolds();
      NothingSeen(t, h, lo);
      assert OnWire(es[lo..hi]) == [];
    }
  }

  lemma NothingSeen(t: Task, h: HandlerRun, lo: nat)
    ensures Assembled(t, h, lo, lo) == EMPTY
  {
  }

  lemma NoChunkMore(t: Task, h: HandlerRun, lo: nat, hi: nat)
    requires t.status.state == Working && t.artifacts == [] && lo < hi <= |RunEvents(t, h)|
    requires hi == 1 || hi > |h.deltas| + 1
    ensures Took(Assembled(t, h, lo, hi - 1), Update(RunEvents(t, h)[hi - 1])) == Assembled(t, h, lo, hi)
  {
    RunShape(t, h);
    hide PartsText, RunEvents, Joined, Settled;
  }

  lemma OneChunkSeen(deltas: seq<string>, lo: nat, hi: nat)
    requires lo < hi && 2 <= hi <= |deltas| + 1
    ensures ChunksSeen(deltas, lo, hi) == ChunksSeen(deltas, lo, hi - 1) + [deltas[hi - 2]]
    ensures hi == 2 ==> ChunksSeen(deltas, lo, hi - 1) == []
  {
    assert deltas[..hi - 1] == deltas[..hi - 2] + [deltas[hi - 2]];
  }

  lemma ChunkEvent(t: Task, h: HandlerRun, hi: nat)
    requires t.status.state == Working && t.artifacts == [] && 2 <= hi <= |h.deltas| + 1
    ensures hi <= |RunEvents(t, h)| && RunEvents(t, h)[hi - 1] == ArtifactEvent(Artifact([TextPart(h.deltas[hi - 2])]), hi > 2, false)
  {
    RunShape(t, h);
  }

  lemma OneChunkMore(t: Task, h: HandlerRun, lo: nat, hi: nat)
    requires t.status.state == Working && t.artifacts == [] && lo < hi && 2 <= hi <= |h.deltas| + 1 && hi <= |RunEvents(t, h)|
    ensures Took(Assembled(t, h, lo, hi - 1), Update(RunEvents(t, h)[hi - 1])) == Assembled(t, h, lo, hi)
  {
    hide PartsText, RunEvents, LastSeen, Joined, ChunksSeen, FinalText;
    var text := h.deltas[hi - 2];
    ChunkEvent(t, h, hi);
    OnePart(text);
    NotLastYet(t, h, lo, hi);
    OneChunkSeen(h.deltas, lo, hi);
    JoinedMore(ChunksSeen(h.deltas, lo, hi - 1), text);
    NothingFolds();
  }

  lemma NotLastYet(t: Task, h: HandlerRun, lo: nat, hi: nat)
    ensures hi <= |h.deltas| + 1 ==> !LastSeen(t, h, lo, hi)
    ensures hi >= 1 && hi <= |h.deltas| + 1 ==> !LastSeen(t, h, lo, hi - 1)
  {
  }
}
