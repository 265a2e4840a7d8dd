// One batch of tool calls: denied, run together or in turn, waited for and answered (agent.go, observe).
// Which calls the policy denies, when the deadline is seen, which results come in before it and what
// they say are the environment's choices.
module Observing {
  import opened Text
  import opened Sequences
  import opened Messages
  import opened Sessions

  datatype Outcome = NoRegistry | Unknown | Panicked(text: string) | Failed(text: string) | Returned(text: string)

  /** policy: a tool policy is set; together: calls of one batch run in parallel. */
  datatype Mode = Mode(policy: bool, together: bool)

  /** denied[i]: the policy's reason against call i. stopAt: the deadline has been seen by the time this
      call would start. arrivals: the calls whose results are received, in that order. */
  datatype Batch = Batch(denied: seq<Option<string>>, stopAt: nat, arrivals: seq<nat>, outcomes: seq<Outcome>)

  function Denial(m: Mode, b: Batch, i: nat): Option<string> {
    if m.policy && i < |b.denied| then b.denied[i] else None
  }

  /** execTool. */
  function Ran(b: Batch, u: ToolUse, i: nat): (body: Body)
    ensures body.Output?
  {
    match if i < |b.outcomes| then b.outcomes[i] else Returned("")
    case NoRegistry => Output("no tools registered (requested " + u.name + ")", true)
    case Unknown => Output("unknown tool " + u.name, true)
    case Panicked(text) => Output("tool panicked: " + text, true)
    case Failed(text) => Output(text, true)
    case Returned(text) => Output(text, false)
  }

  /** In turn, a call starts only once every call before it that was let through has come back. */
  predicate Started(m: Mode, b: Batch, i: nat): (yes: bool)
    ensures yes ==> Denial(m, b, i).None?
  {
    && Denial(m, b, i).None? && i < b.stopAt
    && (m.together || forall j | 0 <= j < i :: Denial(m, b, j).None? ==> j in b.arrivals)
  }

  function Fate(m: Mode, b: Batch, u: ToolUse, i: nat): Body {
    if Denial(m, b, i).Some? then DeniedBy(Denial(m, b, i).value)
    else if !Started(m, b, i) then NotStarted
    else if i in b.arrivals then Ran(b, u, i)
    else Abandoned
  }

  function Answer(u: ToolUse, body: Body): Content { ResultBlock(ToolResult(u.id, u.name, body)) }

  function Observed(m: Mode, b: Batch, uses: seq<ToolUse>): seq<Content> {
    seq(|uses|, i requires 0 <= i < |uses| => Answer(uses[i], Fate(m, b, uses[i], i)))
  }

  predicate Executable(stop: StopReason) { stop == StopToolUse || stop == StopEndTurn }

  /** Results that count as tool errors: failures, but not calls cut short by the response's own end. */
  function ErrorsIn(content: seq<Content>): (n: nat)
    ensures n <= |content|
  {
    if content == [] then 0 else ErrorsIn(content[..|content| - 1]) + ErrorOf(content[|content| - 1])
  }

  function ErrorOf(c: Content): nat {
    if c.ResultBlock? && c.res.body.IsError() && !c.res.body.CutShort? then 1 else 0
  }

  function DenialsIn(content: seq<Content>): (n: nat)
    ensures n <= ErrorsIn(content)
  {
    if content == [] then 0 else DenialsIn(content[..|content| - 1]) + DenialOf(content[|content| - 1])
  }

  function DenialOf(c: Content): nat { if c.ResultBlock? && c.res.body.DeniedBy? then 1 else 0 }

  lemma ObservedAnswers(m: Mode, b: Batch, uses: seq<ToolUse>)
    ensures Answers(Message(Tool, Observed(m, b, uses)), uses)
  {
  }

  /** In turn at most one call is abandoned: every call let through before it ran, none after it started. */
  lemma InTurnStopsAtTheFirst(m: Mode, b: Batch, uses: seq<ToolUse>, i: nat, j: nat)
    requires !m.together && i < |uses| && j < |uses| && i != j
    requires Fate(m, b, uses[i], i) == Abandoned
    ensures var body := Fate(m, b, uses[j], j);
      body.DeniedBy? || (if j < i then body.Output? else body.NotStarted?)
  {
    assert Started(m, b, i) && i !in b.arrivals;
    assert i < j ==> !Started(m, b, j);
  }

  /** Together, what a call comes to never depends on the other calls. */
  lemma TogetherEachOnItsOwn(m: Mode, b: Batch, uses: seq<ToolUse>, i: nat)
    requires m.together && i < |uses|
    ensures var body := Fate(m, b, uses[i], i);
      && (body.DeniedBy? <==> Denial(m, b, i).Some?)
      && (body.Output? <==> Denial(m, b, i).None? && i < b.stopAt && i in b.arrivals)
      && (body.NotStarted? <==> Denial(m, b, i).None? && i >= b.stopAt)
  {
  }

  /** A call that was let through has started, exactly if the deadline was not yet seen, and in turn every
      call let through before it came back. */
  predicate LetStart(m: Mode, b: Batch, i: nat) {
    i < b.stopAt && (m.together || forall j | 0 <= j < i :: (m.policy && j < |b.denied| && b.denied[j].Some?) || j in b.arrivals)
  }

  /** Result i tells what became of call i: the policy's own reason against it, or that it was not started
      or not heard of, or what its own run came to, an error unless that returned. */
  lemma ResultsAreTheirOwn(m: Mode, b: Batch, uses: seq<ToolUse>, i: nat)
    requires i < |uses|
    ensures var r := Observed(m, b, uses)[i];
      && r.ResultBlock? && r.res.useID == uses[i].id && r.res.name == uses[i].name
      && var body, denied := r.res.body, m.policy && i < |b.denied| && b.denied[i].Some?;
      && (denied ==> body == DeniedBy(b.denied[i].value))
      && (!denied && !LetStart(m, b, i) ==> body == NotStarted)
      && (!denied && LetStart(m, b, i) && i !in b.arrivals ==> body == Abandoned)
      && (!denied && LetStart(m, b, i) && i in b.arrivals ==> body.Output?)
      && (body.Output? && i < |b.outcomes| ==>
          var o := b.outcomes[i];
          && (body.failed <==> !o.Returned?)
          && (o.Returned? ==> body.text == o.text) && (o.Failed? ==> body.text == o.text)
          && (o.Panicked? ==> body.text == "tool panicked: " + o.text)
          && (o.Unknown? ==> body.text == "unknown tool " + uses[i].name)
          && (o.NoRegistry? ==> body.text == "no tools registered (requested " + uses[i].name + ")"))
  {
    assert Started(m, b, i) <==> Denial(m, b, i).None? && LetStart(m, b, i);
  }

  /** What another call comes to changes nothing of result i. */
  lemma OthersOutcomesDoNotMatter(m: Mode, b: Batch, uses: seq<ToolUse>, i: nat, j: nat, o: Outcome)
    requires i < |uses| && j < |b.outcomes| && i != j
    ensures Observed(m, b.(outcomes := b.outcomes[j := o]), uses)[i] == Observed(m, b, uses)[i]
  {
    assert Started(m, b.(outcomes := b.outcomes[j := o]), i) == Started(m, b, i);
  }

  predicate Failing(c: Content) {
    c.ResultBlock? && ((c.res.body.Output? && c.res.body.failed) || c.res.body.DeniedBy? || c.res.body.NotStarted? || c.res.body.Abandoned?)
  }

  /** The errors counted are the results that are such; and so with the denials. */
  lemma {:induction false} ErrorsAreCounted(content: seq<Content>)
    ensures ErrorsIn(content) == |set i | 0 <= i < |content| && Failing(content[i])|
  {
    if content != [] {
      var n := |content| - 1;
      ErrorsAreCounted(content[..n]);
      var errs := set i | 0 <= i < n && Failing(content[..n][i]);
      assert (set i | 0 <= i < |content| && Failing(content[i])) == if Failing(content[n]) then errs + {n} else errs;
      assert ErrorOf(content[n]) == if Failing(content[n]) then 1 else 0;
    }
  }

  predicate Refused(c: Content) { c.ResultBlock? && c.res.body.DeniedBy? }

  lemma {:induction false} DenialsAreCounted(content: seq<Content>)
    ensures DenialsIn(content) == |set i | 0 <= i < |content| && Refused(content[i])|
  {
    hide ErrorsIn;
    if content != [] {
      var n := |content| - 1;
      DenialsAreCounted(content[..n]);
      var dens := set i | 0 <= i < n && Refused(content[..n][i]);
      assert (set i | 0 <= i < |content| && Refused(content[i])) == if Refused(content[n]) then dens + {n} else dens;
    }
  }

  // ----- the method

  function Denied(m: Mode, b: Batch, uses: seq<ToolUse>, i: nat): Option<ToolResult>
    requires i < |uses|
  {
    match Denial(m, b, i)
    case Some(reason) => Some(ToolResult(uses[i].id, uses[i].name, DeniedBy(reason)))
    case None => None
  }

  /** What has been received once the waiting is over. */
  function Received(m: Mode, b: Batch, uses: seq<ToolUse>, i: nat): Option<ToolResult>
    requires i < |uses|
  {
    if Denial(m, b, i).Some? then Denied(m, b, uses, i)
    else if Started(m, b, i) && i in b.arrivals then Some(ToolResult(uses[i].id, uses[i].name, Ran(b, uses[i], i)))
    else None
  }

  lemma ReceivedIs(m: Mode, b: Batch, uses: seq<ToolUse>, i: nat)
    requires i < |uses|
    ensures Started(m, b, i) ==> Denied(m, b, uses, i) == None
    ensures Received(m, b, uses, i) ==
      if Started(m, b, i) && i in b.arrivals then Some(ToolResult(uses[i].id, uses[i].name, Ran(b, uses[i], i))) else Denied(m, b, uses, i)
  {
    hide Ran;
  }

  method Deny(m: Mode, b: Batch, uses: seq<ToolUse>, results: array<Option<ToolResult>>) returns (denials: nat)
    requires results.Length == |uses| && forall i :: 0 <= i < |uses| ==> results[i] == None
    modifies results
    ensures forall i :: 0 <= i < |uses| ==> results[i] == Denied(m, b, uses, i)
    ensures denials == DenialsIn(Observed(m, b, uses))
  {
    hide Ran, Started, ErrorsIn;
    denials := 0;
    ghost var content := Observed(m, b, uses);
    for i := 0 to |uses|
      invariant forall j :: 0 <= j < i ==> results[j] == Denied(m, b, uses, j)
      invariant forall j :: i <= j < |uses| ==> results[j] == None
      invariant denials == DenialsIn(content[..i])
    {
      assert content[..i + 1][..i] == content[..i];
      match Denial(m, b, i) {
        case Some(reason) =>
          denials := denials + 1;
          results[i] := Some(ToolResult(uses[i].id, uses[i].name, DeniedBy(reason)));
        case None =>
      }
    }
    assert content[..|uses|] == content;
  }

  /** Running calls whose results are still out. */
  function Outstanding(started: seq<bool>, results: seq<Option<ToolResult>>): (n: nat)
    requires |started| == |results|
    ensures n == 0 <==> forall i :: 0 <= i < |started| ==> started[i] ==> results[i].Some?
  {
    if started == [] then 0
    else
      var k := |started| - 1;
      Outstanding(started[..k], results[..k]) + if started[k] && results[k].None? then 1 else 0
  }

  lemma OneLess(started: seq<bool>, results: seq<Option<ToolResult>>, i: nat, r: ToolResult)
    requires |started| == |results| && i < |started| && started[i] && results[i].None?
    ensures Outstanding(started, results[i := Some(r)]) == Outstanding(started, results) - 1
  {
    var k := |started| - 1;
    if i < k {
      OneLess(started[..k], results[..k], i, r);
      assert results[i := Some(r)][..k] == results[..k][i := Some(r)];
    } else {
      assert results[i := Some(r)][..k] == results[..k];
    }
  }

  lemma AllOutstanding(started: seq<bool>, results: seq<Option<ToolResult>>)
    requires |started| == |results| && forall i :: 0 <= i < |started| && started[i] ==> results[i].None?
    ensures Outstanding(started, results) == CountTrue(started)
  {
    if started != [] { AllOutstanding(started[..|started| - 1], results[..|started| - 1]); }
  }

  method LaunchAll(m: Mode, b: Batch, uses: seq<ToolUse>, results: array<Option<ToolResult>>, started: array<bool>)
    requires m.together && results.Length == started.Length == |uses|
    requires forall i :: 0 <= i < |uses| ==> results[i] == Denied(m, b, uses, i) && !started[i]
    modifies started
    ensures forall i :: 0 <= i < |uses| ==> started[i] == Started(m, b, i)
  {
    for i := 0 to |uses|
      invariant forall j :: 0 <= j < i ==> started[j] == Started(m, b, j)
      invariant forall j :: i <= j < |uses| ==> !started[j]
    {
      if results[i].Some? { continue; }
      if b.stopAt <= i { break; }
      started[i] := true;
    }
  }

  /** Receiving under way: of the first n arrivals those of running calls are in. */
  ghost predicate Taken(m: Mode, b: Batch, uses: seq<ToolUse>, n: nat, results: seq<Option<ToolResult>>) {
    && |results| == |uses| && n <= |b.arrivals|
    && forall i :: 0 <= i < |uses| ==> results[i] == if i in b.arrivals[..n] then Received(m, b, uses, i) else Denied(m, b, uses, i)
  }

  /** An arrival is a result not yet in, or changes nothing. */
  lemma TakeOne(m: Mode, b: Batch, uses: seq<ToolUse>, n: nat, results: seq<Option<ToolResult>>)
    requires Taken(m, b, uses, n, results) && n < |b.arrivals|
    ensures var i := b.arrivals[n];
      if i < |uses| && Started(m, b, i) && results[i].None?
      then Taken(m, b, uses, n + 1, results[i := Some(ToolResult(uses[i].id, uses[i].name, Ran(b, uses[i], i)))])
      else Taken(m, b, uses, n + 1, results)
  {
    forall i | 0 <= i < |uses| { ReceivedIs(m, b, uses, i); }
    hide Received, Denied, Started, Ran;
    assert b.arrivals[..n + 1] == b.arrivals[..n] + [b.arrivals[n]];
  }

  /** When all running calls are in, or nothing more arrives, what is in is all that is received. */
  lemma TakenAll(m: Mode, b: Batch, uses: seq<ToolUse>, n: nat, started: seq<bool>, results: seq<Option<ToolResult>>)
    requires Taken(m, b, uses, n, results) && |started| == |uses|
    requires forall i :: 0 <= i < |uses| ==> started[i] == Started(m, b, i)
    requires n == |b.arrivals| || Outstanding(started, results) == 0
    ensures forall i :: 0 <= i < |uses| ==> results[i] == Received(m, b, uses, i)
  {
    forall i | 0 <= i < |uses| { ReceivedIs(m, b, uses, i); }
    hide Received, Denied, Started, Ran, Outstanding;
    assert b.arrivals[..|b.arrivals|] == b.arrivals;
  }

  lemma TakeNone(m: Mode, b: Batch, uses: seq<ToolUse>, started: seq<bool>, results: seq<Option<ToolResult>>)
    requires |results| == |started| == |uses|
    requires forall i :: 0 <= i < |uses| ==> results[i] == Denied(m, b, uses, i) && started[i] == Started(m, b, i)
    ensures Taken(m, b, uses, 0, results) && Outstanding(started, results) == CountTrue(started)
  {
    forall i | 0 <= i < |uses| { ReceivedIs(m, b, uses, i); }
    AllOutstanding(started, results);
  }

  /** Receives until every running call is in or the deadline passes. */
  method Collect(m: Mode, b: Batch, uses: seq<ToolUse>, results: array<Option<ToolResult>>, started: array<bool>)
    requires m.together && results.Length == started.Length == |uses|
    requires forall i :: 0 <= i < |uses| ==> results[i] == Denied(m, b, uses, i) && started[i] == Started(m, b, i)
    modifies results
    ensures forall i :: 0 <= i < |uses| ==> results[i] == Received(m, b, uses, i)
  {
    hide Ran, Started, CountTrue, Received, Denied, Taken, Outstanding;
    var n, next := 0, 0;
    TakeNone(m, b, uses, started[..], results[..]);
    while n < CountTrue(started[..])
      invariant next <= |b.arrivals| && Taken(m, b, uses, next, results[..])
      invariant n + Outstanding(started[..], results[..]) == CountTrue(started[..])
      decreases |b.arrivals| - next
    {
      if next == |b.arrivals| { break; }
      var i := b.arrivals[next];
      TakeOne(m, b, uses, next, results[..]);
      next := next + 1;
      if i < |uses| && started[i] && results[i].None? {
        var r := ToolResult(uses[i].id, uses[i].name, Ran(b, uses[i], i));
        OneLess(started[..], results[..], i, r);
        ghost var was := results[..];
        results[i] := Some(r);
        assert results[..] == was[i := Some(r)];
        n := n + 1;
      }
    }
    TakenAll(m, b, uses, next, started[..], results[..]);
    assert forall i :: 0 <= i < |uses| ==> results[..][i] == results[i];
  }

  method InTurn(m: Mode, b: Batch, uses: seq<ToolUse>, results: array<Option<ToolResult>>, started: array<bool>)
    requires !m.together && results.Length == started.Length == |uses| && results as object != started
    requires forall i :: 0 <= i < |uses| ==> results[i] == Denied(m, b, uses, i) && !started[i]
    modifies results, started
    ensures forall i :: 0 <= i < |uses| ==> results[i] == Received(m, b, uses, i) && started[i] == Started(m, b, i)
  {
    hide Ran;
    for i := 0 to |uses|
      invariant forall j :: 0 <= j < i ==> results[j] == Received(m, b, uses, j) && started[j] == Started(m, b, j)
      invariant forall j :: i <= j < |uses| ==> results[j] == Denied(m, b, uses, j) && !started[j]
      invariant forall j :: 0 <= j < i && Denial(m, b, j).None? ==> j in b.arrivals && j < b.stopAt
    {
      if results[i].Some? { continue; }
      if b.stopAt <= i { break; }
      started[i] := true;
      if i !in b.arrivals { break; }
      results[i] := Some(ToolResult(uses[i].id, uses[i].name, Ran(b, uses[i], i)));
    }
  }

  method Observe(m: Mode, stop: StopReason, uses: seq<ToolUse>, b: Batch)
    returns (content: seq<Content>, errs: nat, denials: nat, cont: bool)
    ensures cont == (uses != [] && Executable(stop))
    ensures cont ==> content == Observed(m.(together := m.together && |uses| > 1), b, uses)
    ensures cont ==> errs == ErrorsIn(content) && denials == DenialsIn(content)
  {
    hide Ran;
    if |uses| == 0 || !Executable(stop) { return [], 0, 0, false; }
    var results := new Option<ToolResult>[|uses|](_ => None);
    var started := new bool[|uses|](_ => false);
    var m' := m.(together := m.together && |uses| > 1);
    denials := Deny(m', b, uses, results);
    if m'.together {
      LaunchAll(m', b, uses, results, started);
      Collect(m', b, uses, results, started);
    } else {
      InTurn(m', b, uses, results, started);
    }
    content, errs := FillIn(m', b, uses, results, started);
    cont := true;
  }

  /** Every call gets an answer. */
  method FillIn(m: Mode, b: Batch, uses: seq<ToolUse>, results: array<Option<ToolResult>>, started: array<bool>)
    returns (content: seq<Content>, errs: nat)
    requires results.Length == started.Length == |uses|
    requires forall i :: 0 <= i < |uses| ==> results[i] == Received(m, b, uses, i)
    requires forall i :: 0 <= i < |uses| ==> started[i] == Started(m, b, i)
    ensures content == Observed(m, b, uses) && errs == ErrorsIn(content)
  {
    hide Ran, Started;
    content, errs := [], 0;
    for i := 0 to |uses|
      invariant content == Observed(m, b, uses)[..i] && errs == ErrorsIn(content)
    {
      var r := ToolResult(uses[i].id, uses[i].name, if started[i] then Abandoned else NotStarted);
      if results[i].Some? { r := results[i].value; }
      assert ResultBlock(r) == Observed(m, b, uses)[i];
      assert (content + [ResultBlock(r)])[..i] == content;
      content := content + [ResultBlock(r)];
      if r.body.IsError() { errs := errs + 1; }
      assert !r.body.CutShort?;
    }
  }
}
