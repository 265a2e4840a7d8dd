// The reason-act loop: one run of an agent on a session (agent.go, RunMessage, drive and finish).
// The provider's answers, cancellation, other agents' spending and the fate of tool calls are the
// environment's choices, one Turn a step.
module Agents {
  import opened Text
  import opened Messages
  import opened Sessions
  import opened Observing
  import opened Budgets
  import Compaction

  const DEFAULT_MAX_STEPS: nat := 8

  datatype Policy = Policy(keepLast: int, summarising: bool, atMessages: int, atInputTokens: int)

  /** forced: a tool choice is configured. */
  datatype Config = Config(
    maxSteps: int, maxTotalTokens: int, forced: bool, mode: Mode, keepLast: int, compaction: Option<Policy>)

  function MaxSteps(cfg: Config): (n: nat)
    ensures n > 0 && (cfg.maxSteps > 0 ==> n == cfg.maxSteps)
  {
    if cfg.maxSteps > 0 then cfg.maxSteps else DEFAULT_MAX_STEPS
  }

  datatype Response = Response(content: seq<Content>, stop: StopReason, usage: Usage)

  datatype Call = Unanswered(usage: Usage) | Answered(resp: Response)

  datatype Turn = Turn(cancelled: bool, others: seq<Usage>, call: Call, batch: Batch)

  datatype RunError =
    | NoProvider | SessionBusy | Cancelled | TokenBudget | SharedBudget | ProviderError | Refused | ContextOverflow | TooManySteps

  datatype CompactFailure = RunCancelled | CompactFailed(e: Compaction.CompactError)

  /** response is the last completed one. */
  datatype Result = Result(
    usage: Usage, stepUsage: seq<Usage>, steps: nat, response: Option<Response>,
    toolErrors: nat, toolDenials: nat, compactError: Option<CompactFailure>)

  const NO_RESULT := Result(NO_USAGE, [], 0, None, 0, 0, None)

  /** What a run works on. */
  datatype Loop = Loop(s: SessionState, res: Result, ledger: Ledger)

  datatype Next = On | Stop(err: Option<RunError>)

  datatype Stepped = Stepped(l: Loop, next: Next)

  // ----- one step

  function Gate(cfg: Config, l: Loop, cancelled: bool): Option<RunError> {
    if cancelled then Some(Cancelled)
    else if cfg.maxTotalTokens > 0 && l.res.usage.Total() >= cfg.maxTotalTokens then Some(TokenBudget)
    else if Exhausted(l.ledger) then Some(SharedBudget)
    else None
  }

  function Charge(l: Loop, u: Usage, steps: nat): Loop {
    Loop(Charged(l.s, u),
         l.res.(usage := l.res.usage.Plus(u), stepUsage := l.res.stepUsage + [u], steps := steps),
         Booked(l.ledger, u))
  }

  function AllAnswered(uses: seq<ToolUse>, body: Body): Message {
    Message(Tool, seq(|uses|, i requires 0 <= i < |uses| => Answer(uses[i], body)))
  }

  /** answerTruncatedTools. */
  function Truncated(resp: Response): seq<Message> {
    var uses := UsesIn(resp.content);
    if Executable(resp.stop) || uses == [] then [] else [AllAnswered(uses, CutShort(resp.stop))]
  }

  datatype Reaction = Reaction(added: seq<Message>, errs: nat, denials: nat, next: Next)

  function React(cfg: Config, resp: Response, b: Batch): Reaction {
    var uses := UsesIn(resp.content);
    if cfg.forced && Executable(resp.stop) && uses != [] then Reaction([AllAnswered(uses, Recorded)], 0, 0, Stop(None))
    else if Executable(resp.stop) && uses != [] then
      var content := Observed(cfg.mode.(together := cfg.mode.together && |uses| > 1), b, uses);
      Reaction([Message(Tool, content)], ErrorsIn(content), DenialsIn(content), On)
    else
      Reaction(Truncated(resp), 0, 0,
        match resp.stop
        case StopPause => On
        case StopContextOverflow => Stop(Some(ContextOverflow))
        case StopRefusal => Stop(Some(Refused))
        case StopOther => Stop(None)
        case _ => if Truncated(resp) != [] then On else Stop(None))
  }

  function Reply(resp: Response): Message { Message(Assistant, resp.content) }

  function Taken(cfg: Config, l: Loop, resp: Response, b: Batch): Stepped {
    var r := React(cfg, resp, b);
    Stepped(
      Loop(Appended(Appended(l.s, [Reply(resp)]), r.added),
           l.res.(response := Some(resp), toolErrors := l.res.toolErrors + r.errs, toolDenials := l.res.toolDenials + r.denials),
           l.ledger),
      r.next)
  }

  function OneStep(cfg: Config, i: nat, l: Loop, turn: Turn): Stepped {
    var l0 := l.(ledger := BookedAll(l.ledger, turn.others));
    var shut := Gate(cfg, l0, turn.cancelled);
    if shut.Some? then Stepped(l0, Stop(shut))
    else if turn.call.Unanswered? then Stepped(Charge(l0, turn.call.usage, i + 1), Stop(Some(ProviderError)))
    else Taken(cfg, Charge(l0, turn.call.resp.usage, i + 1), turn.call.resp, turn.batch)
  }

  // ----- a run

  function DriveFrom(cfg: Config, i: nat, l: Loop, turns: seq<Turn>): (st: Stepped)
    requires |turns| >= MaxSteps(cfg)
    ensures st.next.Stop?
    decreases MaxSteps(cfg) - i
  {
    if i >= MaxSteps(cfg) then Stepped(l, Stop(Some(TooManySteps)))
    else
      var st := OneStep(cfg, i, l, turns[i]);
      if st.next.On? then DriveFrom(cfg, i + 1, st.l, turns) else st
  }

  /** The environment of a run's end: is the context cancelled, what do the compaction hooks do. */
  datatype End = End(cancelled: bool, summary: Option<Compaction.Summary>, archived: bool, archiveID: string)

  function Due(p: Policy, l: Loop): bool {
    || (p.atMessages > 0 && |l.s.history| > p.atMessages)
    || (p.atInputTokens > 0 && (if l.res.response.Some? then l.res.response.value.usage.input else 0) >= p.atInputTokens)
  }

  function HooksAt(p: Policy, end: End): Compaction.Hooks {
    Compaction.Hooks(if p.summarising then Some(end.summary) else None, end.archived)
  }

  /** The compaction at the end of a run panics. The panic passes through the run, which returns nothing. */
  function Crashes(cfg: Config, l: Loop, end: End): bool {
    && cfg.compaction.Some? && Due(cfg.compaction.value, l) && !end.cancelled
    && Compaction.CompactWith(l.s, cfg.compaction.value.keepLast, HooksAt(cfg.compaction.value, end), end.archiveID, []).err
         == Some(Compaction.OutsideTranscript)
  }

  /** What the end of a run leaves; where it crashes, what it found. */
  function Finish(cfg: Config, l: Loop, end: End): Loop {
    if cfg.compaction.None? then if cfg.keepLast > 0 then l.(s := Trimmed(l.s, cfg.keepLast)) else l
    else
      var p := cfg.compaction.value;
      if !Due(p, l) then l
      else if end.cancelled then l.(res := l.res.(compactError := Some(RunCancelled)))
      else
        var out := Compaction.CompactWith(l.s, p.keepLast, HooksAt(p, end), end.archiveID, []);
        if out.err == Some(Compaction.OutsideTranscript) then l
        else if out.err.Some? then Loop(out.s, l.res.(compactError := Some(CompactFailed(out.err.value))), l.ledger)
        else Loop(Charged(out.s, out.r.usage), l.res, Booked(l.ledger, out.r.usage))
  }

  /** Deferred steps run last first: the rollback, then the finish. */
  function Rolled(base: nat, st: Stepped): Loop
    requires st.next.Stop?
  {
    if st.next.err.Some? then st.l.(s := RolledBack(st.l.s, base)) else st.l
  }

  function Driven(cfg: Config, s: SessionState, input: Message, ledger: Ledger, turns: seq<Turn>): (st: Stepped)
    requires |turns| >= MaxSteps(cfg)
    ensures st.next.Stop?
  {
    DriveFrom(cfg, 0, Loop(Appended(s, [input]), NO_RESULT, ledger), turns)
  }

  function Ended(cfg: Config, s: SessionState, input: Message, ledger: Ledger, turns: seq<Turn>, end: End): Loop
    requires |turns| >= MaxSteps(cfg)
  {
    Finish(cfg, Rolled(|s.history|, Driven(cfg, s, input, ledger, turns)), end)
  }

  // ----- every use is answered

  lemma AllAnsweredAnswers(uses: seq<ToolUse>, body: Body)
    ensures Answers(AllAnswered(uses, body), uses)
  {
  }

  /** Whatever a response asks for, the reaction answers all of it in one tool message, or adds nothing
      when it asks for nothing; a forced choice is only recorded, a response that may not run tools has its
      calls marked as cut short by its stop. */
  lemma ReactionAnswers(cfg: Config, resp: Response, b: Batch)
    ensures var r := React(cfg, resp, b);
      if UsesIn(resp.content) == [] then r.added == []
      else
        && |r.added| == 1 && Answers(r.added[0], UsesIn(resp.content))
        && r.added[0].role == Tool && |r.added[0].content| == |UsesIn(resp.content)|
        && (forall i :: 0 <= i < |r.added[0].content| ==>
            r.added[0].content[i].ResultBlock? && r.added[0].content[i].res.useID == UsesIn(resp.content)[i].id)
        && (cfg.forced && Executable(resp.stop) ==> forall i :: 0 <= i < |r.added[0].content| ==> r.added[0].content[i].res.body == Recorded)
        && (!Executable(resp.stop) ==> forall i :: 0 <= i < |r.added[0].content| ==> r.added[0].content[i].res.body == CutShort(resp.stop))
  {
    hide Observed, UsesIn, ErrorsIn, DenialsIn;
    var uses := UsesIn(resp.content);
    AllAnsweredAnswers(uses, Recorded);
    AllAnsweredAnswers(uses, CutShort(resp.stop));
    ObservedAnswers(cfg.mode.(together := cfg.mode.together && |uses| > 1), b, uses);
  }

  lemma StepKeepsBalance(cfg: Config, i: nat, l: Loop, turn: Turn)
    requires Balanced(l.s.history)
    ensures Balanced(OneStep(cfg, i, l, turn).l.s.history)
  {
    hide Balanced, React, Answers, UsesIn, Booked, BookedAll, Gate;
    if turn.call.Answered? {
      var resp, h := turn.call.resp, l.s.history;
      var r := React(cfg, resp, turn.batch);
      ReactionAnswers(cfg, resp, turn.batch);
      assert Uses(Reply(resp)) == UsesIn(resp.content);
      if UsesIn(resp.content) == [] {
        assert h + [Reply(resp)] + r.added == h + [Reply(resp)];
        BalancedPlain(h, Reply(resp));
      } else {
        assert r.added == [r.added[0]];
        BalancedPair(h, Reply(resp), r.added[0]);
      }
    }
  }

  lemma DriveKeepsBalance(cfg: Config, i: nat, l: Loop, turns: seq<Turn>)
    requires |turns| >= MaxSteps(cfg) && Balanced(l.s.history)
    ensures Balanced(DriveFrom(cfg, i, l, turns).l.s.history)
    decreases MaxSteps(cfg) - i
  {
    hide Balanced, OneStep;
    if i < MaxSteps(cfg) {
      StepKeepsBalance(cfg, i, l, turns[i]);
      if OneStep(cfg, i, l, turns[i]).next.On? { DriveKeepsBalance(cfg, i + 1, OneStep(cfg, i, l, turns[i]).l, turns); }
    }
  }

  /** A user turn's message: no tool message, and asking for no tool. */
  ghost predicate Plain(m: Message) { m.role != Tool && Uses(m) == [] }

  /** Main result. From a balanced session every way out of a run leaves it balanced, the rollback, the
      trim and the compaction at its end included. */
  lemma {:induction false} RunKeepsBalance(cfg: Config, s: SessionState, input: Message, ledger: Ledger, turns: seq<Turn>, end: End)
    requires |turns| >= MaxSteps(cfg) && Balanced(s.history) && Plain(input) && s.rev < REV_WRAP
    ensures Balanced(Ended(cfg, s, input, ledger, turns, end).s.history)
  {
    hide Balanced, Uses, Finish, DriveFrom, RolledBack;
    BalancedPlain(s.history, input);
    DriveKeepsBalance(cfg, 0, Loop(Appended(s, [input]), NO_RESULT, ledger), turns);
    var st := Driven(cfg, s, input, ledger, turns);
    RunShape(cfg, s, input, ledger, turns);
    RollbackRestores(cfg, s, input, ledger, turns);
    FinishKeepsBalance(cfg, Rolled(|s.history|, st), end);
  }

  lemma FinishKeepsBalance(cfg: Config, l: Loop, end: End)
    requires Balanced(l.s.history) && l.s.rev < REV_WRAP
    ensures Balanced(Finish(cfg, l, end).s.history)
  {
    hide Balanced, Trimmed, Compaction.CompactWith, Booked;
    TrimKeepsBalance(l.s, cfg.keepLast);
    if cfg.compaction.Some? {
      var p := cfg.compaction.value;
      CompactKeepsBalance(l.s, p.keepLast, HooksAt(p, end), end.archiveID);
    }
  }

  lemma CompactKeepsBalance(s: SessionState, keepLast: int, hooks: Compaction.Hooks, id: string)
    requires Balanced(s.history) && s.rev < REV_WRAP
    ensures Balanced(Compaction.CompactWith(s, keepLast, hooks, id, []).s.history)
  {
    hide Balanced, Compaction.Commit, Compaction.CompactSplit;
    var summarising := hooks.summarise.Some?;
    BoundaryNeedsSomethingKept(s.history, keepLast);
    var b := Compaction.Begin(s, keepLast, summarising, id);
    if b.Started? && hooks.summarise != Some(None) {
      var summary := if hooks.summarise.None? then None else Some(hooks.summarise.value.value.text);
      Compaction.CompactionNeedsSomethingKept(s, keepLast, summarising, id);
      Compaction.CompactionKeepsBalance(s, keepLast, summarising, id, [], summary);
    }
  }

  // ----- the accounts

  function Errors(h: seq<Message>): nat {
    if h == [] then 0 else Errors(h[..|h| - 1]) + (if h[|h| - 1].role == Tool then ErrorsIn(h[|h| - 1].content) else 0)
  }

  function Denials(h: seq<Message>): (n: nat)
    ensures n <= Errors(h)
  {
    if h == [] then 0 else Denials(h[..|h| - 1]) + (if h[|h| - 1].role == Tool then DenialsIn(h[|h| - 1].content) else 0)
  }

  /** What a run that started with the transcript s1 (its input included) has done so far: it only added
      messages and booked usage, each step once, and it passed the token gate before its last step. */
  ghost predicate Accounted(cfg: Config, s1: SessionState, l: Loop) {
    var h := l.s.history;
    && |s1.history| <= |h| && h[..|s1.history|] == s1.history
    && l.s == s1.(history := h, usage := s1.usage.Plus(Sum(l.res.stepUsage)))
    && l.res.usage == Sum(l.res.stepUsage)
    && l.res.steps == |l.res.stepUsage|
    && l.res.toolErrors == Errors(h[|s1.history|..]) && l.res.toolDenials == Denials(h[|s1.history|..])
    && (l.res.response == None <==> |h| == |s1.history|)
    && l.res.compactError == None
    && (cfg.maxTotalTokens > 0 && l.res.steps > 0 ==> Sum(l.res.stepUsage[..l.res.steps - 1]).Total() < cfg.maxTotalTokens)
  }

  ghost predicate Kept(cfg: Config, s1: SessionState, i: nat, l: Loop) {
    Accounted(cfg, s1, l) && l.res.steps == i && (i > 0 ==> l.res.response.Some?)
  }

  lemma ChargeAccounted(cfg: Config, s1: SessionState, i: nat, l: Loop, others: seq<Usage>, u: Usage)
    requires Kept(cfg, s1, i, l)
    requires cfg.maxTotalTokens <= 0 || l.res.usage.Total() < cfg.maxTotalTokens
    ensures var l' := Charge(l.(ledger := BookedAll(l.ledger, others)), u, i + 1);
      Accounted(cfg, s1, l') && l'.s.history == l.s.history && l'.res.steps == i + 1
  {
    hide Errors, Denials, BookedAll, Booked;
    var us := l.res.stepUsage;
    assert (us + [u])[..|us|] == us;
    assert s1.usage.Plus(Sum(us)).Plus(u) == s1.usage.Plus(Sum(us).Plus(u));
  }

  lemma ReactionTallies(cfg: Config, resp: Response, b: Batch)
    ensures var r := React(cfg, resp, b);
      |r.added| <= 1 && Errors(r.added) == r.errs && Denials(r.added) == r.denials
  {
    hide Observed, UsesIn, ErrorsIn, DenialsIn;
    var uses, r := UsesIn(resp.content), React(cfg, resp, b);
    NoErrorsIn(AllAnswered(uses, Recorded).content);
    NoErrorsIn(AllAnswered(uses, CutShort(resp.stop)).content);
    if |r.added| == 1 { assert r.added[..0] == []; }
  }

  lemma NoErrorsIn(content: seq<Content>)
    requires forall i :: 0 <= i < |content| ==> content[i].ResultBlock? && (content[i].res.body.Recorded? || content[i].res.body.CutShort?)
    ensures ErrorsIn(content) == 0 && DenialsIn(content) == 0
  {
    if content != [] { NoErrorsIn(content[..|content| - 1]); }
  }

  lemma TallyAppend(h: seq<Message>, m: Message, added: seq<Message>)
    requires m.role != Tool && |added| <= 1
    ensures Errors(h + [m] + added) == Errors(h) + Errors(added)
    ensures Denials(h + [m] + added) == Denials(h) + Denials(added)
  {
    assert (h + [m])[..|h|] == h;
    if added == [] {
      assert h + [m] + added == h + [m];
    } else {
      assert (h + [m] + added)[..|h| + 1] == h + [m] && added[..0] == [];
    }
  }

  lemma TakenAccounted(cfg: Config, s1: SessionState, l: Loop, resp: Response, b: Batch)
    requires Accounted(cfg, s1, l)
    ensures var l' := Taken(cfg, l, resp, b).l;
      Accounted(cfg, s1, l') && l'.res.steps == l.res.steps && l'.res.response.Some?
  {
    hide Errors, Denials, React, Sum, Sessions.Usage.Plus, Sessions.Usage.Total;
    var n, h, r := |s1.history|, l.s.history, React(cfg, resp, b);
    ReactionTallies(cfg, resp, b);
    TallyAppend(h[n..], Reply(resp), r.added);
    var h' := h + [Reply(resp)] + r.added;
    assert h'[n..] == h[n..] + [Reply(resp)] + r.added;
    assert h'[..n] == h[..n];
  }

  lemma StepAccounts(cfg: Config, s1: SessionState, i: nat, l: Loop, turn: Turn)
    requires Kept(cfg, s1, i, l)
    ensures var st := OneStep(cfg, i, l, turn);
      && Accounted(cfg, s1, st.l)
      && (st.next.On? ==> Kept(cfg, s1, i + 1, st.l))
      && (st.next == Stop(None) ==> st.l.res.response.Some?)
  {
    hide Errors, Denials, React, Booked, BookedAll, Sum, Accounted, Charge;
    var l0 := l.(ledger := BookedAll(l.ledger, turn.others));
    var shut := Gate(cfg, l0, turn.cancelled);
    LedgerAside(cfg, s1, l, l0.ledger);
    if shut == None {
      var u := if turn.call.Unanswered? then turn.call.usage else turn.call.resp.usage;
      ChargeAccounted(cfg, s1, i, l, turn.others, u);
      if turn.call.Answered? { TakenAccounted(cfg, s1, Charge(l0, u, i + 1), turn.call.resp, turn.batch); }
    }
  }

  lemma LedgerAside(cfg: Config, s1: SessionState, l: Loop, ledger: Ledger)
    ensures Accounted(cfg, s1, l) ==> Accounted(cfg, s1, l.(ledger := ledger))
  {
  }

  lemma DriveAccounts(cfg: Config, s1: SessionState, i: nat, l: Loop, turns: seq<Turn>)
    requires |turns| >= MaxSteps(cfg) && Kept(cfg, s1, i, l) && i <= MaxSteps(cfg)
    ensures var st := DriveFrom(cfg, i, l, turns);
      && Accounted(cfg, s1, st.l) && st.l.res.steps <= MaxSteps(cfg)
      && (st.next == Stop(None) ==> st.l.res.response.Some?)
    decreases MaxSteps(cfg) - i
  {
    hide Accounted, OneStep;
    if i < MaxSteps(cfg) {
      StepAccounts(cfg, s1, i, l, turns[i]);
      StepsAtMostOne(cfg, i, l, turns[i]);
      if OneStep(cfg, i, l, turns[i]).next.On? { DriveAccounts(cfg, s1, i + 1, OneStep(cfg, i, l, turns[i]).l, turns); }
    }
  }

  lemma StepsAtMostOne(cfg: Config, i: nat, l: Loop, turn: Turn)
    ensures var st := OneStep(cfg, i, l, turn); st.l.res.steps == l.res.steps || st.l.res.steps == i + 1
  {
    hide React, Booked, BookedAll, Gate;
  }

  /** Main result. Every way out of the loop: the transcript only grew; usage is the sum over the steps,
      the session is charged the same, steps are counted right and stay within the limit; before the last
      step the usage was below the token ceiling; errors and denials are those the transcript shows. */
  lemma RunShape(cfg: Config, s: SessionState, input: Message, ledger: Ledger, turns: seq<Turn>)
    requires |turns| >= MaxSteps(cfg)
    ensures var st := Driven(cfg, s, input, ledger, turns);
      && Accounted(cfg, Appended(s, [input]), st.l)
      && st.l.res.toolDenials <= st.l.res.toolErrors
      && st.l.res.steps <= MaxSteps(cfg)
      && (st.next == Stop(None) ==> st.l.res.response.Some?)
  {
    var s1 := Appended(s, [input]);
    assert s1.history[|s1.history|..] == [];
    assert s1.usage.Plus(NO_USAGE) == s1.usage;
    DriveAccounts(cfg, s1, 0, Loop(s1, NO_RESULT, ledger), turns);
  }

  /** Why a run stopped, read off what it leaves: the ceiling it reached, the response it ended on. */
  predicate Explains(cfg: Config, l: Loop, err: Option<RunError>) {
    match err
    case None =>
      && l.res.response.Some? && l.res.response.value.stop !in {StopPause, StopRefusal, StopContextOverflow}
      && (UsesIn(l.res.response.value.content) == [] || l.res.response.value.stop == StopOther
          || (cfg.forced && Executable(l.res.response.value.stop)))
    case Some(Refused) => l.res.response.Some? && l.res.response.value.stop == StopRefusal
    case Some(ContextOverflow) => l.res.response.Some? && l.res.response.value.stop == StopContextOverflow
    case Some(Cancelled) => true
    case Some(TokenBudget) => cfg.maxTotalTokens > 0 && l.res.usage.Total() >= cfg.maxTotalTokens
    case Some(SharedBudget) => Exhausted(l.ledger)
    case Some(ProviderError) => l.res.steps > 0
    case Some(TooManySteps) => l.res.steps == MaxSteps(cfg)
    case Some(_) => false
  }

  lemma StepExplained(cfg: Config, i: nat, l: Loop, turn: Turn)
    ensures var st := OneStep(cfg, i, l, turn);
      && (st.next.Stop? ==> Explains(cfg, st.l, st.next.err))
      && (st.next.On? ==> st.l.res.steps == i + 1)
  {
    hide UsesIn, Observed, ErrorsIn, DenialsIn, AllAnswered, BookedAll, Booked;
  }

  lemma DriveExplained(cfg: Config, i: nat, l: Loop, turns: seq<Turn>)
    requires |turns| >= MaxSteps(cfg) && i <= MaxSteps(cfg) && l.res.steps == i
    ensures var st := DriveFrom(cfg, i, l, turns); Explains(cfg, st.l, st.next.err)
    decreases MaxSteps(cfg) - i
  {
    hide OneStep;
    if i < MaxSteps(cfg) {
      StepExplained(cfg, i, l, turns[i]);
      if OneStep(cfg, i, l, turns[i]).next.On? { DriveExplained(cfg, i + 1, OneStep(cfg, i, l, turns[i]).l, turns); }
    }
  }

  /** A run that succeeds ends on a response that leaves no tool to run; one that fails has the cause it names. */
  lemma EndIsExplained(cfg: Config, s: SessionState, input: Message, ledger: Ledger, turns: seq<Turn>)
    requires |turns| >= MaxSteps(cfg)
    ensures var st := Driven(cfg, s, input, ledger, turns); Explains(cfg, st.l, st.next.err)
  {
    DriveExplained(cfg, 0, Loop(Appended(s, [input]), NO_RESULT, ledger), turns);
  }

  /** The gate lets a step through: not cancelled, and neither token ceiling reached. */
  predicate Passes(cfg: Config, l: Loop, turn: Turn) {
    && !turn.cancelled
    && (cfg.maxTotalTokens > 0 ==> l.res.usage.Total() < cfg.maxTotalTokens)
    && !Exhausted(BookedAll(l.ledger, turn.others))
  }

  // ----- the shared ledger

  function TotalOf(us: seq<Usage>): int { if us == [] then 0 else TotalOf(us[..|us| - 1]) + us[|us| - 1].Total() }

  lemma BookedAllAdds(l: Ledger, us: seq<Usage>)
    ensures BookedAll(l, us).spent == l.spent + TotalOf(us) && BookedAll(l, us).calls == l.calls + |us| && BookedAll(l, us).limit == l.limit
  {
    if us != [] { BookedAllAdds(l, us[..|us| - 1]); }
  }

  /** Each step books on the shared ledger just what it adds to the run's usage, as one call, besides what
      others have spent meanwhile. */
  lemma StepBooks(cfg: Config, i: nat, l: Loop, turn: Turn)
    ensures var l' := OneStep(cfg, i, l, turn).l;
      && l'.ledger.spent == l.ledger.spent + TotalOf(turn.others) + l'.res.usage.Total() - l.res.usage.Total()
      && l'.ledger.calls == l.ledger.calls + |turn.others| + |l'.res.stepUsage| - |l.res.stepUsage|
      && l'.ledger.limit == l.ledger.limit
  {
    hide React, BookedAll, Exhausted;
    BookedAllAdds(l.ledger, turn.others);
  }

  /** A call's usage is the step's, answered or not. Only an answer adds to the transcript: the assistant's
      message with the response's content, then what answers its calls. */
  lemma StepAppends(cfg: Config, i: nat, l: Loop, turn: Turn)
    ensures var l' := OneStep(cfg, i, l, turn).l;
      && (!Passes(cfg, l, turn) ==> l'.s == l.s && l'.res == l.res)
      && (Passes(cfg, l, turn) && turn.call.Unanswered? ==>
          l'.s.history == l.s.history && l'.res.response == l.res.response && l'.res.stepUsage == l.res.stepUsage + [turn.call.usage])
      && (Passes(cfg, l, turn) && turn.call.Answered? ==>
          var resp := turn.call.resp;
          && l'.s.history == l.s.history + [Message(Assistant, resp.content)] + React(cfg, resp, turn.batch).added
          && l'.res.response == Some(resp) && l'.res.stepUsage == l.res.stepUsage + [resp.usage])
  {
    hide React, BookedAll, Booked, Exhausted;
  }

  // ----- when a run goes on, and when it stops

  /** A response after which there is more to do: tools to run, a pause, or calls cut off by the token limit. */
  predicate AsksForMore(cfg: Config, resp: Response) {
    || ((resp.stop == StopToolUse || resp.stop == StopEndTurn) && UsesIn(resp.content) != [] && !cfg.forced)
    || resp.stop == StopPause
    || (resp.stop == StopMaxTokens && UsesIn(resp.content) != [])
  }

  predicate GoesOn(cfg: Config, l: Loop, turn: Turn) {
    Passes(cfg, l, turn) && turn.call.Answered? && AsksForMore(cfg, turn.call.resp)
  }

  /** A step leads to another exactly if it passes the gate and is answered by a response that asks for more;
      otherwise it ends the run, for just the reason that applies. */
  lemma StepGoesOnJustWhen(cfg: Config, i: nat, l: Loop, turn: Turn)
    ensures var next := OneStep(cfg, i, l, turn).next;
      && (next.On? <==> GoesOn(cfg, l, turn))
      && (next == Stop(Some(Cancelled)) <==> turn.cancelled)
      && (next == Stop(Some(TokenBudget)) <==> !turn.cancelled && cfg.maxTotalTokens > 0 && l.res.usage.Total() >= cfg.maxTotalTokens)
      && (next == Stop(Some(ProviderError)) <==> Passes(cfg, l, turn) && turn.call.Unanswered?)
      && (next == Stop(Some(Refused)) <==> Passes(cfg, l, turn) && turn.call.Answered? && turn.call.resp.stop == StopRefusal)
      && (next == Stop(Some(ContextOverflow)) <==> Passes(cfg, l, turn) && turn.call.Answered? && turn.call.resp.stop == StopContextOverflow)
      && (next.Stop? && next.err.Some? ==> next.err.value in {Cancelled, TokenBudget, SharedBudget, ProviderError, Refused, ContextOverflow})
  {
    hide UsesIn, Observed, ErrorsIn, DenialsIn, AllAnswered, BookedAll, Booked, Exhausted;
  }

  /** The loop of a run at its n-th request, if it gets that far. */
  function AtStep(cfg: Config, l: Loop, turns: seq<Turn>, n: nat): Option<Loop>
    requires n <= |turns|
  {
    if n == 0 then Some(l)
    else
      var before := AtStep(cfg, l, turns, n - 1);
      if before.None? then None
      else
        var st := OneStep(cfg, n - 1, before.value, turns[n - 1]);
        if st.next.On? then Some(st.l) else None
  }

  lemma OnToTheEnd(cfg: Config, l: Loop, turns: seq<Turn>, i: nat)
    requires |turns| >= MaxSteps(cfg) && i <= MaxSteps(cfg) && AtStep(cfg, l, turns, i).Some?
    ensures DriveFrom(cfg, i, AtStep(cfg, l, turns, i).value, turns).next == Stop(Some(TooManySteps))
      <==> AtStep(cfg, l, turns, MaxSteps(cfg)).Some?
    decreases MaxSteps(cfg) - i
  {
    hide OneStep;
    if i < MaxSteps(cfg) {
      var at := AtStep(cfg, l, turns, i).value;
      StepGoesOnJustWhen(cfg, i, at, turns[i]);
      if OneStep(cfg, i, at, turns[i]).next.On? {
        OnToTheEnd(cfg, l, turns, i + 1);
      } else {
        NotReached(cfg, l, turns, i + 1, MaxSteps(cfg));
      }
    }
  }

  lemma NotReached(cfg: Config, l: Loop, turns: seq<Turn>, m: nat, n: nat)
    requires m <= n <= |turns| && AtStep(cfg, l, turns, m).None?
    ensures AtStep(cfg, l, turns, n).None?
  {
    if m < n { NotReached(cfg, l, turns, m, n - 1); }
  }

  lemma {:induction false} ReachedJustWhen(cfg: Config, l: Loop, turns: seq<Turn>, n: nat)
    requires n <= |turns|
    ensures AtStep(cfg, l, turns, n).Some? <==>
      forall i :: 0 <= i < n ==> AtStep(cfg, l, turns, i).Some? && GoesOn(cfg, AtStep(cfg, l, turns, i).value, turns[i])
  {
    hide OneStep, GoesOn;
    if n > 0 {
      ReachedJustWhen(cfg, l, turns, n - 1);
      if AtStep(cfg, l, turns, n - 1).Some? { StepGoesOnJustWhen(cfg, n - 1, AtStep(cfg, l, turns, n - 1).value, turns[n - 1]); }
    }
  }

  /** A run ends for too many steps exactly if each of them passed the gate and was answered by a response
      that asks for more. */
  lemma TooManyStepsJustWhen(cfg: Config, s: SessionState, input: Message, ledger: Ledger, turns: seq<Turn>)
    requires |turns| >= MaxSteps(cfg)
    ensures var l := Loop(Appended(s, [input]), NO_RESULT, ledger);
      Driven(cfg, s, input, ledger, turns).next == Stop(Some(TooManySteps)) <==>
        forall i :: 0 <= i < MaxSteps(cfg) ==> AtStep(cfg, l, turns, i).Some? && GoesOn(cfg, AtStep(cfg, l, turns, i).value, turns[i])
  {
    hide GoesOn, DriveFrom;
    var l := Loop(Appended(s, [input]), NO_RESULT, ledger);
    OnToTheEnd(cfg, l, turns, 0);
    ReachedJustWhen(cfg, l, turns, MaxSteps(cfg));
  }

  /** An error takes the input back out exactly when no response was completed; otherwise the transcript stays. */
  lemma RollbackRestores(cfg: Config, s: SessionState, input: Message, ledger: Ledger, turns: seq<Turn>)
    requires |turns| >= MaxSteps(cfg)
    ensures var st := Driven(cfg, s, input, ledger, turns); var l := Rolled(|s.history|, st);
      && l.res == st.l.res
      && (if st.next.err.Some? && st.l.res.response == None then l.s.history == s.history && l.s.rev == Bump(s.rev)
          else l.s == st.l.s && |l.s.history| >= |s.history| + 2)
  {
    hide DriveFrom, Errors, Denials, Sum;
    RunShape(cfg, s, input, ledger, turns);
    var h := Driven(cfg, s, input, ledger, turns).l.s.history;
    assert (s.history + [input])[..|s.history|] == s.history;
    if |h| == |s.history| + 1 { assert h == h[..|h|]; }
  }

  /** The end of a run leaves the result's own accounts alone, and charges the session a compaction's
      usage exactly when the compaction went through. */
  lemma FinishCharges(cfg: Config, l: Loop, end: End)
    ensures var l' := Finish(cfg, l, end);
      && l'.res.(compactError := l.res.compactError) == l.res
      && (cfg.compaction.None? ==> l'.s.usage == l.s.usage && l'.ledger == l.ledger)
      && (cfg.compaction.Some? ==>
          var p := cfg.compaction.value;
          var out := Compaction.CompactWith(l.s, p.keepLast, HooksAt(p, end), end.archiveID, []);
          if Due(p, l) && !end.cancelled && out.err == None
          then l'.s.usage == l.s.usage.Plus(out.r.usage) && l'.ledger == Booked(l.ledger, out.r.usage)
               && (out.r.usage == NO_USAGE || (p.summarising && end.summary.Some? && out.r.usage == end.summary.value.usage))
          else l'.s.usage == l.s.usage && l'.ledger == l.ledger)
  {
    hide UserBoundary, Booked;
  }

  // ----- the methods

  /** What the compaction at the end of a run cost: nothing unless it went through. */
  function CompactionCost(cfg: Config, l: Loop, end: End): Usage {
    if cfg.compaction.None? || !Due(cfg.compaction.value, l) || end.cancelled then NO_USAGE
    else
      var p := cfg.compaction.value;
      var out := Compaction.CompactWith(l.s, p.keepLast, HooksAt(p, end), end.archiveID, []);
      if out.err.Some? then NO_USAGE else out.r.usage
  }

  /** What the end of a run does to the session: without a policy it trims, if told to; with one it leaves
      all as it is until there are too many messages or the last request was too long, and then compacts,
      unless the run was cancelled. */
  lemma FinishDoesWhatIsDue(cfg: Config, l: Loop, end: End)
    ensures var l' := Finish(cfg, l, end);
      && (cfg.compaction.None? ==> l'.res == l.res && l'.s == if cfg.keepLast > 0 then Trimmed(l.s, cfg.keepLast) else l.s)
      && (cfg.compaction.Some? ==>
          var p := cfg.compaction.value;
          var out := Compaction.CompactWith(l.s, p.keepLast, Compaction.Hooks(if p.summarising then Some(end.summary) else None, end.archived), end.archiveID, []);
          if (p.atMessages > 0 && |l.s.history| > p.atMessages)
            || (p.atInputTokens > 0 && l.res.response.Some? && l.res.response.value.usage.input >= p.atInputTokens)
          then
            if end.cancelled then l'.s == l.s && l'.res == l.res.(compactError := Some(RunCancelled))
            else
              && l'.s.history == (if out.err == Some(Compaction.OutsideTranscript) then l.s.history else out.s.history)
              && (out.err == None ==> l'.res == l.res)
          else l' == l)
  {
    hide UserBoundary, Booked, Trimmed, Compaction.CompactWith;
  }

  lemma FinishAccounts(cfg: Config, l: Loop, end: End)
    ensures var l' := Finish(cfg, l, end);
      && l'.s.usage == l.s.usage.Plus(CompactionCost(cfg, l, end)) && l'.res.(compactError := l.res.compactError) == l.res
  {
    hide UserBoundary, Booked;
    FinishCharges(cfg, l, end);
  }

  /** Main result. Over every run and exit, rollback, trim and compaction included: usage is the sum over the
      steps, the session is charged that and a successful compaction's cost and nothing else, steps are
      counted right and within the limit, and no more calls were denied than failed. */
  lemma {:induction false} EndedAccounts(cfg: Config, s: SessionState, input: Message, ledger: Ledger, turns: seq<Turn>, end: End)
    requires |turns| >= MaxSteps(cfg)
    ensures var l := Ended(cfg, s, input, ledger, turns, end);
      var cost := CompactionCost(cfg, Rolled(|s.history|, Driven(cfg, s, input, ledger, turns)), end);
      && l.res.usage == Sum(l.res.stepUsage)
      && l.s.usage == s.usage.Plus(Sum(l.res.stepUsage)).Plus(cost)
      && l.res.steps == |l.res.stepUsage| <= MaxSteps(cfg)
      && l.res.toolDenials <= l.res.toolErrors
      && (cfg.maxTotalTokens > 0 && l.res.steps > 0 ==> Sum(l.res.stepUsage[..l.res.steps - 1]).Total() < cfg.maxTotalTokens)
  {
    hide Finish, CompactionCost, DriveFrom, Sum, Errors, Denials;
    RunShape(cfg, s, input, ledger, turns);
    FinishAccounts(cfg, Rolled(|s.history|, Driven(cfg, s, input, ledger, turns)), end);
  }

  /** A run crashes exactly if its compaction is due and was told to keep nothing, or less, of what there is. */
  lemma CrashesJustWhen(cfg: Config, l: Loop, end: End)
    requires l.s.rev < REV_WRAP
    ensures Crashes(cfg, l, end) <==>
      && cfg.compaction.Some? && Due(cfg.compaction.value, l) && !end.cancelled
      && (cfg.compaction.value.keepLast < 0 || (cfg.compaction.value.keepLast == 0 && l.s.history != []))
  {
    hide Due;
    if cfg.compaction.Some? {
      var p := cfg.compaction.value;
      Compaction.FailedCompactionChangesNothing(l.s, p.keepLast, HooksAt(p, end), end.archiveID, []);
    }
  }

  method AnswerAll(uses: seq<ToolUse>, body: Body) returns (m: Message)
    ensures m == AllAnswered(uses, body)
  {
    var results: seq<Content> := [];
    for i := 0 to |uses|
      invariant results == AllAnswered(uses, body).content[..i]
    {
      results := results + [Answer(uses[i], body)];
    }
    m := Message(Tool, results);
  }

  method ReactTo(cfg: Config, resp: Response, b: Batch, s: Session, res: Result) returns (res': Result, next: Next)
    modifies s`history
    ensures s.State() == Appended(old(s.State()), React(cfg, resp, b).added)
    ensures var r := React(cfg, resp, b);
      res' == res.(toolErrors := res.toolErrors + r.errs, toolDenials := res.toolDenials + r.denials) && next == r.next
  {
    hide Observed, UsesIn, ErrorsIn, DenialsIn, AllAnswered;
    var uses := UsesIn(resp.content);
    res' := res;
    if cfg.forced && Executable(resp.stop) && |uses| > 0 {
      var m := AnswerAll(uses, Recorded);
      s.Append([m]);
      return res', Stop(None);
    }
    var content, errs, denials, cont := Observe(cfg.mode, resp.stop, uses, b);
    if cont {
      s.Append([Message(Tool, content)]);
      return res.(toolErrors := res.toolErrors + errs, toolDenials := res.toolDenials + denials), On;
    }
    var recovered := false;
    if !Executable(resp.stop) && |uses| > 0 {
      var m := AnswerAll(uses, CutShort(resp.stop));
      s.Append([m]);
      recovered := true;
    } else {
      assert s.history + [] == s.history;
    }
    match resp.stop {
      case StopPause => next := On;
      case StopContextOverflow => next := Stop(Some(ContextOverflow));
      case StopRefusal => next := Stop(Some(Refused));
      case StopOther => next := Stop(None);
      case _ => next := if recovered then On else Stop(None);
    }
  }

  method OthersSpend(b: Budget, us: seq<Usage>)
    modifies b
    ensures b.State() == BookedAll(old(b.State()), us)
  {
    for i := 0 to |us|
      invariant b.State() == BookedAll(old(b.State()), us[..i])
    {
      assert us[..i + 1][..i] == us[..i];
      b.Spend(us[i]);
    }
    assert us[..|us|] == us;
  }

  method Book(s: Session, b: Budget, res: Result, u: Usage, steps: nat) returns (res': Result)
    modifies s`usage, b
    ensures Loop(s.State(), res', b.State()) == Charge(Loop(old(s.State()), res, old(b.State())), u, steps)
  {
    res' := res.(usage := res.usage.Plus(u), stepUsage := res.stepUsage + [u], steps := steps);
    s.AddUsage(u);
    b.Spend(u);
  }

  method DoStep(cfg: Config, i: nat, s: Session, b: Budget, res: Result, turn: Turn) returns (res': Result, next: Next)
    modifies s, b
    ensures Stepped(Loop(s.State(), res', b.State()), next) == OneStep(cfg, i, Loop(old(s.State()), res, old(b.State())), turn)
    ensures s.running == old(s.running)
  {
    hide React, Booked, BookedAll;
    OthersSpend(b, turn.others);
    res' := res;
    if turn.cancelled { return res', Stop(Some(Cancelled)); }
    if cfg.maxTotalTokens > 0 && res.usage.Total() >= cfg.maxTotalTokens { return res', Stop(Some(TokenBudget)); }
    var spent := b.IsExhausted();
    if spent { return res', Stop(Some(SharedBudget)); }
    match turn.call {
      case Unanswered(u) =>
        res' := Book(s, b, res, u, i + 1);
        next := Stop(Some(ProviderError));
      case Answered(resp) =>
        res' := Book(s, b, res, resp.usage, i + 1);
        res' := res'.(response := Some(resp));
        s.Append([Reply(resp)]);
        res', next := ReactTo(cfg, resp, turn.batch, s, res');
    }
  }

  method Drive(cfg: Config, s: Session, b: Budget, base: nat, turns: seq<Turn>, end: End)
    returns (res: Result, err: Option<RunError>, crashed: bool)
    requires |turns| >= MaxSteps(cfg)
    modifies s, b
    ensures var st := DriveFrom(cfg, 0, Loop(old(s.State()), NO_RESULT, old(b.State())), turns);
      && crashed == Crashes(cfg, Rolled(base, st), end)
      && (if crashed then res == NO_RESULT && err == None && Loop(s.State(), st.l.res, b.State()) == Rolled(base, st)
          else err == st.next.err && Loop(s.State(), res, b.State()) == Finish(cfg, Rolled(base, st), end))
    ensures s.running == old(s.running)
  {
    hide OneStep, Finish, RolledBack, Crashes;
    res := NO_RESULT;
    ghost var start := Loop(s.State(), res, b.State());
    var i, next := 0, On;
    while next.On? && i < MaxSteps(cfg)
      invariant i <= MaxSteps(cfg) && s.running == old(s.running)
      invariant DriveFrom(cfg, 0, start, turns) ==
        if next.On? then DriveFrom(cfg, i, Loop(s.State(), res, b.State()), turns) else Stepped(Loop(s.State(), res, b.State()), next)
      decreases MaxSteps(cfg) - i
    {
      res, next := DoStep(cfg, i, s, b, res, turns[i]);
      i := i + 1;
    }
    if next.On? { next := Stop(Some(TooManySteps)); }
    err := next.err;
    if err.Some? { s.Rollback(base); }
    res, crashed := DoFinish(cfg, s, b, res, end);
    if crashed { res, err := NO_RESULT, None; }
  }

  method DoFinish(cfg: Config, s: Session, b: Budget, res: Result, end: End) returns (res': Result, crashed: bool)
    modifies s, b
    ensures var l := Loop(old(s.State()), res, old(b.State()));
      && crashed == Crashes(cfg, l, end)
      && Loop(s.State(), res', b.State()) == (if crashed then l else Finish(cfg, l, end))
    ensures s.running == old(s.running)
  {
    hide Booked, Trimmed, Compaction.CompactWith;
    res', crashed := res, false;
    if cfg.compaction.None? {
      if cfg.keepLast > 0 { s.Trim(cfg.keepLast); }
      return;
    }
    var p := cfg.compaction.value;
    var inputTokens := 0;
    if res.response.Some? { inputTokens := res.response.value.usage.input; }
    if !(p.atMessages > 0 && |s.history| > p.atMessages) && !(p.atInputTokens > 0 && inputTokens >= p.atInputTokens) { return; }
    if end.cancelled { return res.(compactError := Some(RunCancelled)), false; }
    var out, err := Compaction.Compact(s, p.keepLast, HooksAt(p, end), end.archiveID, []);
    assert s.State() == Compaction.CompactWith(old(s.State()), p.keepLast, HooksAt(p, end), end.archiveID, []).s;
    if err == Some(Compaction.OutsideTranscript) {
      CrashLeavesAll(old(s.State()), p.keepLast, HooksAt(p, end), end.archiveID);
      return res, true;
    }
    if err.Some? { return res.(compactError := Some(CompactFailed(err.value))), false; }
    s.AddUsage(out.usage);
    b.Spend(out.usage);
  }

  lemma CrashLeavesAll(s: SessionState, keepLast: int, hooks: Compaction.Hooks, id: string)
    requires Compaction.CompactWith(s, keepLast, hooks, id, []).err == Some(Compaction.OutsideTranscript)
    ensures Compaction.CompactWith(s, keepLast, hooks, id, []).s == s
  {
    hide UserBoundary, Compaction.SummaryTurn;
  }

  /** One run on a session that nobody else is running. A crash returns nothing and leaves what the run did;
      the run flag is given up, but not the session's mutex, which is not modelled. */
  method RunMessage(cfg: Config, hasProvider: bool, cancelled: bool, s: Session, b: Budget, input: Message, turns: seq<Turn>, end: End)
    returns (res: Result, err: Option<RunError>, crashed: bool)
    requires |turns| >= MaxSteps(cfg)
    modifies s, b
    ensures !hasProvider || cancelled || old(s.running) ==>
      && s.State() == old(s.State()) && b.State() == old(b.State()) && res == NO_RESULT && s.running == old(s.running) && !crashed
      && err == Some(if !hasProvider then NoProvider else if cancelled then Cancelled else SessionBusy)
    ensures hasProvider && !cancelled && !old(s.running) ==>
      var st := Driven(cfg, old(s.State()), input, old(b.State()), turns);
      var rolled := Rolled(|old(s.history)|, st);
      && crashed == Crashes(cfg, rolled, end) && !s.running
      && (if crashed then res == NO_RESULT && err == None && s.State() == rolled.s && b.State() == rolled.ledger
          else err == st.next.err && Loop(s.State(), res, b.State()) == Ended(cfg, old(s.State()), input, old(b.State()), turns, end))
  {
    hide DriveFrom, Finish, Crashes, RolledBack;
    var base := |s.history|;
    if !hasProvider { return NO_RESULT, Some(NoProvider), false; }
    if cancelled { return NO_RESULT, Some(Cancelled), false; }
    var ok := s.Acquire();
    if !ok { return NO_RESULT, Some(SessionBusy), false; }
    s.Append([input]);
    res, err, crashed := Drive(cfg, s, b, base, turns, end);
    s.Release();
  }
}
