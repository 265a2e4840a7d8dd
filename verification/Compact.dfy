// Compaction: the head of a transcript is summarised and archived without holding the session,
// and the result goes in only if nothing rewrote the transcript meanwhile (compact.go).
module Compaction {
  import opened Text
  import opened Messages
  import opened Sessions

  const SUMMARY_PREFIX := "Summary of the earlier conversation:\n\n"

  /** Where to cut: at a user turn; or, behind a summary, right after one. */
  function CompactSplit(h: seq<Message>, keepLast: int, summarising: bool): Cut {
    match UserBoundary(h, keepLast)
    case OutOfRange => OutOfRange
    case NoCut => NoCut
    case At(start) =>
      if !summarising then At(start)
      else if start + 1 >= |h| then NoCut
      else if h[start + 1].role == User || h[start + 1].role == Tool then NoCut
      else At(start + 1)
  }

  /** What the first critical section takes with it. */
  datatype Ticket = Ticket(k: nat, rev0: nat, head: seq<Message>, archive: SessionState)

  datatype Begun = Outside | Nothing | Started(t: Ticket)

  function Begin(s: SessionState, keepLast: int, summarising: bool, archiveID: string): Begun {
    match CompactSplit(s.history, keepLast, summarising)
    case OutOfRange => Outside
    case NoCut => Nothing
    case At(k) =>
      if k > |s.history| then Nothing
      else Started(Ticket(k, s.rev, s.history[..k], SessionState(archiveID, s.parent, 0, s.history, s.vars, s.usage)))
  }

  function SummaryTurn(summary: Option<string>): seq<Message> {
    match summary
    case Some(text) => [UserText(SUMMARY_PREFIX + text)]
    case None => []
  }

  /** OutOfBounds: the kept part would start past the transcript's end. */
  datatype Committed = Changed | OutOfBounds | Done(s: SessionState)

  /** The second critical section: nothing is done when the transcript was rewritten in between. */
  function Commit(s: SessionState, t: Ticket, summary: Option<string>): Committed {
    if s.rev != t.rev0 then Changed
    else if t.k > |s.history| then OutOfBounds
    else Done(s.(history := SummaryTurn(summary) + s.history[t.k..], parent := t.archive.id, rev := Bump(s.rev)))
  }

  /** What other holders of the session may do between the two sections. */
  datatype Op =
    | Append(msgs: seq<Message>)
    | Trim(keepLast: int)
    | DropBefore(n: int)
    | Rollback(base: int)
    | SetVar(key: string, v: string)
    | DeleteVar(key: string)
    | Charge(u: Usage)
    | CommitOther(t: Ticket, summary: Option<string>)

  function ApplyOp(s: SessionState, op: Op): SessionState {
    match op
    case Append(msgs) => Appended(s, msgs)
    case Trim(k) => Trimmed(s, k)
    case DropBefore(n) => DroppedBefore(s, n)
    case Rollback(b) => RolledBack(s, b)
    case SetVar(k, v) => VarSet(s, k, v)
    case DeleteVar(k) => VarDeleted(s, k)
    case Charge(u) => Charged(s, u)
    case CommitOther(t, summary) => (match Commit(s, t, summary) case Done(s') => s' case _ => s)
  }

  function ApplyOps(s: SessionState, ops: seq<Op>): SessionState {
    if ops == [] then s else ApplyOp(ApplyOps(s, ops[..|ops| - 1]), ops[|ops| - 1])
  }

  /** The messages appended, and nothing else, by a run of operations. */
  function Added(ops: seq<Op>): seq<Message> {
    if ops == [] then []
    else Added(ops[..|ops| - 1]) + if ops[|ops| - 1].Append? then ops[|ops| - 1].msgs else []
  }

  /** The operation rewrites what it finds rather than adding to it, or leaving it alone. */
  predicate Rewrites(s: SessionState, op: Op) {
    match op
    case Append(_) => false
    case Trim(k) => k <= 0 || UserBoundary(s.history, k).At?
    case DropBefore(n) => n > 0
    case Rollback(b) => b >= 0 && |s.history| == b + 1
    case SetVar(_, _) => true
    case DeleteVar(k) => k in s.vars
    case Charge(_) => false
    case CommitOther(t, _) => s.rev == t.rev0 && t.k <= |s.history|
  }

  function CountRewrites(s: SessionState, ops: seq<Op>): nat {
    if ops == [] then 0
    else
      var before := ops[..|ops| - 1];
      CountRewrites(s, before) + if Rewrites(ApplyOps(s, before), ops[|ops| - 1]) then 1 else 0
  }

  lemma OpEffect(s: SessionState, op: Op)
    ensures Rewrites(s, op) ==> ApplyOp(s, op).rev == Bump(s.rev)
    ensures !Rewrites(s, op) ==>
      ApplyOp(s, op) == s.(history := s.history + Added([op]), usage := ApplyOp(s, op).usage)
  {
    hide UserBoundary;
    assert [op][..0] == [];
    assert Added([op]) == if op.Append? then op.msgs else [];
    assert s.history + [] == s.history;
    if op.Trim? && op.keepLast >= 1 { BoundaryStartsATurn(s.history, op.keepLast); }
  }

  lemma {:induction false} OpsEffect(s: SessionState, ops: seq<Op>)
    requires s.rev < REV_WRAP
    ensures ApplyOps(s, ops).rev == (s.rev + CountRewrites(s, ops)) % REV_WRAP
    ensures CountRewrites(s, ops) <= |ops|
    ensures CountRewrites(s, ops) == 0 ==>
      ApplyOps(s, ops) == s.(history := s.history + Added(ops), usage := ApplyOps(s, ops).usage)
  {
    hide Rewrites, ApplyOp;
    if ops == [] {
      assert s.history + [] == s.history;
    } else {
      var before, op := ops[..|ops| - 1], ops[|ops| - 1];
      var s' := ApplyOps(s, before);
      OpsEffect(s, before);
      OpEffect(s', op);
      assert [op][..0] == [] && Added([op]) == if op.Append? then op.msgs else [];
      if Rewrites(s', op) {
        BumpAdds(s.rev + CountRewrites(s, before));
      } else if CountRewrites(s, ops) == 0 {
        assert s.history + Added(before) + Added([op]) == s.history + Added(ops);
      }
    }
  }

  lemma BumpAdds(n: nat)
    ensures Bump(n % REV_WRAP) == (n + 1) % REV_WRAP
  {
    var q := n / REV_WRAP;
    assert n + 1 == q * REV_WRAP + (n % REV_WRAP + 1);
  }

  /** Main result. Whatever falls between its two sections (fewer than 2^64 operations), a compaction goes
      in exactly when none of it rewrote the transcript; then the archive is the whole transcript as it
      was, and the live one is the optional summary, the kept tail and just what was appended since. */
  lemma {:induction false} CompactionLosesNothing(s: SessionState, keepLast: int, summarising: bool, id: string, ops: seq<Op>, summary: Option<string>)
    requires s.rev < REV_WRAP && |ops| < REV_WRAP
    requires summary.Some? == summarising && Begin(s, keepLast, summarising, id).Started?
    ensures var t, s' := Begin(s, keepLast, summarising, id).t, ApplyOps(s, ops);
      var done := Commit(s', t, summary);
      && !done.OutOfBounds? && (done.Done? <==> CountRewrites(s, ops) == 0)
      && t.archive.history == s.history && t.archive.parent == s.parent
      && (done.Done? ==>
          && 0 < t.k < |s.history|
          && done.s.history == SummaryTurn(summary) + s.history[t.k..] + Added(ops)
          && (summary.Some? ==> done.s.history[0] == Message(User, [TextBlock(SUMMARY_PREFIX + summary.value)]))
          && (summary.None? ==> done.s.history == s.history[t.k..] + Added(ops))
          && t.head + done.s.history[|SummaryTurn(summary)|..] == s'.history
          && done.s.parent == id && done.s.id == s.id && done.s.vars == s.vars)
  {
    hide ApplyOps, Commit, CountRewrites, Added;
    BeginTakesAll(s, keepLast, summarising, id);
    var t, s' := Begin(s, keepLast, summarising, id).t, ApplyOps(s, ops);
    OpsEffect(s, ops);
    RevComesBackLate(s.rev, CountRewrites(s, ops));
    if s'.rev == t.rev0 { CommitEffect(s, s', t, summary, Added(ops)); }
    CommitChecks(s', t, summary);
    NoSummary(s.history[t.k..]);
  }

  lemma NoSummary(h: seq<Message>)
    ensures SummaryTurn(None) + h == h
  {
  }

  lemma BeginTakesAll(s: SessionState, keepLast: int, summarising: bool, id: string)
    requires Begin(s, keepLast, summarising, id).Started?
    ensures var t := Begin(s, keepLast, summarising, id).t;
      && 0 < t.k < |s.history| && t.rev0 == s.rev && t.head == s.history[..t.k]
      && CompactSplit(s.history, keepLast, summarising) == At(t.k)
      && t.archive == SessionState(id, s.parent, 0, s.history, s.vars, s.usage)
  {
  }

  lemma CommitChecks(s: SessionState, t: Ticket, summary: Option<string>)
    ensures s.rev != t.rev0 ==> Commit(s, t, summary) == Changed
  {
  }

  lemma CommitEffect(s: SessionState, s': SessionState, t: Ticket, summary: Option<string>, added: seq<Message>)
    requires 0 < t.k < |s.history| && t.head == s.history[..t.k] && s'.rev == t.rev0
    requires s'.history == s.history + added && s'.id == s.id && s'.vars == s.vars
    ensures var done := Commit(s', t, summary);
      && done.Done?
      && done.s.history == SummaryTurn(summary) + s.history[t.k..] + added
      && t.head + done.s.history[|SummaryTurn(summary)|..] == s'.history
      && done.s.parent == t.archive.id && done.s.id == s.id && done.s.vars == s.vars
  {
    hide SummaryTurn;
    var done := Commit(s', t, summary).s;
    assert s'.history[t.k..] == s.history[t.k..] + added;
    assert done.history[|SummaryTurn(summary)|..] == s'.history[t.k..];
    assert s.history == t.head + s.history[t.k..];
  }

  lemma RevComesBackLate(rev: nat, n: nat)
    ensures rev < REV_WRAP && n < REV_WRAP ==> ((rev + n) % REV_WRAP == rev <==> n == 0)
  {
  }

  lemma SplitInside(h: seq<Message>, keepLast: int, summarising: bool)
    ensures CompactSplit(h, keepLast, summarising).At? ==> 0 < CompactSplit(h, keepLast, summarising).k < |h|
  {
  }

  lemma CompactionNeedsSomethingKept(s: SessionState, keepLast: int, summarising: bool, id: string)
    requires Begin(s, keepLast, summarising, id).Started?
    ensures keepLast >= 1 && UserBoundary(s.history, keepLast).At?
  {
  }

  /** The seam: without a summary the kept part starts a user turn; behind a summary it starts with
      neither a user nor a tool message, and the message just dropped was the user's. */
  lemma SplitKeepsTurnsWhole(h: seq<Message>, keepLast: int, summarising: bool)
    requires keepLast >= 1 && CompactSplit(h, keepLast, summarising).At?
    ensures var k := CompactSplit(h, keepLast, summarising).k;
      && 0 < k < |h|
      && (!summarising ==> h[k].role == User)
      && (summarising ==> h[k].role != User && h[k].role != Tool && h[k - 1].role == User)
  {
    hide UserBoundary;
    BoundaryStartsATurn(h, keepLast);
  }

  /** There is a split exactly where there is a cut and, behind a summary, the user turn it starts has a
      first message that is kept with it and is neither a user's nor a tool's. */
  lemma SplitsJustWhen(h: seq<Message>, keepLast: int, summarising: bool)
    requires keepLast >= 1
    ensures var cut := UserBoundary(h, keepLast);
      CompactSplit(h, keepLast, summarising).At? <==>
        cut.At? && (summarising ==> cut.k + 1 < |h| && h[cut.k + 1].role != User && h[cut.k + 1].role != Tool)
    ensures CompactSplit(h, keepLast, summarising).At? ==>
      CompactSplit(h, keepLast, summarising).k == UserBoundary(h, keepLast).k + if summarising then 1 else 0
  {
    hide UserBoundary;
    BoundaryStartsATurn(h, keepLast);
  }

  /** A balanced transcript stays balanced through a compaction, appends in between included. */
  lemma {:induction false} CompactionKeepsBalance(s: SessionState, keepLast: int, summarising: bool, id: string, ops: seq<Op>, summary: Option<string>)
    requires s.rev < REV_WRAP && |ops| < REV_WRAP && keepLast >= 1
    requires summary.Some? == summarising && Begin(s, keepLast, summarising, id).Started?
    requires Balanced(ApplyOps(s, ops).history)
    ensures var done := Commit(ApplyOps(s, ops), Begin(s, keepLast, summarising, id).t, summary);
      done.Done? ==> Balanced(done.s.history)
  {
    hide Begin, ApplyOps, Commit, Balanced, CompactSplit, Added, SummaryTurn;
    CompactionLosesNothing(s, keepLast, summarising, id, ops, summary);
    BeginTakesAll(s, keepLast, summarising, id);
    var t, s' := Begin(s, keepLast, summarising, id).t, ApplyOps(s, ops);
    SplitKeepsTurnsWhole(s.history, keepLast, summarising);
    if Commit(s', t, summary).Done? {
      OpsEffect(s, ops);
      assert s'.history[t.k..] == s.history[t.k..] + Added(ops);
      assert SummaryTurn(summary) + s.history[t.k..] + Added(ops) == SummaryTurn(summary) + s'.history[t.k..];
      BalancedSuffix(s'.history, t.k);
      SummaryKeepsBalance(summary, s'.history[t.k..]);
    }
  }

  lemma SummaryKeepsBalance(summary: Option<string>, h: seq<Message>)
    requires Balanced(h) && h != [] && h[0].role != Tool
    ensures Balanced(SummaryTurn(summary) + h)
  {
    hide Balanced;
    if summary.None? {
      assert [] + h == h;
    } else {
      var m := UserText(SUMMARY_PREFIX + summary.value);
      assert m.content[..0] == [] && Uses(m) == UsesIn([]) + UseOf(m.content[0]) == [];
      assert m.role != Tool && h[0].role != Tool;
      BalancedLed(m, h);
    }
  }

  // ----- the method, with what others do in between as a run of operations

  /** OutsideTranscript stands for a panic: an index or slice past the transcript's ends. */
  datatype CompactError = OutsideTranscript | SummaryFailed | ArchiveFailed | SessionChanged

  /** Dropped is zero when there was nothing to compact. */
  datatype CompactResult = CompactResult(archive: Option<SessionState>, usage: Usage, dropped: nat)

  const NO_RESULT := CompactResult(None, NO_USAGE, 0)

  datatype Summary = Summary(text: string, usage: Usage)

  /** The foreign calls: the summariser if there is one, and whether the archive hook succeeds. */
  datatype Hooks = Hooks(summarise: Option<Option<Summary>>, archived: bool)

  method OtherSteps(s: Session, ops: seq<Op>)
    modifies s
    ensures s.State() == ApplyOps(old(s.State()), ops) && s.running == old(s.running)
  {
    hide UserBoundary;
    for i := 0 to |ops|
      invariant s.State() == ApplyOps(old(s.State()), ops[..i]) && s.running == old(s.running)
    {
      assert ops[..i + 1][..i] == ops[..i];
      match ops[i] {
        case Append(msgs) => s.Append(msgs);
        case Trim(k) => s.Trim(k);
        case DropBefore(n) => s.DropBefore(n);
        case Rollback(b) => s.Rollback(b);
        case SetVar(k, v) => s.SetState(k, v);
        case DeleteVar(k) => s.DeleteState(k);
        case Charge(u) => s.AddUsage(u);
        case CommitOther(t, summary) =>
          if s.rev == t.rev0 && t.k <= |s.history| {
            s.history := SummaryTurn(summary) + s.history[t.k..];
            s.parent := t.archive.id;
            s.rev := Bump(s.rev);
          }
      }
    }
    assert ops[..|ops|] == ops;
  }

  datatype Compacted = Compacted(s: SessionState, r: CompactResult, err: Option<CompactError>)

  /** Both sections, with a run of other operations between them. */
  function CompactWith(s: SessionState, keepLast: int, hooks: Hooks, archiveID: string, ops: seq<Op>): Compacted {
    match Begin(s, keepLast, hooks.summarise.Some?, archiveID)
    case Outside => Compacted(s, NO_RESULT, Some(OutsideTranscript))
    case Nothing => Compacted(s, NO_RESULT, None)
    case Started(t) =>
      var s1 := ApplyOps(s, ops);
      if hooks.summarise == Some(None) then Compacted(s1, NO_RESULT, Some(SummaryFailed))
      else if !hooks.archived then Compacted(s1, NO_RESULT, Some(ArchiveFailed))
      else
        var sum := if hooks.summarise.None? then Summary("", NO_USAGE) else hooks.summarise.value.value;
        match Commit(s1, t, if hooks.summarise.None? then None else Some(sum.text))
        case Changed => Compacted(s1, NO_RESULT, Some(SessionChanged))
        case OutOfBounds => Compacted(s1, NO_RESULT, Some(OutsideTranscript))
        case Done(done) => Compacted(done, CompactResult(Some(t.archive), sum.usage, t.k), None)
  }

  /** A compaction that fails, or finds nothing to do, changes nothing itself, and fails for one of these reasons only. */
  lemma {:induction false} FailedCompactionChangesNothing(s: SessionState, keepLast: int, hooks: Hooks, id: string, ops: seq<Op>)
    requires s.rev < REV_WRAP && |ops| < REV_WRAP
    ensures var out, b := CompactWith(s, keepLast, hooks, id, ops), Begin(s, keepLast, hooks.summarise.Some?, id);
      && (out.err.Some? ==> out.s == (if b.Outside? then s else ApplyOps(s, ops)) && out.r == NO_RESULT)
      && (out.err == None && out.r.archive.None? ==> b.Nothing? && out.s == s)
      && (out.err == None && out.r.archive.Some? <==>
          b.Started? && hooks.summarise != Some(None) && hooks.archived && CountRewrites(s, ops) == 0)
      && (out.err == Some(OutsideTranscript) <==> keepLast < 0 || (keepLast == 0 && s.history != []))
      && (out.err == None && out.r.archive.Some? ==>
          && out.r.archive.value == SessionState(id, s.parent, 0, s.history, s.vars, s.usage)
          && 0 < out.r.dropped < |s.history|
          && |out.s.history| == (if hooks.summarise.Some? then 1 else 0) + |s.history| - out.r.dropped + |Added(ops)|
          && out.r.usage == if hooks.summarise.Some? then hooks.summarise.value.value.usage else NO_USAGE)
  {
    hide UserBoundary, CountRewrites, ApplyOps, Commit, Added;
    BoundaryNeedsSomethingKept(s.history, keepLast);
    if Begin(s, keepLast, hooks.summarise.Some?, id).Started? && hooks.summarise != Some(None) {
      CompactionLosesNothing(s, keepLast, hooks.summarise.Some?, id, ops,
        if hooks.summarise.None? then None else Some(hooks.summarise.value.value.text));
    }
  }

  method Compact(s: Session, keepLast: int, hooks: Hooks, archiveID: string, ops: seq<Op>)
    returns (r: CompactResult, err: Option<CompactError>)
    modifies s
    ensures s.running == old(s.running)
    ensures Compacted(s.State(), r, err) == CompactWith(old(s.State()), keepLast, hooks, archiveID, ops)
  {
    hide UserBoundary, ApplyOps;
    r, err := NO_RESULT, None;
    var k := 0;
    match CompactSplit(s.history, keepLast, hooks.summarise.Some?) {
      case OutOfRange => return r, Some(OutsideTranscript);
      case NoCut =>
      case At(cut) => k := cut;
    }
    SplitInside(s.history, keepLast, hooks.summarise.Some?);
    if k == 0 { return; }
    var rev0 := s.rev;
    var archive := SessionState(archiveID, s.parent, 0, s.history, s.vars, s.usage);

    OtherSteps(s, ops);

    var sum := Summary("", NO_USAGE);
    if hooks.summarise.Some? {
      match hooks.summarise.value {
        case None => return r, Some(SummaryFailed);
        case Some(made) => sum := made;
      }
    }
    if !hooks.archived { return r, Some(ArchiveFailed); }

    if s.rev != rev0 { return r, Some(SessionChanged); }
    if k > |s.history| { return r, Some(OutsideTranscript); }
    var kept: seq<Message> := [];
    if hooks.summarise.Some? { kept := [UserText(SUMMARY_PREFIX + sum.text)]; }
    s.history := kept + s.history[k..];
    s.parent := archive.id;
    s.rev := Bump(s.rev);
    r := CompactResult(Some(archive), sum.usage, k);
  }
}
