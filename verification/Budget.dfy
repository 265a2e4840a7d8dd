// The token ceiling several run loops share (budget.go): each loop looks before a call and books after it.
module Budgets {
  import opened Sequences
  import opened Sessions

  datatype Ledger = Ledger(limit: int, spent: int, calls: nat, lost: int)

  function Exhausted(l: Ledger): bool { l.limit > 0 && l.spent >= l.limit }

  function Booked(l: Ledger, u: Usage): Ledger {
    Ledger(l.limit, l.spent + u.Total(), l.calls + 1, if u.lost > 0 then l.lost + u.lost else l.lost)
  }

  function BookedAll(l: Ledger, us: seq<Usage>): Ledger {
    if us == [] then l else Booked(BookedAll(l, us[..|us| - 1]), us[|us| - 1])
  }

  class Budget {
    const limit: int
    var spent: int
    var calls: nat
    var lost: int

    constructor (limit: int)
      ensures State() == Ledger(limit, 0, 0, 0)
    {
      this.limit, spent, calls, lost := limit, 0, 0, 0;
    }

    function State(): Ledger
      reads this
    {
      Ledger(limit, spent, calls, lost)
    }

    method Spend(u: Usage)
      modifies this
      ensures State() == Booked(old(State()), u)
      ensures spent == old(spent) + u.Total() && calls == old(calls) + 1 && lost == old(lost) + if u.lost > 0 then u.lost else 0
    {
      spent := spent + u.Total();
      calls := calls + 1;
      if u.lost > 0 { lost := lost + u.lost; }
    }

    /** -1 when unbounded; zero exactly when exhausted; otherwise the tokens still to spend. */
    method Remaining() returns (left: int)
      ensures left == -1 <==> limit <= 0
      ensures left == 0 <==> Exhausted(State())
      ensures left > 0 ==> spent + left == limit
    {
      if limit <= 0 { return -1; }
      left := limit - spent;
      if left <= 0 { left := 0; }
    }

    method IsExhausted() returns (yes: bool)
      ensures yes == Exhausted(State())
    {
      if limit <= 0 { return false; }
      return spent >= limit;
    }
  }

  // ----- n loops on one budget

  /** calling[i]: loop i has seen the budget unspent and has not booked its call yet. */
  datatype Shared = Shared(ledger: Ledger, calling: seq<bool>)

  datatype Step = Check(i: nat) | Book(i: nat, u: Usage)

  /** A loop goes on to its call only if the budget is not exhausted when it looks. */
  predicate Enabled(s: Shared, a: Step, c: nat) {
    && a.i < |s.calling|
    && match a
       case Check(i) => !s.calling[i] && !Exhausted(s.ledger)
       case Book(i, u) => s.calling[i] && u.Total() <= c
  }

  function Apply(s: Shared, a: Step, c: nat): Shared
    requires Enabled(s, a, c)
  {
    match a
    case Check(i) => s.(calling := s.calling[i := true])
    case Book(i, u) => Shared(Booked(s.ledger, u), s.calling[i := false])
  }

  predicate Possible(s: Shared, run: seq<Step>, c: nat)
    decreases |run|
  {
    run == [] || (Enabled(s, run[0], c) && Possible(Apply(s, run[0], c), run[1..], c))
  }

  function After(s: Shared, run: seq<Step>, c: nat): Shared
    requires Possible(s, run, c)
    decreases |run|
  {
    if run == [] then s else After(Apply(s, run[0], c), run[1..], c)
  }

  predicate Bounded(s: Shared, c: nat) { s.ledger.spent + CountTrue(s.calling) * c <= s.ledger.limit - 1 + |s.calling| * c }

  lemma StepBounded(s: Shared, a: Step, c: nat)
    requires s.ledger.limit > 0 && Enabled(s, a, c) && Bounded(s, c)
    ensures Bounded(Apply(s, a, c), c)
  {
    hide CountTrue;
    var k, n, s' := CountTrue(s.calling), |s.calling|, Apply(s, a, c);
    match a
    case Check(i) =>
      CountUpdate(s.calling, i, true);
      assert n * c == (k + 1) * c + (n - (k + 1)) * c;
    case Book(i, u) =>
      CountUpdate(s.calling, i, false);
      assert k * c == (k - 1) * c + c;
  }

  lemma SpendingIsBounded(s: Shared, run: seq<Step>, c: nat)
    requires s.ledger.limit > 0 && Possible(s, run, c) && Bounded(s, c)
    ensures Bounded(After(s, run, c), c)
    ensures After(s, run, c).ledger.limit == s.ledger.limit && |After(s, run, c).calling| == |s.calling|
    ensures After(s, run, c).ledger.spent <= s.ledger.limit - 1 + |s.calling| * c
    decreases |run|
  {
    hide CountTrue;
    if run != [] {
      StepBounded(s, run[0], c);
      SpendingIsBounded(Apply(s, run[0], c), run[1..], c);
    } else {
      assert CountTrue(s.calling) * c >= 0;
    }
  }

  function Fresh(limit: int, n: nat): Shared { Shared(Ledger(limit, 0, 0, 0), seq(n, _ => false)) }

  lemma NobodyCalls(n: nat)
    ensures CountTrue(seq(n, _ => false)) == 0
  {
    if n > 0 {
      assert seq(n, _ => false)[..n - 1] == seq(n - 1, _ => false);
      NobodyCalls(n - 1);
    }
  }

  /** In every reachable state n loops on a positive limit have spent at most limit - 1 + n * c,
      c being the most one call can cost. */
  lemma NeverOverspent(limit: int, n: nat, c: nat, run: seq<Step>)
    requires limit > 0 && Possible(Fresh(limit, n), run, c)
    ensures After(Fresh(limit, n), run, c).ledger.spent <= limit - 1 + n * c
  {
    NobodyCalls(n);
    assert n * c >= 0;
    SpendingIsBounded(Fresh(limit, n), run, c);
  }

  // ----- the bound is met

  const UNIT := Usage(1, 0, 0, 0, 0, 0, 0, 0)

  lemma Chain(s: Shared, r1: seq<Step>, r2: seq<Step>, c: nat)
    requires Possible(s, r1, c) && Possible(After(s, r1, c), r2, c)
    ensures Possible(s, r1 + r2, c) && After(s, r1 + r2, c) == After(After(s, r1, c), r2, c)
    decreases |r1|
  {
    if r1 == [] {
      assert r1 + r2 == r2;
    } else {
      assert (r1 + r2)[1..] == r1[1..] + r2;
      Chain(Apply(s, r1[0], c), r1[1..], r2, c);
    }
  }

  lemma Single(s: Shared, a: Step, c: nat)
    requires Enabled(s, a, c)
    ensures Possible(s, [a], c) && After(s, [a], c) == Apply(s, a, c)
  {
    assert [a][1..] == [];
  }

  /** One loop alone can bring the total to any m below the limit. */
  lemma OneLoopSpends(limit: int, n: nat, c: nat, m: nat) returns (run: seq<Step>)
    requires c >= 1 && n >= 1 && m < limit
    ensures Possible(Fresh(limit, n), run, c)
    ensures After(Fresh(limit, n), run, c).ledger.spent == m && After(Fresh(limit, n), run, c).ledger.limit == limit
    ensures After(Fresh(limit, n), run, c).calling == seq(n, _ => false)
  {
    run := [];
    if m > 0 {
      var before := OneLoopSpends(limit, n, c, m - 1);
      var s := After(Fresh(limit, n), before, c);
      Single(s, Check(0), c);
      var s1 := Apply(s, Check(0), c);
      Single(s1, Book(0, UNIT), c);
      Chain(Fresh(limit, n), before, [Check(0)], c);
      Chain(Fresh(limit, n), before + [Check(0)], [Book(0, UNIT)], c);
      run := before + [Check(0)] + [Book(0, UNIT)];
      assert s1.calling[0 := false] == s.calling;
    }
  }

  /** From an unexhausted budget the first k loops can all pass the check. */
  lemma AllCheck(s: Shared, k: nat, c: nat) returns (run: seq<Step>)
    requires k <= |s.calling| && !Exhausted(s.ledger) && s.calling == seq(|s.calling|, _ => false)
    ensures Possible(s, run, c) && After(s, run, c) == s.(calling := seq(|s.calling|, i => i < k))
  {
    run := [];
    if k == 0 {
      assert s.calling == seq(|s.calling|, i => i < k);
    } else {
      var before := AllCheck(s, k - 1, c);
      var s1 := After(s, before, c);
      Single(s1, Check(k - 1), c);
      Chain(s, before, [Check(k - 1)], c);
      run := before + [Check(k - 1)];
      assert s1.calling[k - 1 := true] == seq(|s.calling|, i => i < k);
    }
  }

  /** Then the first k of them can each book a call of the largest cost. */
  lemma AllBook(s: Shared, k: nat, c: nat) returns (run: seq<Step>)
    requires k <= |s.calling| && s.calling == seq(|s.calling|, _ => true)
    ensures Possible(s, run, c)
    ensures var s' := After(s, run, c);
      s'.calling == seq(|s.calling|, i => i >= k) && s'.ledger.spent == s.ledger.spent + k * c
  {
    run := [];
    if k == 0 {
      assert s.calling == seq(|s.calling|, i => i >= k);
    } else {
      var u := Usage(c, 0, 0, 0, 0, 0, 0, 0);
      var before := AllBook(s, k - 1, c);
      var s1 := After(s, before, c);
      Single(s1, Book(k - 1, u), c);
      Chain(s, before, [Book(k - 1, u)], c);
      run := before + [Book(k - 1, u)];
      assert s1.calling[k - 1 := false] == seq(|s.calling|, i => i >= k);
      assert (k - 1) * c + c == k * c;
    }
  }

  /** No smaller bound would do: whenever a call can cost anything, some run spends limit - 1 + n * c. */
  lemma BoundIsMet(limit: int, n: nat, c: nat) returns (run: seq<Step>)
    requires limit > 0 && n >= 1 && c >= 1
    ensures Possible(Fresh(limit, n), run, c)
    ensures After(Fresh(limit, n), run, c).ledger.spent == limit - 1 + n * c
  {
    var s0 := Fresh(limit, n);
    var r1 := OneLoopSpends(limit, n, c, limit - 1);
    var s1 := After(s0, r1, c);
    var r2 := AllCheck(s1, n, c);
    var s2 := After(s1, r2, c);
    assert s2.calling == seq(n, _ => true);
    var r3 := AllBook(s2, n, c);
    Chain(s0, r1, r2, c);
    Chain(s0, r1 + r2, r3, c);
    run := r1 + r2 + r3;
  }
}
