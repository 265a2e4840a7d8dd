// A conversation and the operations that rewrite it (session.go).
module Sessions {
  import opened Text
  import opened Messages

  // ----- token accounting

  datatype Usage = Usage(
    input: int, output: int, thinking: int, cacheRead: int, cacheWrite: int,
    cacheWrite5m: int, cacheWrite1h: int, lost: int)
  {
    function Total(): int { input + output + thinking }

    function Plus(o: Usage): Usage {
      Usage(input + o.input, output + o.output, thinking + o.thinking, cacheRead + o.cacheRead,
            cacheWrite + o.cacheWrite, cacheWrite5m + o.cacheWrite5m, cacheWrite1h + o.cacheWrite1h, lost + o.lost)
    }
  }

  const NO_USAGE := Usage(0, 0, 0, 0, 0, 0, 0, 0)

  function Sum(us: seq<Usage>): Usage {
    if us == [] then NO_USAGE else Sum(us[..|us| - 1]).Plus(us[|us| - 1])
  }

  /** What a projection of the usages adds up to. */
  function AddedUp(us: seq<Usage>, part: Usage -> int): int {
    if us == [] then 0 else AddedUp(us[..|us| - 1], part) + part(us[|us| - 1])
  }

  /** A sum of usages is the sum of each of its parts, and its total that of their totals. */
  lemma {:induction false} SumIsOfEachPart(us: seq<Usage>)
    ensures var s := Sum(us);
      && s.input == AddedUp(us, (u: Usage) => u.input) && s.output == AddedUp(us, (u: Usage) => u.output) && s.thinking == AddedUp(us, (u: Usage) => u.thinking)
      && s.cacheRead == AddedUp(us, (u: Usage) => u.cacheRead) && s.cacheWrite == AddedUp(us, (u: Usage) => u.cacheWrite)
      && s.cacheWrite5m == AddedUp(us, (u: Usage) => u.cacheWrite5m) && s.cacheWrite1h == AddedUp(us, (u: Usage) => u.cacheWrite1h)
      && s.lost == AddedUp(us, (u: Usage) => u.lost) && s.Total() == AddedUp(us, (u: Usage) => u.input + u.output + u.thinking)
  {
    if us != [] { SumIsOfEachPart(us[..|us| - 1]); }
  }

  // ----- where a transcript may be cut

  function BackToUser(h: seq<Message>, start: nat): (k: nat)
    requires start < |h| || start == 0
    ensures k <= start
    ensures k > 0 ==> h[k].role == User
    ensures forall j :: k < j <= start ==> h[j].role != User
  {
    if start == 0 || h[start].role == User then start else BackToUser(h, start - 1)
  }

  function OnToUser(h: seq<Message>, start: nat): (k: nat)
    requires start <= |h|
    ensures start <= k <= |h|
    ensures k < |h| ==> h[k].role == User
    ensures forall j :: start <= j < k ==> h[j].role != User
    decreases |h| - start
  {
    if start == |h| || h[start].role == User then start else OnToUser(h, start + 1)
  }

  /** A cut; or none; or an index outside the transcript. */
  datatype Cut = OutOfRange | NoCut | At(k: nat)

  function UserBoundary(h: seq<Message>, keepLast: int): Cut {
    var start := if |h| > keepLast then |h| - keepLast else 0;
    if start > 0 && start >= |h| then OutOfRange
    else
      var k := OnToUser(h, BackToUser(h, start));
      if k == 0 || k >= |h| then NoCut else At(k)
  }

  /** A cut starts a user turn and drops something: the last such turn that leaves at least keepLast
      messages, or the first user turn there is. */
  lemma BoundaryStartsATurn(h: seq<Message>, keepLast: int)
    requires keepLast >= 1
    ensures !UserBoundary(h, keepLast).OutOfRange?
    ensures UserBoundary(h, keepLast).At? ==>
      var k := UserBoundary(h, keepLast).k;
      && 0 < k < |h| && h[k].role == User
      && ((|h| - k >= keepLast && forall j :: k < j <= |h| - keepLast ==> h[j].role != User)
          || (forall j :: 0 <= j < k ==> h[j].role != User))
    ensures UserBoundary(h, keepLast).NoCut? <==>
      && (forall j :: 0 < j <= |h| - keepLast ==> h[j].role != User)
      && (h == [] || h[0].role == User || forall j :: 0 <= j < |h| ==> h[j].role != User)
  {
  }

  /** Keeping none of a transcript, or fewer than none, takes the search outside it. */
  lemma BoundaryNeedsSomethingKept(h: seq<Message>, keepLast: int)
    ensures UserBoundary(h, keepLast).OutOfRange? <==> keepLast < 0 || (keepLast == 0 && h != [])
  {
  }

  method FindUserBoundary(h: seq<Message>, keepLast: int) returns (k: int)
    requires keepLast >= 1 || (keepLast == 0 && h == [])
    ensures k == match UserBoundary(h, keepLast) case At(c) => c case _ => -1
  {
    var start := 0;
    if |h| > keepLast { start := |h| - keepLast; }
    ghost var first := start;
    if h == [] { return -1; }
    while start > 0 && h[start].role != User
      invariant 0 <= start <= first < |h| && BackToUser(h, first) == BackToUser(h, start)
    {
      start := start - 1;
    }
    while start < |h| && h[start].role != User
      invariant 0 <= start <= |h| && OnToUser(h, BackToUser(h, first)) == OnToUser(h, start)
    {
      start := start + 1;
    }
    if start == 0 || start >= |h| { return -1; }
    return start;
  }

  // ----- the session and its operations

  const REV_WRAP: nat := 0x1_0000_0000_0000_0000

  /** The revision counter is an unsigned 64-bit number. */
  function Bump(rev: nat): nat { (rev + 1) % REV_WRAP }

  datatype SessionState = SessionState(
    id: string, parent: string, rev: nat, history: seq<Message>, vars: map<string, string>, usage: Usage)

  function Appended(s: SessionState, msgs: seq<Message>): SessionState { s.(history := s.history + msgs) }

  function Rewritten(s: SessionState, h: seq<Message>): SessionState { s.(history := h, rev := Bump(s.rev)) }

  function Trimmed(s: SessionState, keepLast: int): SessionState {
    if keepLast <= 0 then Rewritten(s, [])
    else
      match UserBoundary(s.history, keepLast)
      case At(k) => Rewritten(s, s.history[k..])
      case _ => s
  }

  function DroppedBefore(s: SessionState, n: int): SessionState {
    if n <= 0 then s else if n >= |s.history| then Rewritten(s, []) else Rewritten(s, s.history[n..])
  }

  function RolledBack(s: SessionState, base: int): SessionState {
    if base < 0 || |s.history| != base + 1 then s else Rewritten(s, s.history[..base])
  }

  function VarSet(s: SessionState, key: string, v: string): SessionState {
    s.(vars := s.vars[key := v], rev := Bump(s.rev))
  }

  function VarDeleted(s: SessionState, key: string): SessionState {
    if key in s.vars then s.(vars := s.vars - {key}, rev := Bump(s.rev)) else s
  }

  function Charged(s: SessionState, u: Usage): SessionState { s.(usage := s.usage.Plus(u)) }

  class Session {
    var id: string
    var parent: string
    var rev: nat
    var history: seq<Message>
    var vars: map<string, string>
    var usage: Usage
    var running: bool

    constructor (id: string)
      ensures State() == SessionState(id, "", 0, [], map[], NO_USAGE) && !running
    {
      this.id, parent, rev, history, vars, usage, running := id, "", 0, [], map[], NO_USAGE, false;
    }

    function State(): SessionState
      reads this
    {
      SessionState(id, parent, rev, history, vars, usage)
    }

    method Append(msgs: seq<Message>)
      modifies this`history
      ensures State() == Appended(old(State()), msgs)
      ensures history == old(history) + msgs && rev == old(rev)
    {
      for i := 0 to |msgs|
        invariant history == old(history) + msgs[..i]
      {
        history := history + [msgs[i]];
      }
    }

    method Trim(keepLast: int)
      modifies this`history, this`rev
      ensures State() == Trimmed(old(State()), keepLast)
      ensures keepLast <= 0 ==> history == []
      ensures keepLast >= 1 ==> history == match UserBoundary(old(history), keepLast) case At(k) => old(history)[k..] case _ => old(history)
    {
      if keepLast <= 0 {
        history, rev := [], Bump(rev);
        return;
      }
      BoundaryStartsATurn(history, keepLast);
      var start := FindUserBoundary(history, keepLast);
      if start < 0 { return; }
      history := history[start..];
      rev := Bump(rev);
    }

    method DropBefore(n: int)
      modifies this`history, this`rev
      ensures State() == DroppedBefore(old(State()), n)
      ensures history == old(history)[if n <= 0 then 0 else if n >= |old(history)| then |old(history)| else n..]
      ensures rev == if n <= 0 then old(rev) else Bump(old(rev))
    {
      if n <= 0 { return; }
      if n >= |history| {
        history, rev := [], Bump(rev);
        return;
      }
      history := history[n..];
      rev := Bump(rev);
    }

    method Rollback(base: int)
      modifies this`history, this`rev
      ensures State() == RolledBack(old(State()), base)
      ensures |old(history)| == base + 1 >= 1 ==> old(history) == history + [old(history)[base]] && rev == Bump(old(rev))
      ensures !(|old(history)| == base + 1 >= 1) ==> history == old(history) && rev == old(rev)
    {
      if base < 0 || |history| != base + 1 { return; }
      history := history[..base];
      rev := Bump(rev);
    }

    method SetState(key: string, v: string)
      modifies this`vars, this`rev
      ensures State() == VarSet(old(State()), key, v)
      ensures vars == old(vars)[key := v] && rev == Bump(old(rev))
    {
      vars := vars[key := v];
      rev := Bump(rev);
    }

    method DeleteState(key: string)
      modifies this`vars, this`rev
      ensures State() == VarDeleted(old(State()), key)
      ensures vars == old(vars) - {key} && rev == if key in old(vars) then Bump(old(rev)) else old(rev)
    {
      if key !in vars { return; }
      vars := vars - {key};
      rev := Bump(rev);
    }

    method AddUsage(u: Usage)
      modifies this`usage
      ensures State() == Charged(old(State()), u)
    {
      usage := usage.Plus(u);
    }

    /** At most one run holds the session. */
    method Acquire() returns (ok: bool)
      modifies this`running
      ensures ok == !old(running) && running
    {
      ok := !running;
      running := true;
    }

    method Release()
      modifies this`running
      ensures !running
    {
      running := false;
    }
  }

  /** Trimming a balanced transcript leaves a balanced one that, if anything is left, leads with a user turn. */
  lemma TrimKeepsBalance(s: SessionState, keepLast: int)
    requires Balanced(s.history)
    ensures var h := Trimmed(s, keepLast).history;
      Balanced(h) && (h == s.history || (exists k :: 0 <= k <= |s.history| && h == s.history[k..] && (h == [] || h[0].role == User)))
  {
    hide Balanced;
    if keepLast <= 0 {
      assert s.history[|s.history|..] == [];
      BalancedSuffix(s.history, |s.history|);
    } else {
      BoundaryStartsATurn(s.history, keepLast);
      var c := UserBoundary(s.history, keepLast);
      if c.At? { BalancedSuffix(s.history, c.k); }
    }
  }
}
