// Two bounded tables that forget the oldest idle entry first: an orchestrator's conversations
// (delegation.go) and an agent's open sessions (acp/agent.go). Whether an entry is busy is looked up
// once, when its turn to go comes; busy is the set of those found so.
module Tables {
  predicate Distinct(s: seq<string>) { forall i, j :: 0 <= i < j < |s| ==> s[i] != s[j] }

  /** The order list names each entry of the map once. */
  ghost predicate Matches(order: seq<string>, keys: set<string>) { Distinct(order) && forall id :: id in order <==> id in keys }

  function BusyOf(s: seq<string>, busy: set<string>): (r: seq<string>)
    ensures |r| <= |s| && forall id :: id in r <==> id in s && id in busy
  {
    if s == [] then []
    else
      assert s == s[..|s| - 1] + [s[|s| - 1]];
      BusyOf(s[..|s| - 1], busy) + if s[|s| - 1] in busy then [s[|s| - 1]] else []
  }

  /** The order after n entries were looked at: the idle ones gone, the busy ones moved behind the rest. */
  function Swept(order: seq<string>, n: nat, busy: set<string>): seq<string>
    requires n <= |order|
  {
    order[n..] + BusyOf(order[..n], busy)
  }

  /** How many are looked at, from the k-th on: until enough are gone, or all have been. */
  function Looks(order: seq<string>, k: nat, limit: nat, busy: set<string>): (n: nat)
    requires k <= |order|
    ensures k <= n <= |order|
    decreases |order| - k
  {
    if k == |order| || |Swept(order, k, busy)| <= limit then k else Looks(order, k + 1, limit, busy)
  }

  function Evicted(order: seq<string>, limit: nat, busy: set<string>): seq<string> {
    Swept(order, Looks(order, 0, limit, busy), busy)
  }

  lemma SweepOne(order: seq<string>, k: nat, busy: set<string>)
    requires k < |order|
    ensures |Swept(order, k, busy)| > 0 && Swept(order, k, busy)[0] == order[k]
    ensures Swept(order, k + 1, busy) == Swept(order, k, busy)[1..] + if order[k] in busy then [order[k]] else []
  {
    assert order[..k + 1][..k] == order[..k];
  }

  lemma BusyOfIsDistinct(s: seq<string>, busy: set<string>)
    requires Distinct(s)
    ensures Distinct(BusyOf(s, busy))
  {
    if s != [] {
      var r := BusyOf(s[..|s| - 1], busy);
      BusyOfIsDistinct(s[..|s| - 1], busy);
      forall i | 0 <= i < |r| ensures r[i] != s[|s| - 1] { assert r[i] in s[..|s| - 1]; }
    }
  }

  lemma SweptIsDistinct(order: seq<string>, n: nat, busy: set<string>)
    requires Distinct(order) && n <= |order|
    ensures Distinct(Swept(order, n, busy))
  {
    BusyOfIsDistinct(order[..n], busy);
    var r := BusyOf(order[..n], busy);
    forall i | 0 <= i < |r| ensures r[i] in order[..n] {
    }
  }

  /** Looking stops as soon as the limit is met, and not before, short of the end. */
  lemma LooksStops(order: seq<string>, k: nat, limit: nat, busy: set<string>)
    requires k <= |order|
    ensures var n := Looks(order, k, limit, busy);
      && (|Swept(order, n, busy)| <= limit || n == |order|)
      && (forall j :: k <= j < n ==> |Swept(order, j, busy)| > limit)
    decreases |order| - k
  {
    hide Swept;
    if k < |order| && |Swept(order, k, busy)| > limit { LooksStops(order, k + 1, limit, busy); }
  }

  predicate Before(order: seq<string>, x: string, y: string) { exists i, j :: 0 <= i < j < |order| && order[i] == x && order[j] == y }

  /** An entry looked at goes just if it is idle; one not looked at stays. */
  lemma SweptHas(order: seq<string>, n: nat, busy: set<string>, x: string)
    requires Distinct(order) && n <= |order|
    ensures x in Swept(order, n, busy) <==> x in order && (x in busy || x !in order[..n])
  {
    assert order == order[..n] + order[n..];
    if x in order[n..] {
      var j :| n <= j < |order| && order[j] == x;
    }
  }

  lemma LookedAtBefore(order: seq<string>, n: nat, x: string, y: string)
    requires Distinct(order) && n <= |order| && x in order[..n] && y in order && y !in order[..n]
    ensures Before(order, x, y)
  {
    var i :| 0 <= i < n && order[..n][i] == x;
    var j :| 0 <= j < |order| && order[j] == y;
    assert forall k :: 0 <= k < n ==> order[k] in order[..n];
    assert order[i] == x;
  }

  lemma SweptAll(order: seq<string>, busy: set<string>)
    ensures Swept(order, |order|, busy) == BusyOf(order, busy) && Swept(order, 0, busy) == order
  {
    assert order[..|order|] == order && order[|order|..] == [];
  }

  /** Main result. Eviction drops idle entries only, the oldest first, and only while there are too many; it
      ends within the limit, or with every entry busy. */
  lemma {:induction false} EvictionIsFair(order: seq<string>, limit: nat, busy: set<string>, x: string, y: string)
    requires Distinct(order)
    ensures var after := Evicted(order, limit, busy);
      && Distinct(after)
      && (x in after ==> x in order)
      && (x in order && x in busy ==> x in after)
      && (x in order && x !in after && y in after && y !in busy ==> Before(order, x, y))
      && (if |order| <= limit then after == order
          else |after| >= limit && (|after| == limit || forall id :: id in after ==> id in busy))
  {
    hide Swept, Before, Distinct;
    var n := Looks(order, 0, limit, busy);
    LooksStops(order, 0, limit, busy);
    SweptIsDistinct(order, n, busy);
    SweptHas(order, n, busy, x);
    SweptHas(order, n, busy, y);
    SweptAll(order, busy);
    if n > 0 { SweepOne(order, n - 1, busy); }
    if x in order[..n] && y in order && y !in order[..n] { LookedAtBefore(order, n, x, y); }
  }

  function Without(order: seq<string>, id: string): (r: seq<string>)
    ensures forall x :: x in r <==> x in order && x != id
  {
    if order == [] then []
    else
      assert order == order[..|order| - 1] + [order[|order| - 1]];
      Without(order[..|order| - 1], id) + if order[|order| - 1] == id then [] else [order[|order| - 1]]
  }

  lemma WithoutIsDistinct(order: seq<string>, id: string)
    requires Distinct(order)
    ensures Distinct(Without(order, id))
  {
    if order != [] {
      var front := order[..|order| - 1];
      WithoutIsDistinct(front, id);
      var r := Without(front, id);
      forall i | 0 <= i < |r| ensures r[i] != order[|order| - 1] { assert r[i] in front; }
    }
  }

  lemma WithoutAbsent(order: seq<string>, id: string)
    requires id !in order
    ensures Without(order, id) == order
  {
    if order != [] {
      assert order == order[..|order| - 1] + [order[|order| - 1]];
      WithoutAbsent(order[..|order| - 1], id);
    }
  }

  /** Taking one occurrence out of a list without repeats. */
  lemma {:induction false} WithoutAt(order: seq<string>, i: nat)
    requires Distinct(order) && i < |order|
    ensures Without(order, order[i]) == order[..i] + order[i + 1..]
  {
    var n := |order| - 1;
    if i < n {
      WithoutAt(order[..n], i);
      hide Distinct;
      assert order[..n][..i] == order[..i] && order[..n][i + 1..] == order[i + 1..n];
      assert order[i + 1..] == order[i + 1..n] + [order[n]];
    } else {
      assert order[n + 1..] == [];
      WithoutAbsent(order[..n], order[n]);
    }
  }

  /** The entries left when the first n were looked at. */
  function Spared(m: map<string, nat>, order: seq<string>, n: nat, busy: set<string>): map<string, nat>
    requires n <= |order|
  {
    map x | x in m && (x in busy || x !in order[..n]) :: m[x]
  }

  lemma SparedNone(m: map<string, nat>, order: seq<string>, busy: set<string>)
    ensures Spared(m, order, 0, busy) == m
  {
  }

  lemma SparedMore(m: map<string, nat>, order: seq<string>, n: nat, busy: set<string>)
    requires n < |order| && Matches(order, m.Keys)
    ensures order[n] in Spared(m, order, n, busy)
    ensures Spared(m, order, n + 1, busy) ==
      if order[n] in busy then Spared(m, order, n, busy) else Spared(m, order, n, busy) - {order[n]}
  {
    assert order[..n + 1] == order[..n] + [order[n]];
    assert order[n] in order;
  }

  lemma SparedAre(m: map<string, nat>, order: seq<string>, n: nat, busy: set<string>)
    requires n <= |order| && Matches(order, m.Keys)
    ensures Matches(Swept(order, n, busy), Spared(m, order, n, busy).Keys)
    ensures Spared(m, order, n, busy) == map x | x in m && x in Swept(order, n, busy) :: m[x]
  {
    hide Swept;
    SweptMatches(order, n, busy, m.Keys);
  }

  // ----- conversations

  const DEFAULT_MAX_CONVERSATIONS: nat := 128

  class Orchestrator {
    var convs: map<string, nat>
    var order: seq<string>
    var maxConversations: int
    var made: nat

    constructor (max: int)
      ensures Valid() && convs == map[] && maxConversations == max
    {
      convs, order, maxConversations, made := map[], [], max, 0;
    }

    ghost predicate Valid()
      reads this
    {
      Matches(order, convs.Keys)
    }

    function Limit(): nat
      reads this
    {
      if maxConversations > 0 then maxConversations else DEFAULT_MAX_CONVERSATIONS
    }

    /** The conversation of that id, now the youngest; a new one may push out others, or, when all the
        others are busy and fill the table, be left out itself. */
    method ConversationFor(id: string, busy: set<string>) returns (c: nat)
      requires Valid() && (id in convs || id !in busy)
      modifies this
      ensures Valid()
      ensures id in old(convs) ==> c == old(convs)[id] && convs == old(convs) && order == Without(old(order), id) + [id]
      ensures id !in old(convs) ==>
        && c == old(made) && order == Evicted(old(order) + [id], Limit(), busy)
        && convs == (map x | x in old(convs)[id := c] && x in order :: old(convs)[id := c][x])
      ensures maxConversations == old(maxConversations)
    {
      hide Evicted, Without, Distinct;
      if id in convs {
        TouchKeeps(order, convs.Keys, id);
        Touch(id);
        return convs[id];
      }
      c := made;
      made := made + 1;
      AddKeeps(order, convs.Keys, id);
      convs := convs[id := c];
      order := order + [id];
      Evict(busy);
    }

    method Touch(id: string)
      requires Valid()
      modifies this`order
      ensures order == Without(old(order), id) + [id]
    {
      for i := 0 to |order|
        invariant order == old(order) && id !in order[..i]
      {
        if order[i] == id {
          WithoutAt(order, i);
          order := order[..i] + order[i + 1..] + [id];
          return;
        }
      }
      assert order[..|order|] == order;
      WithoutAbsent(order, id);
      order := order + [id];
    }

    method Evict(busy: set<string>)
      requires Valid()
      modifies this`order, this`convs
      ensures Valid() && order == Evicted(old(order), Limit(), busy)
      ensures convs == (map x | x in old(convs) && x in order :: old(convs)[x])
    {
      hide BusyOf, Swept, Spared;
      SparedNone(convs, order, busy);
      var limit := Limit();
      ghost var start, all, n := order, convs, 0;
      SweptNone(start, busy);
      var attempts := |order|;
      while attempts > 0 && |order| > limit
        invariant attempts == |start| - n && n <= |start|
        invariant order == Swept(start, n, busy)
        invariant Looks(start, 0, limit, busy) == Looks(start, n, limit, busy)
        invariant convs == Spared(all, start, n, busy)
        invariant maxConversations == old(maxConversations)
        decreases attempts
      {
        SweepOne(start, n, busy);
        SparedMore(all, start, n, busy);
        var oldest := order[0];
        order := order[1..];
        if oldest in convs && oldest in busy {
          order := order + [oldest];
        } else {
          convs := convs - {oldest};
        }
        attempts := attempts - 1;
        n := n + 1;
      }
      SparedAre(all, start, n, busy);
    }

    method Forget(id: string)
      requires Valid()
      modifies this`order, this`convs
      ensures Valid() && convs == old(convs) - {id} && order == Without(old(order), id)
    {
      convs := convs - {id};
      WithoutIsDistinct(order, id);
      for i := 0 to |order|
        invariant order == old(order) && convs == old(convs) - {id} && id !in order[..i]
      {
        if order[i] == id {
          WithoutAt(order, i);
          order := order[..i] + order[i + 1..];
          return;
        }
      }
      assert order[..|order|] == order;
      WithoutAbsent(order, id);
    }
  }

  lemma TouchKeeps(order: seq<string>, keys: set<string>, id: string)
    requires Matches(order, keys) && id in keys
    ensures Matches(Without(order, id) + [id], keys)
  {
    WithoutIsDistinct(order, id);
    var w := Without(order, id);
    forall i | 0 <= i < |w| ensures w[i] != id { assert w[i] in w; }
  }

  lemma AddKeeps(order: seq<string>, keys: set<string>, id: string)
    requires Matches(order, keys) && id !in keys
    ensures Matches(order + [id], keys + {id})
  {
    forall i | 0 <= i < |order| ensures order[i] != id { assert order[i] in order; }
  }

  lemma SweptNone(order: seq<string>, busy: set<string>)
    ensures Swept(order, 0, busy) == order
  {
  }

  lemma SweptMatches(order: seq<string>, n: nat, busy: set<string>, keys: set<string>)
    requires Matches(order, keys) && n <= |order|
    ensures Matches(Swept(order, n, busy), set x | x in keys && (x in busy || x !in order[..n]))
    ensures forall x :: x in keys ==> (x in Swept(order, n, busy) <==> x in busy || x !in order[..n])
  {
    SweptIsDistinct(order, n, busy);
    assert order == order[..n] + order[n..];
    forall x | x in order[n..] ensures x !in order[..n] {
    }
  }

  lemma BusyCount(order: seq<string>, busy: set<string>, id: string)
    ensures id !in busy ==> BusyOf(order + [id], busy) == BusyOf(order, busy)
  {
    assert (order + [id])[..|order|] == order;
  }

  /** A new conversation does not get a place exactly if busy ones alone fill the table. */
  lemma {:induction false} NewOneIsLeftOutJustWhenBusyOnesFillTheTable(order: seq<string>, id: string, limit: nat, busy: set<string>)
    requires Distinct(order + [id]) && id !in busy
    ensures id !in Evicted(order + [id], limit, busy) <==> |BusyOf(order, busy)| >= limit
  {
    hide Swept, Distinct;
    var all := order + [id];
    var n, m := Looks(all, 0, limit, busy), |order|;
    LooksStops(all, 0, limit, busy);
    BusyCount(order, busy, id);
    SweptHas(all, n, busy, id);
    LastButOne(order, id, busy);
    if n <= m {
      assert all[..n] == order[..n];
      LastIsNew(order, id);
      SweptShrinks(all, n, m, busy);
    } else {
      assert all[..n] == all && id in all;
    }
  }

  lemma LastButOne(order: seq<string>, id: string, busy: set<string>)
    requires id !in busy
    ensures |Swept(order + [id], |order|, busy)| == |BusyOf(order, busy)| + 1
  {
    assert (order + [id])[..|order|] == order;
  }

  lemma LastIsNew(order: seq<string>, id: string)
    requires Distinct(order + [id])
    ensures id !in order
  {
    forall i | 0 <= i < |order| ensures order[i] != id { assert (order + [id])[i] == order[i] && (order + [id])[|order|] == id; }
  }

  lemma SweptShrinks(order: seq<string>, n: nat, m: nat, busy: set<string>)
    requires n <= m <= |order|
    ensures |Swept(order, m, busy)| <= |Swept(order, n, busy)|
    decreases m - n
  {
    hide Swept;
    if n < m {
      SweptShrinks(order, n, m - 1, busy);
      SweepOne(order, m - 1, busy);
    }
  }

  // ----- sessions

  const DEFAULT_MAX_SESSIONS: nat := 64

  class Sessions {
    var sessions: map<string, nat>
    var order: seq<string>
    const maxSessions: int

    constructor (max: int)
      ensures Valid() && sessions == map[] && maxSessions == max
    {
      maxSessions, sessions, order := max, map[], [];
    }

    function Limit(): nat
      reads this
    {
      if maxSessions <= 0 then DEFAULT_MAX_SESSIONS else maxSessions
    }

    ghost predicate Valid()
      reads this
    {
      Matches(order, sessions.Keys) && |order| <= Limit()
    }

    /** The session remembered is not running yet, so the loop that looks for an idle one comes to an end:
        the next idle one moves closer to the front each time. */
    method Remember(id: string, s: nat, busy: set<string>)
      requires Valid() && id !in busy
      modifies this
      ensures Valid()
      ensures var all := if id in old(sessions) then old(order) else old(order) + [id];
        && order == Evicted(all, Limit(), busy)
        && sessions == (map x | x in old(sessions)[id := s] && x in order :: old(sessions)[id := s][x])
    {
      hide BusyOf, Swept, Distinct, Spared;
      if id !in sessions {
        AddKeeps(order, sessions.Keys, id);
        order := order + [id];
      }
      sessions := sessions[id := s];
      var limit := Limit();
      ghost var start, all, n := order, sessions, 0;
      SparedNone(all, start, busy);
      SweptNone(start, busy);
      while |order| > limit
        invariant n <= |start| && order == Swept(start, n, busy)
        invariant Looks(start, 0, limit, busy) == Looks(start, n, limit, busy)
        invariant sessions == Spared(all, start, n, busy)
        invariant |order| > limit ==> id !in start[..n] && |order| == limit + 1
        decreases |start| - n
      {
        IdleAhead(start, n, id);
        SweepOne(start, n, busy);
        SparedMore(all, start, n, busy);
        var oldest := order[0];
        order := order[1..];
        if oldest in sessions && oldest in busy {
          order := order + [oldest];
          n := n + 1;
          continue;
        }
        sessions := sessions - {oldest};
        n := n + 1;
      }
      SparedAre(all, start, n, busy);
    }
  }

  // ----- the loop with any limit, not just one the table was within

  /** One turn of the loop: the oldest goes, or to the back if busy. */
  function Turned(order: seq<string>, busy: set<string>): seq<string> {
    if order == [] then [] else order[1..] + if order[0] in busy then [order[0]] else []
  }

  function TurnedTimes(order: seq<string>, n: nat, busy: set<string>): seq<string> {
    if n == 0 then order else Turned(TurnedTimes(order, n - 1, busy), busy)
  }

  /** After n turns there is room. */
  predicate Within(order: seq<string>, limit: nat, busy: set<string>, n: nat) { |TurnedTimes(order, n, busy)| <= limit }

  lemma BusyOfConcat(s: seq<string>, t: seq<string>, busy: set<string>)
    ensures BusyOf(s + t, busy) == BusyOf(s, busy) + BusyOf(t, busy)
    decreases |t|
  {
    if t == [] {
      assert s + t == s;
    } else {
      assert (s + t)[..|s + t| - 1] == s + t[..|t| - 1];
      BusyOfConcat(s, t[..|t| - 1], busy);
    }
  }

  lemma TurningKeepsTheBusy(order: seq<string>, busy: set<string>)
    ensures |BusyOf(Turned(order, busy), busy)| == |BusyOf(order, busy)|
  {
    if order != [] {
      hide BusyOf;
      assert order == order[..1] + order[1..];
      BusyOfConcat(order[..1], order[1..], busy);
      var back := if order[0] in busy then [order[0]] else [];
      BusyOfConcat(order[1..], back, busy);
      OneBusy(order[0], busy);
      assert order[..1] == [order[0]];
    }
  }

  lemma OneBusy(id: string, busy: set<string>)
    ensures BusyOf([id], busy) == (if id in busy then [id] else []) && BusyOf([], busy) == []
  {
    assert [id][..0] == [];
  }

  lemma BusyStay(order: seq<string>, n: nat, busy: set<string>)
    ensures |TurnedTimes(order, n, busy)| >= |BusyOf(order, busy)| == |BusyOf(TurnedTimes(order, n, busy), busy)|
  {
    hide Turned;
    if n > 0 {
      BusyStay(order, n - 1, busy);
      TurningKeepsTheBusy(TurnedTimes(order, n - 1, busy), busy);
    }
  }

  lemma OnceAroundIsASweep(order: seq<string>, n: nat, busy: set<string>)
    requires n <= |order|
    ensures TurnedTimes(order, n, busy) == Swept(order, n, busy)
  {
    hide Swept, BusyOf;
    if n == 0 {
      SweptNone(order, busy);
    } else {
      OnceAroundIsASweep(order, n - 1, busy);
      SweepOne(order, n - 1, busy);
    }
  }

  /** From any table, and with those entries busy that are, the loop of Remember comes within its limit
      exactly if the busy entries alone do. */
  lemma {:induction false} LoopEndsJustWhenTheBusyFit(order: seq<string>, limit: nat, busy: set<string>)
    ensures (exists n :: Within(order, limit, busy, n)) <==> |BusyOf(order, busy)| <= limit
  {
    hide BusyOf, TurnedTimes;
    OnceAroundIsASweep(order, |order|, busy);
    SweptAll(order, busy);
    assert |BusyOf(order, busy)| <= limit ==> Within(order, limit, busy, |order|);
    if n :| Within(order, limit, busy, n) { BusyStay(order, n, busy); }
  }

  lemma IdleAhead(order: seq<string>, n: nat, id: string)
    ensures id in order && n <= |order| && id !in order[..n] ==> n < |order|
  {
    if n <= |order| { assert order == order[..n] + order[n..]; }
  }
}
