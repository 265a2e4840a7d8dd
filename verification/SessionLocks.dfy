// One lock per session name, made when the first caller arrives and dropped with the last
// (openaiapi/sessionlock.go). Lock objects are known by their number.
module SessionLocks {
  import opened Text

  /** full: the gate's one place is taken. */
  datatype Lock = Lock(full: bool, refs: int)

  datatype Table = Table(objs: seq<Lock>, locks: map<string, nat>)

  predicate Sound(t: Table) { forall name :: name in t.locks ==> t.locks[name] < |t.objs| }

  // ----- the critical sections

  /** The caller joins the name's lock, or a new one. */
  function Attached(t: Table, name: string): Table
    requires Sound(t)
  {
    if name in t.locks then
      var l := t.locks[name];
      t.(objs := t.objs[l := t.objs[l].(refs := t.objs[l].refs + 1)])
    else Table(t.objs + [Lock(false, 1)], t.locks[name := |t.objs|])
  }

  function LockOf(t: Table, name: string): nat { if name in t.locks then t.locks[name] else |t.objs| }

  function Detached(t: Table, name: string, l: nat): Table
    requires l < |t.objs|
  {
    var t' := t.(objs := t.objs[l := t.objs[l].(refs := t.objs[l].refs - 1)]);
    if t'.objs[l].refs == 0 then t'.(locks := t'.locks - {name}) else t'
  }

  function Gated(t: Table, l: nat, full: bool): Table
    requires l < |t.objs|
  {
    t.(objs := t.objs[l := t.objs[l].(full := full)])
  }

  class LockTable {
    var objs: seq<Lock>
    var locks: map<string, nat>

    constructor ()
      ensures State() == Table([], map[])
    {
      objs, locks := [], map[];
    }

    function State(): Table
      reads this
    {
      Table(objs, locks)
    }

    method Attach(name: string) returns (l: nat)
      requires Sound(State())
      modifies this
      ensures l == LockOf(old(State()), name) < |objs| && State() == Attached(old(State()), name) && Sound(State())
    {
      if name in locks {
        l := locks[name];
      } else {
        l := |objs|;
        objs := objs + [Lock(false, 0)];
        locks := locks[name := l];
      }
      objs := objs[l := objs[l].(refs := objs[l].refs + 1)];
    }

    /** The gate, if it is free. */
    method TryEnter(l: nat) returns (ok: bool)
      requires l < |objs|
      modifies this`objs
      ensures ok == !old(objs)[l].full
      ensures State() == if ok then Gated(old(State()), l, true) else old(State())
    {
      ok := !objs[l].full;
      if ok { objs := objs[l := objs[l].(full := true)]; }
    }

    method Leave(l: nat)
      requires l < |objs|
      modifies this`objs
      ensures State() == Gated(old(State()), l, false)
    {
      objs := objs[l := objs[l].(full := false)];
    }

    method Release(name: string, l: nat)
      requires l < |objs|
      modifies this
      ensures State() == Detached(old(State()), name, l)
    {
      objs := objs[l := objs[l].(refs := objs[l].refs - 1)];
      if objs[l].refs == 0 { locks := locks - {name}; }
    }
  }

  // ----- the protocol

  /** A caller waits at the gate, holds it, or is on its way out, through the gate or canceled. */
  datatype Phase = Waiting | Holding | Leaving | Gone

  datatype Caller = Caller(name: string, lock: nat, phase: Phase)

  datatype State = State(t: Table, callers: seq<Caller>)

  datatype Action =
    | Arrive(name: string)
    | Enter(c: nat)
    | Cancel(c: nat)
    | OpenGate(c: nat)
    | Release(c: nat)

  /** The empty name takes no lock at all. */
  predicate Enabled(s: State, a: Action) {
    match a
    case Arrive(name) => name != "" && Sound(s.t)
    case Enter(c) => c < |s.callers| && s.callers[c].phase == Waiting && s.callers[c].lock < |s.t.objs| && !s.t.objs[s.callers[c].lock].full
    case Cancel(c) => c < |s.callers| && s.callers[c].phase == Waiting
    case OpenGate(c) => c < |s.callers| && s.callers[c].phase == Holding && s.callers[c].lock < |s.t.objs|
    case Release(c) => c < |s.callers| && s.callers[c].phase == Leaving && s.callers[c].lock < |s.t.objs|
  }

  function To(s: State, c: nat, t: Table, phase: Phase): State
    requires c < |s.callers|
  {
    State(t, s.callers[c := s.callers[c].(phase := phase)])
  }

  function Apply(s: State, a: Action): State
    requires Enabled(s, a)
  {
    match a
    case Arrive(name) => State(Attached(s.t, name), s.callers + [Caller(name, LockOf(s.t, name), Waiting)])
    case Enter(c) => To(s, c, Gated(s.t, s.callers[c].lock, true), Holding)
    case Cancel(c) => To(s, c, s.t, Leaving)
    case OpenGate(c) => To(s, c, Gated(s.t, s.callers[c].lock, false), Leaving)
    case Release(c) => To(s, c, Detached(s.t, s.callers[c].name, s.callers[c].lock), Gone)
  }

  function Run(acts: seq<Action>): Option<State> {
    if acts == [] then Some(State(Table([], map[]), []))
    else
      var s := Run(acts[..|acts| - 1]);
      if s.Some? && Enabled(s.value, acts[|acts| - 1]) then Some(Apply(s.value, acts[|acts| - 1])) else None
  }

  // ----- what holds throughout

  predicate Uses(c: Caller, l: nat) { c.phase != Gone && c.lock == l }

  /** The callers that have joined a lock and not left it. */
  function Users(callers: seq<Caller>, l: nat): set<nat> { set i | 0 <= i < |callers| && Uses(callers[i], l) }

  /** Users of one lock came for one name, and the table has their lock under it. */
  ghost predicate CallerInv(s: State, i: nat)
    requires i < |s.callers|
  {
    var c := s.callers[i];
    c.phase != Gone ==> c.name in s.t.locks && s.t.locks[c.name] == c.lock
  }

  /** A listed lock counts its users, has some, and its gate is taken just if one of them holds it. */
  ghost predicate LockInv(s: State, name: string)
    requires name in s.t.locks && s.t.locks[name] < |s.t.objs|
  {
    var l := s.t.locks[name];
    && s.t.objs[l].refs == |Users(s.callers, l)| && s.t.objs[l].refs > 0
    && (s.t.objs[l].full <==> Held(s.callers, l))
  }

  predicate Held(callers: seq<Caller>, l: nat) { exists i :: 0 <= i < |callers| && callers[i].lock == l && callers[i].phase == Holding }

  predicate OneHolder(callers: seq<Caller>) {
    forall i, j :: 0 <= i < j < |callers| && callers[i].phase == Holding && callers[j].phase == Holding ==> callers[i].lock != callers[j].lock
  }

  predicate Separate(t: Table) { forall n, m :: n in t.locks && m in t.locks && t.locks[n] == t.locks[m] ==> n == m }

  ghost predicate Inv(s: State) {
    && Sound(s.t) && Separate(s.t) && OneHolder(s.callers)
    && (forall i :: 0 <= i < |s.callers| ==> CallerInv(s, i) && s.callers[i].lock < |s.t.objs|)
    && (forall name :: name in s.t.locks ==> LockInv(s, name))
  }

  lemma UsersJoin(callers: seq<Caller>, c: Caller, l: nat)
    ensures |Users(callers + [c], l)| == |Users(callers, l)| + if Uses(c, l) then 1 else 0
  {
    var n := |callers|;
    assert Users(callers + [c], l) == if Uses(c, l) then Users(callers, l) + {n} else Users(callers, l);
  }

  lemma UsersChange(callers: seq<Caller>, i: nat, phase: Phase, l: nat)
    requires i < |callers| && callers[i].phase != Gone
    ensures Users(callers[i := callers[i].(phase := phase)], l) ==
      if phase == Gone && callers[i].lock == l then Users(callers, l) - {i} else Users(callers, l)
    ensures callers[i].lock == l ==> i in Users(callers, l)
  {
  }

  lemma ArriveLock(s: State, name: string, n: string)
    requires Inv(s) && Enabled(s, Arrive(name)) && n in Apply(s, Arrive(name)).t.locks
    ensures LockInv(Apply(s, Arrive(name)), n)
  {
    hide Users, Held, OneHolder;
    var s' := Apply(s, Arrive(name));
    var c, k := s'.callers[|s.callers|], s'.t.locks[n];
    UsersJoin(s.callers, c, k);
    HeldJoin(s.callers, c, k);
    if n in s.t.locks {
      assert LockInv(s, n);
    } else {
      NewIsUnused(s, k);
    }
  }

  lemma HeldJoin(callers: seq<Caller>, c: Caller, l: nat)
    requires c.phase != Holding
    ensures Held(callers + [c], l) <==> Held(callers, l)
  {
    assert forall i :: 0 <= i < |callers| ==> (callers + [c])[i] == callers[i];
  }

  lemma NewIsUnused(s: State, l: nat)
    requires Inv(s) && l >= |s.t.objs|
    ensures Users(s.callers, l) == {} && !Held(s.callers, l)
  {
    hide LockInv, CallerInv;
  }

  lemma ArriveCaller(s: State, name: string, i: nat)
    requires Inv(s) && Enabled(s, Arrive(name)) && i <= |s.callers|
    ensures var s' := Apply(s, Arrive(name)); CallerInv(s', i) && s'.callers[i].lock < |s'.t.objs|
  {
    hide LockInv, OneHolder, Separate;
    if i < |s.callers| { assert CallerInv(s, i); }
  }

  lemma ArriveTable(s: State, name: string)
    requires Inv(s) && Enabled(s, Arrive(name))
    ensures var s' := Apply(s, Arrive(name)); Separate(s'.t) && OneHolder(s'.callers)
  {
    hide LockInv, CallerInv;
    var s' := Apply(s, Arrive(name));
    assert forall i :: 0 <= i < |s.callers| ==> s'.callers[i] == s.callers[i];
  }

  lemma ArriveKeeps(s: State, name: string)
    requires Inv(s) && Enabled(s, Arrive(name))
    ensures Inv(Apply(s, Arrive(name)))
  {
    hide LockInv, CallerInv, OneHolder, Separate;
    var s' := Apply(s, Arrive(name));
    ArriveTable(s, name);
    forall n | n in s'.t.locks ensures s'.t.locks[n] < |s'.t.objs| && LockInv(s', n) { ArriveLock(s, name, n); }
    forall i | 0 <= i < |s'.callers| ensures CallerInv(s', i) && s'.callers[i].lock < |s'.t.objs| { ArriveCaller(s, name, i); }
  }

  lemma HeldChange(callers: seq<Caller>, i: nat, phase: Phase, l: nat)
    requires i < |callers| && OneHolder(callers)
    requires callers[i].phase == Waiting || callers[i].phase == Holding || phase != Holding
    ensures var after := callers[i := callers[i].(phase := phase)];
      && (callers[i].lock != l || (callers[i].phase != Holding && phase != Holding) ==> (Held(after, l) <==> Held(callers, l)))
      && (callers[i].lock == l && phase == Holding ==> Held(after, l))
      && (callers[i].lock == l && callers[i].phase == Holding && phase != Holding ==> !Held(after, l))
  {
    var after := callers[i := callers[i].(phase := phase)];
    assert forall j :: 0 <= j < |callers| && j != i ==> after[j] == callers[j];
    assert after[i].lock == callers[i].lock && after[i].phase == phase;
  }

  /** Steps at the gate, or away from it, of a caller that stays counted. */
  lemma GateLock(s: State, a: Action, n: string)
    requires Inv(s) && Enabled(s, a) && (a.Enter? || a.Cancel? || a.OpenGate?) && n in s.t.locks
    ensures LockInv(Apply(s, a), n)
  {
    hide Users, Held, OneHolder;
    var s' := Apply(s, a);
    assert LockInv(s, n);
    UsersChange(s.callers, a.c, s'.callers[a.c].phase, s.t.locks[n]);
    HeldChange(s.callers, a.c, s'.callers[a.c].phase, s.t.locks[n]);
  }

  lemma GateHolders(s: State, a: Action)
    requires Inv(s) && Enabled(s, a) && (a.Enter? || a.Cancel? || a.OpenGate?)
    ensures OneHolder(Apply(s, a).callers)
  {
    assert CallerInv(s, a.c);
    assert LockInv(s, s.callers[a.c].name);
    assert a.Enter? ==> !Held(s.callers, s.callers[a.c].lock);
  }

  lemma GateCaller(s: State, a: Action, i: nat)
    requires Inv(s) && Enabled(s, a) && (a.Enter? || a.Cancel? || a.OpenGate?) && i < |s.callers|
    ensures var s' := Apply(s, a); CallerInv(s', i) && s'.callers[i].lock < |s'.t.objs|
  {
    hide LockInv, OneHolder, Separate;
    assert CallerInv(s, i);
  }

  lemma GateKeeps(s: State, a: Action)
    requires Inv(s) && Enabled(s, a) && (a.Enter? || a.Cancel? || a.OpenGate?)
    ensures Inv(Apply(s, a))
  {
    var s' := Apply(s, a);
    hide LockInv, CallerInv, OneHolder;
    GateHolders(s, a);
    forall i | 0 <= i < |s'.callers| ensures CallerInv(s', i) && s'.callers[i].lock < |s'.t.objs| { GateCaller(s, a, i); }
    forall n | n in s'.t.locks ensures s'.t.locks[n] < |s'.t.objs| && LockInv(s', n) { GateLock(s, a, n); }
  }

  lemma ReleaseLock(s: State, c: nat, n: string)
    requires Inv(s) && Enabled(s, Release(c)) && n in Apply(s, Release(c)).t.locks
    ensures n in s.t.locks && LockInv(Apply(s, Release(c)), n)
  {
    hide Users, Held, OneHolder;
    assert CallerInv(s, c) && LockInv(s, n);
    UsersChange(s.callers, c, Gone, s.t.locks[n]);
    HeldChange(s.callers, c, Gone, s.t.locks[n]);
  }

  lemma ReleaseCaller(s: State, c: nat, i: nat)
    requires Inv(s) && Enabled(s, Release(c)) && i < |s.callers|
    ensures var s' := Apply(s, Release(c)); CallerInv(s', i) && s'.callers[i].lock < |s'.t.objs|
  {
    var l := s.callers[c].lock;
    assert CallerInv(s, c) && CallerInv(s, i) && LockInv(s, s.callers[c].name);
    hide LockInv, OneHolder, Separate;
    UsersChange(s.callers, c, Gone, l);
    if i != c && s.callers[i].phase != Gone && s.callers[i].name == s.callers[c].name {
      AtLeastTwo(Users(s.callers, l), i, c);
    }
  }

  lemma ReleaseKeeps(s: State, c: nat)
    requires Inv(s) && Enabled(s, Release(c))
    ensures Inv(Apply(s, Release(c)))
  {
    var s' := Apply(s, Release(c));
    hide LockInv, CallerInv;
    forall i | 0 <= i < |s'.callers| ensures CallerInv(s', i) && s'.callers[i].lock < |s'.t.objs| { ReleaseCaller(s, c, i); }
    forall n | n in s'.t.locks ensures s'.t.locks[n] < |s'.t.objs| && LockInv(s', n) { ReleaseLock(s, c, n); }
  }

  lemma AtLeastTwo(s: set<nat>, i: nat, j: nat)
    ensures i in s && j in s && i != j ==> |s| >= 2
  {
    if i in s && j in s && i != j { assert |s - {i}| == |s| - 1 && j in s - {i}; }
  }

  lemma RunsKeepInv(acts: seq<Action>)
    ensures Run(acts).Some? ==> Inv(Run(acts).value)
  {
    if acts != [] {
      hide Inv, Enabled;
      var before, a := acts[..|acts| - 1], acts[|acts| - 1];
      RunsKeepInv(before);
      if Run(acts).Some? {
        match a
        case Arrive(name) => ArriveKeeps(Run(before).value, name);
        case Release(c) => ReleaseKeeps(Run(before).value, c);
        case _ => GateKeeps(Run(before).value, a);
      }
    }
  }

  /** Main result. Over every interleaving: at most one caller holds a name; all that wait for it, hold it or
      are leaving it share one lock, the one in the table, whose refs count them; and the table has an entry
      for a name exactly while somebody uses it. */
  lemma OneHolderOneLock(acts: seq<Action>, i: nat, j: nat)
    requires Run(acts).Some? && i < |Run(acts).value.callers| && j < |Run(acts).value.callers|
    ensures var s := Run(acts).value; var c, d := s.callers[i], s.callers[j];
      && (c.phase == Holding && d.phase == Holding && c.name == d.name ==> i == j)
      && (c.phase != Gone && d.phase != Gone && c.name == d.name ==> c.lock == d.lock)
      && (c.phase != Gone ==>
           && c.name in s.t.locks && s.t.locks[c.name] == c.lock && c.lock < |s.t.objs|
           && s.t.objs[c.lock].refs == |Users(s.callers, c.lock)|)
  {
    RunsKeepInv(acts);
    var s := Run(acts).value;
    assert CallerInv(s, i) && CallerInv(s, j);
    if s.callers[i].phase != Gone { assert LockInv(s, s.callers[i].name); }
  }

  lemma TableHasJustTheUsed(acts: seq<Action>, name: string)
    requires Run(acts).Some?
    ensures var s := Run(acts).value;
      name in s.t.locks <==> exists i :: 0 <= i < |s.callers| && s.callers[i].phase != Gone && s.callers[i].name == name
  {
    RunsKeepInv(acts);
    var s := Run(acts).value;
    if name in s.t.locks {
      assert LockInv(s, name);
      var users := Users(s.callers, s.t.locks[name]);
      assert users != {};
      var i :| i in users;
      assert CallerInv(s, i);
    }
    if i :| 0 <= i < |s.callers| && s.callers[i].phase != Gone && s.callers[i].name == name { assert CallerInv(s, i); }
  }

  /** A free gate with someone waiting can always be entered: no caller is shut out by one that is gone. */
  lemma WaitersCanEnter(acts: seq<Action>, i: nat)
    requires Run(acts).Some? && i < |Run(acts).value.callers| && Run(acts).value.callers[i].phase == Waiting
    ensures var s := Run(acts).value;
      Enabled(s, Enter(i)) || exists j :: 0 <= j < |s.callers| && s.callers[j].name == s.callers[i].name && Enabled(s, OpenGate(j))
  {
    RunsKeepInv(acts);
    var s := Run(acts).value;
    assert CallerInv(s, i) && LockInv(s, s.callers[i].name);
    if s.t.objs[s.callers[i].lock].full {
      var j :| 0 <= j < |s.callers| && s.callers[j].lock == s.callers[i].lock && s.callers[j].phase == Holding;
      assert CallerInv(s, j);
      assert Enabled(s, OpenGate(j));
    }
  }
}
