// The task store: tasks move through their lifecycle, and finished ones are evicted by age and by
// number (a2a/taskstore.go). Tasks are keyed by the number in their id.
module TaskStores {
  import opened Text
  import opened Sequences
  import opened A2A

  const DEFAULT_MAX_AGE := 3600 * SECOND
  const DEFAULT_MAX_TASKS: nat := 1024

  datatype Limits = Limits(maxAge: int, maxTasks: int)

  function MaxAge(l: Limits): int { if l.maxAge <= 0 then DEFAULT_MAX_AGE else l.maxAge }

  function MaxTasks(l: Limits): nat { if l.maxTasks <= 0 then DEFAULT_MAX_TASKS else l.maxTasks }

  type Tasks = map<nat, Task>

  /** made: tasks created but not yet begun; inFlight: tasks whose handler is running. */
  datatype Store = Store(tasks: Tasks, inFlight: set<nat>, terminalAt: map<nat, int>, last: nat, made: set<nat>)

  /** May be evicted. */
  predicate Idle(s: Store, id: nat) { id in s.tasks && id !in s.inFlight && IsTerminal(s.tasks[id].status.state) }

  /** terminalTime: recorded, or else parsed from the status. */
  function EndTime(s: Store, id: nat): Option<int>
    requires id in s.tasks
  {
    if id in s.terminalAt then Some(s.terminalAt[id]) else s.tasks[id].status.stamp
  }

  /** A time that does not parse is the zero time, before all others. */
  predicate Earlier(a: Option<int>, b: Option<int>) { b.Some? && (a.Some? ==> a.value < b.value) }

  /** Evictable because of its age. */
  predicate Old(s: Store, id: nat, cutoff: int) {
    Idle(s, id) && EndTime(s, id).Some? && EndTime(s, id).value < cutoff
  }

  /** The idle tasks that ended before the cutoff are gone; the end times looked up are recorded. */
  function AgedOut(s: Store, cutoff: int): Store {
    s.(tasks := map id | id in s.tasks && !Old(s, id, cutoff) :: s.tasks[id],
       terminalAt := map id | id in s.tasks && !Old(s, id, cutoff) && (id in s.terminalAt || Idle(s, id)) && EndTime(s, id).Some? ::
         EndTime(s, id).value)
  }

  /** Only idle tasks went, the earliest first, and only while there were too many. */
  ghost predicate Thinned(s: Store, max: nat, s': Store) {
    && s'.tasks.Keys <= s.tasks.Keys && (forall id :: id in s'.tasks ==> s'.tasks[id] == s.tasks[id])
    && (forall id :: id in s.tasks && id !in s'.tasks ==> Idle(s, id))
    && (forall id, other :: id in s.tasks && id !in s'.tasks && other in s'.tasks && Idle(s, other) ==>
          !Earlier(EndTime(s, other), EndTime(s, id)))
    && (if |s.tasks| <= max then s'.tasks == s.tasks
        else |s'.tasks| >= max && (|s'.tasks| == max || forall id :: id in s'.tasks ==> !Idle(s, id)))
    && s'.terminalAt == (map id | id in s.terminalAt && id in s'.tasks :: s.terminalAt[id])
    && s'.inFlight == s.inFlight && s'.last == s.last && s'.made == s.made
  }

  ghost predicate Evicted(s: Store, l: Limits, now: int, s': Store) {
    Thinned(AgedOut(s, now - MaxAge(l)), MaxTasks(l), s')
  }

  // ----- the lifecycle

  datatype Action =
    | New
    | Begin(id: nat, now: int, l: Limits)
    | Complete(id: nat, parts: seq<Part>, now: int)
    | Fail(id: nat, err: string, now: int)
    | End(id: nat)
    | Cancel(id: nat, now: int)

  function Begun(s: Store, id: nat, now: int): Store {
    s.(tasks := s.tasks[id := Task(Status(Working, now, None), [])], inFlight := s.inFlight + {id}, made := s.made - {id})
  }

  function Put(s: Store, id: nat, t: Task): Store { s.(tasks := s.tasks[id := t]) }

  function Recorded(s: Store, id: nat, t: Task, now: int): Store {
    Store(s.tasks[id := t], s.inFlight, s.terminalAt[id := Truncated(now)], s.last, s.made)
  }

  /** A task's own runner begins it, records its outcome while it is in flight, and ends it; anybody may cancel. */
  ghost predicate Next(s: Store, a: Action, s': Store) {
    match a
    case New => s' == s.(last := s.last + 1, made := s.made + {s.last + 1})
    case Begin(id, now, l) => id in s.made && Evicted(Begun(s, id, now), l, now, s')
    case Complete(id, parts, now) =>
      id in s.inFlight && id in s.tasks &&
      s' == if IsTerminal(s.tasks[id].status.state) then s else Recorded(s, id, CompletedTask(s.tasks[id], parts, now), now)
    case Fail(id, err, now) =>
      id in s.inFlight && id in s.tasks &&
      s' == if IsTerminal(s.tasks[id].status.state) then s else Recorded(s, id, FailedTask(s.tasks[id], err, now), now)
    case End(id) => s' == s.(inFlight := s.inFlight - {id})
    case Cancel(id, now) => s' == if id in s.tasks then Put(s, id, CanceledTask(s.tasks[id], now)) else s
  }

  ghost predicate Valid(s: Store) {
    && s.inFlight <= s.tasks.Keys && s.terminalAt.Keys <= s.tasks.Keys
    && (forall id :: id in s.terminalAt ==> IsTerminal(s.tasks[id].status.state))
    && (forall id :: id in s.tasks ==> id <= s.last && id !in s.made)
    && (forall id :: id in s.made ==> id <= s.last)
  }

  lemma NextKeepsValid(s: Store, a: Action, s': Store)
    requires Valid(s) && Next(s, a, s')
    ensures Valid(s')
  {
    if a.Begin? {
      BegunValid(s, a.id, a.now);
      EvictedValid(Begun(s, a.id, a.now), a.l, a.now, s');
    }
  }

  lemma BegunValid(s: Store, id: nat, now: int)
    requires Valid(s) && id in s.made
    ensures Valid(Begun(s, id, now))
  {
  }

  lemma AgedOutKeeps(s: Store, cutoff: int, id: nat)
    requires Valid(s)
    ensures var y := AgedOut(s, cutoff);
      && Valid(y)
      && (id in y.tasks <==> id in s.tasks && !Old(s, id, cutoff))
      && (id in y.tasks ==> y.tasks[id] == s.tasks[id] && EndTime(y, id) == EndTime(s, id) && (Idle(y, id) <==> Idle(s, id)))
  {
  }

  lemma EvictedValid(s: Store, l: Limits, now: int, s': Store)
    requires Valid(s) && Evicted(s, l, now, s')
    ensures Valid(s')
  {
    var y := AgedOut(s, now - MaxAge(l));
    AgedOutKeeps(s, now - MaxAge(l), 0);
    hide AgedOut;
    forall id | id in s'.inFlight ensures id in s'.tasks {
      assert id in y.tasks && !Idle(y, id);
    }
  }

  /** An eviction takes finished tasks only, spares the running ones, and changes none it leaves. */
  lemma EvictedKeeps(s: Store, l: Limits, now: int, s': Store, id: nat)
    requires Valid(s) && Evicted(s, l, now, s')
    ensures id in s'.tasks ==> id in s.tasks && s'.tasks[id] == s.tasks[id]
    ensures id in s.tasks && !Idle(s, id) ==> id in s'.tasks
    ensures s'.inFlight == s.inFlight && s'.last == s.last && s'.made == s.made
  {
    AgedOutKeeps(s, now - MaxAge(l), id);
  }

  /** No step changes a finished task, drops one still running, or brings back one that is gone. */
  lemma NextKeepsTasks(s: Store, a: Action, s': Store, id: nat)
    requires Valid(s) && Next(s, a, s')
    ensures id in s.tasks && IsTerminal(s.tasks[id].status.state) && id in s'.tasks ==> s'.tasks[id] == s.tasks[id]
    ensures id in s.inFlight && a != End(id) ==> id in s'.inFlight && id in s'.tasks
    ensures id in s.tasks && !IsTerminal(s.tasks[id].status.state) ==> id in s'.tasks
    ensures id in s.tasks && id !in s'.tasks ==> Gone(s', id)
    ensures Gone(s, id) ==> Gone(s', id)
  {
    if a.Begin? {
      hide Evicted;
      BegunValid(s, a.id, a.now);
      EvictedKeeps(Begun(s, a.id, a.now), a.l, a.now, s', id);
    }
  }

  /** A task that was created and is neither stored nor about to be. */
  predicate Gone(s: Store, id: nat) { id <= s.last && id !in s.tasks && id !in s.made }

  /** After a task begins, the store is within its limit or holds nothing evictable. */
  lemma BeginKeepsTheLimit(s: Store, id: nat, now: int, l: Limits, s': Store)
    requires Valid(s) && id in s.made && Evicted(Begun(s, id, now), l, now, s')
    ensures id in s'.inFlight && id in s'.tasks && s'.tasks[id] == Task(TaskStatus(Working, Some(now - now % SECOND), None), [])
    ensures |s'.tasks| <= MaxTasks(l) || forall other :: other in s'.tasks ==> !Idle(s', other)
  {
    var b := Begun(s, id, now);
    BegunValid(s, id, now);
    EvictedKeeps(b, l, now, s', id);
    var y := AgedOut(b, now - MaxAge(l));
    hide AgedOut, Valid, EndTime;
    forall other | other in s'.tasks && !Idle(y, other) ensures !Idle(s', other) {
    }
  }

  lemma BeginEvictsInOrder(s: Store, a: Action, s': Store, id: nat, other: nat)
    requires Valid(s) && Next(s, a, s') && a.Begin? && id in s.tasks
    ensures Old(s, id, a.now - MaxAge(a.l)) ==> id !in s'.tasks
    ensures id !in s'.tasks ==> Idle(s, id)
    ensures id !in s'.tasks && !Old(s, id, a.now - MaxAge(a.l)) && other in s.tasks && other in s'.tasks && Idle(s, other) ==>
      !Earlier(EndTime(s, other), EndTime(s, id))
  {
    hide AgedOut, Begun, Old, Valid, Idle, EndTime, Earlier, Thinned;
    var b, cutoff := Begun(s, a.id, a.now), a.now - MaxAge(a.l);
    BegunValid(s, a.id, a.now);
    BegunElsewhere(s, a.id, a.now, cutoff, id);
    AgedOutKeeps(b, cutoff, id);
    if other in s.tasks {
      BegunElsewhere(s, a.id, a.now, cutoff, other);
      AgedOutKeeps(b, cutoff, other);
    }
    if other in s'.tasks { EvictedWithin(b, a.l, a.now, s', other); }
    if id in AgedOut(b, cutoff).tasks { ThinnedPair(AgedOut(b, cutoff), MaxTasks(a.l), s', id, other); }
    EvictedKeeps(b, a.l, a.now, s', id);
    assert id in AgedOut(b, cutoff).tasks <==> !Old(s, id, cutoff);
    OldAreIdle(s, id, cutoff);
    if id in s'.tasks { EvictedWithin(b, a.l, a.now, s', id); }
  }

  /** Of what was there, all that went was finished; everything too old went; and anything else went only
      if no finished task that stayed had ended before it. */
  lemma {:induction false} BeginEvictsOldestFirst(s: Store, a: Action, s': Store, id: nat, other: nat)
    requires Valid(s) && Next(s, a, s') && a.Begin? && id in s.tasks
    ensures var ended := if id in s.terminalAt then Some(s.terminalAt[id]) else s.tasks[id].status.stamp;
      var idle := id !in s.inFlight && IsTerminal(s.tasks[id].status.state);
      var stale := idle && ended.Some? && ended.value < a.now - (if a.l.maxAge > 0 then a.l.maxAge else DEFAULT_MAX_AGE);
      && (stale ==> id !in s'.tasks)
      && (id !in s'.tasks ==> idle)
      && (id !in s'.tasks && !stale && ended.Some? && other in s.tasks && other in s'.tasks && Idle(s, other) ==>
          EndTime(s, other).Some? && ended.value <= EndTime(s, other).value)
  {
    OldMeans(s, id, a.now, a.l);
    EarlierMeans(EndTime(s, id));
    hide *;
    BeginEvictsInOrder(s, a, s', id, other);
  }

  lemma EarlierMeans(b: Option<int>)
    ensures forall a :: !Earlier(a, b) <==> b.None? || (a.Some? && b.value <= a.value)
  {
  }

  lemma OldMeans(s: Store, id: nat, now: int, l: Limits)
    ensures id in s.tasks ==>
      var ended := if id in s.terminalAt then Some(s.terminalAt[id]) else s.tasks[id].status.stamp;
      var idle := id !in s.inFlight && IsTerminal(s.tasks[id].status.state);
      && (Idle(s, id) <==> idle) && EndTime(s, id) == ended
      && (Old(s, id, now - MaxAge(l)) <==> idle && ended.Some? && ended.value < now - (if l.maxAge > 0 then l.maxAge else DEFAULT_MAX_AGE))
  {
  }

  lemma OldAreIdle(s: Store, id: nat, cutoff: int)
    ensures Old(s, id, cutoff) ==> Idle(s, id)
  {
  }

  lemma EvictedWithin(s: Store, l: Limits, now: int, s': Store, id: nat)
    requires Evicted(s, l, now, s') && id in s'.tasks
    ensures id in AgedOut(s, now - MaxAge(l)).tasks
  {
    hide AgedOut;
  }

  lemma ThinnedPair(s: Store, max: nat, s': Store, id: nat, other: nat)
    requires Thinned(s, max, s') && id in s.tasks
    ensures id !in s'.tasks ==> Idle(s, id)
    ensures id !in s'.tasks && other in s.tasks && other in s'.tasks && Idle(s, other) ==> !Earlier(EndTime(s, other), EndTime(s, id))
  {
    hide Idle, EndTime, Earlier;
  }

  lemma BegunElsewhere(s: Store, id: nat, now: int, cutoff: int, other: nat)
    requires Valid(s) && id in s.made && other in s.tasks
    ensures var b := Begun(s, id, now);
      && other in b.tasks && b.tasks[other] == s.tasks[other] && EndTime(b, other) == EndTime(s, other)
      && (Idle(b, other) <==> Idle(s, other)) && (Old(b, other, cutoff) <==> Old(s, other, cutoff))
  {
  }

  // ----- runs

  ghost predicate Run(states: seq<Store>, acts: seq<Action>) {
    && |states| == |acts| + 1
    && states[0] == Store(map[], {}, map[], 0, {})
    && forall i :: 0 <= i < |acts| ==> Next(states[i], acts[i], states[i + 1])
  }

  /** Main result. In every reachable store running tasks and recorded end times belong to stored tasks;
      a finished task never changes again, once evicted never returns, and a running one is never evicted. */
  lemma {:induction false} FinishedIsFinal(states: seq<Store>, acts: seq<Action>, i: nat, k: nat, id: nat)
    requires Run(states, acts) && i <= k < |states|
    ensures var s, s' := states[i], states[k];
      && Valid(s) && Valid(s')
      && (id in s.tasks && IsTerminal(s.tasks[id].status.state) ==> (id in s'.tasks && s'.tasks[id] == s.tasks[id]) || Gone(s', id))
      && (Gone(s, id) ==> Gone(s', id))
      && (id in s.tasks && id !in s'.tasks ==> Gone(s', id))
      && (id in s.inFlight && (forall j :: i <= j < k ==> acts[j] != End(id)) ==>
          id in s'.inFlight && id in s'.tasks)
    decreases k
  {
    hide Next;
    if k > 0 {
      var p, s' := states[k - 1], states[k];
      FinishedIsFinal(states, acts, if i < k then i else k - 1, k - 1, id);
      NextKeepsValid(p, acts[k - 1], s');
      if i < k { NextKeepsTasks(p, acts[k - 1], s', id); }
    }
  }

  /** Between a task's begin and end only its own runner and a cancellation touch it. */
  lemma OthersLeaveItAlone(s: Store, a: Action, s': Store, id: nat)
    requires Valid(s) && Next(s, a, s') && id in s.inFlight
    requires a.New? || a.End? || a.id != id
    ensures id in s'.tasks && s'.tasks[id] == s.tasks[id]
  {
    NextKeepsTasks(s, a, s', id);
    if a.Begin? {
      hide Evicted;
      BegunValid(s, a.id, a.now);
      EvictedKeeps(Begun(s, a.id, a.now), a.l, a.now, s', id);
    }
  }

  // ----- the methods

  datatype Aged = Aged(id: nat, time: Option<int>)

  predicate Older(x: Aged, y: Aged) { Earlier(x.time, y.time) }

  function IdOf(x: Aged): nat { x.id }

  lemma OlderOrders()
    ensures Orders(Older)
  {
  }

  /** The idle tasks of a store, each once, with their end times. */
  ghost predicate Lists(s: Store, terms: seq<Aged>) {
    && Distinct(terms, IdOf)
    && (forall x :: x in terms ==> Idle(s, x.id) && x.time == EndTime(s, x.id))
    && (forall id :: Idle(s, id) ==> Aged(id, EndTime(s, id)) in terms)
  }

  function Drop(s: Store, id: nat): Store { s.(tasks := s.tasks - {id}, terminalAt := s.terminalAt - {id}) }

  /** The store without the first n tasks of a list. */
  function DropN(s: Store, terms: seq<Aged>, n: nat): Store
    requires n <= |terms|
  {
    if n == 0 then s else Drop(DropN(s, terms, n - 1), terms[n - 1].id)
  }

  predicate Among(terms: seq<Aged>, n: nat, id: nat)
    requires n <= |terms|
  {
    exists k :: 0 <= k < n && terms[k].id == id
  }

  lemma DropNTakes(s: Store, terms: seq<Aged>, n: nat, id: nat)
    requires n <= |terms|
    ensures var d := DropN(s, terms, n);
      && d.inFlight == s.inFlight && d.last == s.last && d.made == s.made
      && (id in d.tasks <==> id in s.tasks && !Among(terms, n, id))
      && (id in d.tasks ==> d.tasks[id] == s.tasks[id])
      && (id in d.terminalAt <==> id in s.terminalAt && !Among(terms, n, id))
      && (id in d.terminalAt ==> d.terminalAt[id] == s.terminalAt[id])
  {
    if n > 0 {
      DropNTakes(s, terms, n - 1, id);
      assert Among(terms, n, id) <==> Among(terms, n - 1, id) || id == terms[n - 1].id;
    }
  }

  lemma {:induction false} DropNCounts(s: Store, terms: seq<Aged>, n: nat)
    requires n <= |terms| && Distinct(terms, IdOf) && forall x :: x in terms ==> x.id in s.tasks
    ensures |DropN(s, terms, n).tasks| == |s.tasks| - n
  {
    if n > 0 {
      DropNCounts(s, terms, n - 1);
      assert terms[n - 1] in terms && !Among(terms, n - 1, terms[n - 1].id);
      DropNTakes(s, terms, n - 1, terms[n - 1].id);
      MapWithout(DropN(s, terms, n - 1).tasks, terms[n - 1].id);
    }
  }

  lemma MapWithout(m: Tasks, id: nat)
    requires id in m
    ensures |m - {id}| == |m| - 1
  {
    assert (m - {id}).Keys == m.Keys - {id};
    assert |(m - {id}).Keys| == |m - {id}| && |m.Keys| == |m|;
  }

  /** Dropping from the front of the sorted list takes the earliest first. */
  lemma DropNIsOldestFirst(s: Store, terms: seq<Aged>, n: nat, id: nat, other: nat)
    requires Lists(s, terms) && Sorted(terms, Older) && n <= |terms|
    ensures Among(terms, n, id) ==> Idle(s, id)
    ensures Among(terms, n, id) && other in s.tasks && Idle(s, other) && !Among(terms, n, other) ==> !Earlier(EndTime(s, other), EndTime(s, id))
    ensures n == |terms| && Idle(s, other) ==> Among(terms, n, other)
  {
    hide Earlier, EndTime, Distinct;
    if Among(terms, n, id) {
      var k :| 0 <= k < n && terms[k].id == id;
      assert terms[k] in terms;
    }
    if Idle(s, other) { assert Aged(other, EndTime(s, other)) in terms; }
  }

  lemma DropNThins(s: Store, terms: seq<Aged>, n: nat, max: nat)
    requires Valid(s) && Lists(s, terms) && Sorted(terms, Older) && |s.tasks| > max && n <= |terms|
    requires |DropN(s, terms, n).tasks| >= max && (n == |terms| || |DropN(s, terms, n).tasks| <= max)
    ensures Thinned(s, max, DropN(s, terms, n))
  {
    hide DropN, Among, Earlier, EndTime, Sorted, Lists, Idle;
    var d := DropN(s, terms, n);
    forall id | true
      ensures id in d.tasks ==> id in s.tasks && d.tasks[id] == s.tasks[id]
      ensures id in s.tasks && id !in d.tasks ==> Idle(s, id)
      ensures id in d.terminalAt <==> id in s.terminalAt && id in d.tasks
      ensures id in d.terminalAt ==> d.terminalAt[id] == s.terminalAt[id]
      ensures n == |terms| && id in d.tasks ==> !Idle(s, id)
    {
      DropNTakes(s, terms, n, id);
      DropNIsOldestFirst(s, terms, n, id, id);
    }
    forall id, other | id in s.tasks && id !in d.tasks && other in d.tasks && Idle(s, other)
      ensures !Earlier(EndTime(s, other), EndTime(s, id))
    {
      DropNTakes(s, terms, n, id);
      DropNTakes(s, terms, n, other);
      DropNIsOldestFirst(s, terms, n, id, other);
    }
    DropNTakes(s, terms, n, 0);
  }

  function Known(m: map<nat, int>, id: nat): Option<int> { if id in m then Some(m[id]) else None }

  /** The end time an eviction by age leaves recorded. */
  function TimeKept(s: Store, id: nat, cutoff: int): Option<int>
    requires id in s.tasks
  {
    if Old(s, id, cutoff) then None else if id in s.terminalAt || Idle(s, id) then EndTime(s, id) else None
  }

  lemma KnownElsewhere(m: map<nat, int>, m': map<nat, int>, id: nat, other: nat)
    requires other != id && m - {other} == m' - {other}
    ensures Known(m, id) == Known(m', id)
  {
    assert id in m <==> id in m - {other};
    assert id in m' <==> id in m' - {other};
    if id in m { assert (m - {other})[id] == m[id] && (m' - {other})[id] == m'[id]; }
  }

  /** What becomes of a task depends on its own entries only. */
  lemma SameHere(s: Store, s': Store, id: nat, cutoff: int)
    requires id in s.tasks && id in s'.tasks && s'.tasks[id] == s.tasks[id] && s'.inFlight == s.inFlight
    requires Known(s.terminalAt, id) == Known(s'.terminalAt, id)
    ensures (Old(s', id, cutoff) <==> Old(s, id, cutoff)) && TimeKept(s', id, cutoff) == TimeKept(s, id, cutoff)
  {
  }

  lemma TimesKept(s: Store, m: map<nat, int>, cutoff: int)
    requires m.Keys <= s.tasks.Keys && forall id :: id in s.tasks ==> Known(m, id) == TimeKept(s, id, cutoff)
    ensures m == AgedOut(s, cutoff).terminalAt
  {
    hide Old, Idle, EndTime;
    forall id | id in s.tasks ensures id in m <==> id in AgedOut(s, cutoff).terminalAt {
      assert Known(m, id) == TimeKept(s, id, cutoff);
    }
  }

  lemma NothingToThin(s: Store, max: nat)
    ensures Valid(s) && |s.tasks| <= max ==> Thinned(s, max, s)
  {
  }

  datatype CancelError = TaskNotFound | TaskNotCancelable

  class TaskStore {
    var limits: Limits
    var tasks: Tasks
    var inFlight: set<nat>
    var terminalAt: map<nat, int>
    var seqNo: nat
    ghost var made: set<nat>

    constructor (l: Limits)
      ensures State() == Store(map[], {}, map[], 0, {}) && limits == l
    {
      limits, tasks, inFlight, terminalAt, seqNo, made := l, map[], {}, map[], 0, {};
    }

    ghost function State(): Store
      reads this
    {
      Store(tasks, inFlight, terminalAt, seqNo, made)
    }

    method NewTask() returns (id: nat)
      modifies this`seqNo, this`made
      ensures Next(old(State()), New, State()) && id == seqNo && id in made
    {
      seqNo := seqNo + 1;
      made := made + {seqNo};
      id := seqNo;
    }

    method BeginTask(id: nat, now: int)
      requires Valid(State()) && id in made
      modifies this`tasks, this`inFlight, this`terminalAt, this`made
      ensures Next(old(State()), Begin(id, now, limits), State()) && Valid(State())
    {
      BegunValid(State(), id, now);
      tasks := tasks[id := Task(Status(Working, now, None), [])];
      inFlight := inFlight + {id};
      made := made - {id};
      Evict(now);
      NextKeepsValid(old(State()), Begin(id, now, limits), State());
    }

    method CompleteTask(id: nat, parts: seq<Part>, now: int)
      requires Valid(State()) && id in inFlight
      modifies this`tasks, this`terminalAt
      ensures Next(old(State()), Complete(id, parts, now), State()) && Valid(State())
      ensures var time, over := now - now % SECOND, IsTerminal(old(tasks)[id].status.state);
        && tasks == (if over then old(tasks) else old(tasks)[id := Task(TaskStatus(Completed, Some(time), None), [Artifact(parts)])])
        && terminalAt == (if over then old(terminalAt) else old(terminalAt)[id := time])
    {
      if !IsTerminal(tasks[id].status.state) {
        tasks := tasks[id := CompletedTask(tasks[id], parts, now)];
        terminalAt := terminalAt[id := Truncated(now)];
      }
      NextKeepsValid(old(State()), Complete(id, parts, now), State());
    }

    method FailTask(id: nat, err: string, now: int)
      requires Valid(State()) && id in inFlight
      modifies this`tasks, this`terminalAt
      ensures Next(old(State()), Fail(id, err, now), State()) && Valid(State())
      ensures var time, over := now - now % SECOND, IsTerminal(old(tasks)[id].status.state);
        && tasks == (if over then old(tasks)
            else old(tasks)[id := Task(TaskStatus(Failed, Some(time), Some([TextPart(err)])), old(tasks)[id].artifacts)])
        && terminalAt == (if over then old(terminalAt) else old(terminalAt)[id := time])
    {
      if !IsTerminal(tasks[id].status.state) {
        tasks := tasks[id := FailedTask(tasks[id], err, now)];
        terminalAt := terminalAt[id := Truncated(now)];
      }
      NextKeepsValid(old(State()), Fail(id, err, now), State());
    }

    method EndTask(id: nat)
      requires Valid(State())
      modifies this`inFlight
      ensures Next(old(State()), End(id), State()) && Valid(State())
    {
      inFlight := inFlight - {id};
      NextKeepsValid(old(State()), End(id), State());
    }

    /** Canceled at once if unfinished; an error, and no change, otherwise. */
    method CancelTask(id: nat, now: int) returns (err: Option<CancelError>, interrupted: bool)
      requires Valid(State())
      modifies this`tasks
      ensures Next(old(State()), Cancel(id, now), State()) && Valid(State())
      ensures err == if id !in old(tasks) then Some(TaskNotFound)
                     else if IsTerminal(old(tasks)[id].status.state) then Some(TaskNotCancelable) else None
      ensures interrupted <==> err.None? && id in inFlight
      ensures tasks == if err.Some? then old(tasks)
        else old(tasks)[id := Task(TaskStatus(Canceled, Some(now - now % SECOND), None), old(tasks)[id].artifacts)]
    {
      interrupted := false;
      if id !in tasks { return Some(TaskNotFound), false; }
      assert CanceledTask(tasks[id], now) == tasks[id] ==> tasks[id := CanceledTask(tasks[id], now)] == tasks;
      if IsTerminal(tasks[id].status.state) { return Some(TaskNotCancelable), false; }
      tasks := tasks[id := CanceledTask(tasks[id], now)];
      err, interrupted := None, id in inFlight;
      NextKeepsValid(old(State()), Cancel(id, now), State());
    }

    method Evict(now: int)
      requires Valid(State())
      modifies this`tasks, this`terminalAt
      ensures Evicted(old(State()), limits, now, State())
    {
      hide AgedOut, Sort, Thinned, Idle, EndTime, Sorted, Distinct;
      var cutoff := now - MaxAge(limits);
      AgedOutKeeps(State(), cutoff, 0);
      DropOld(cutoff);
      if |tasks| <= MaxTasks(limits) {
        NothingToThin(State(), MaxTasks(limits));
        return;
      }
      var terms := CollectIdle();
      OlderOrders();
      SortSorts(terms, Older, IdOf);
      DropFirst(Sort(terms, Older), MaxTasks(limits));
    }

    method DropOld(cutoff: int)
      requires Valid(State())
      modifies this`tasks, this`terminalAt
      ensures State() == AgedOut(old(State()), cutoff)
    {
      hide Old, TimeKept, Known;
      ghost var s := State();
      var todo := tasks.Keys;
      while todo != {}
        invariant todo <= s.tasks.Keys && inFlight == s.inFlight && seqNo == s.last && made == s.made
        invariant forall id :: id in tasks <==> id in s.tasks && (id in todo || !Old(s, id, cutoff))
        invariant forall id :: id in tasks ==> tasks[id] == s.tasks[id]
        invariant forall id :: id in s.tasks ==> Known(terminalAt, id) == if id in todo then Known(s.terminalAt, id) else TimeKept(s, id, cutoff)
        invariant terminalAt.Keys <= s.tasks.Keys
      {
        var id :| id in todo;
        todo := todo - {id};
        SameHere(s, State(), id, cutoff);
        ghost var before := terminalAt;
        Consider(id, cutoff);
        forall other | other in s.tasks && other != id ensures Known(terminalAt, other) == Known(before, other) { KnownElsewhere(before, terminalAt, other, id); }
        forall k | k in terminalAt ensures k in s.tasks { if k != id { assert k in terminalAt - {id}; } }
      }
      TimesKept(s, terminalAt, cutoff);
    }

    method Consider(id: nat, cutoff: int)
      requires id in tasks
      modifies this`tasks, this`terminalAt
      ensures tasks == if Old(old(State()), id, cutoff) then old(tasks) - {id} else old(tasks)
      ensures Known(terminalAt, id) == TimeKept(old(State()), id, cutoff)
      ensures terminalAt - {id} == old(terminalAt) - {id}
    {
      if id in inFlight || !IsTerminal(tasks[id].status.state) { return; }
      var known := RecordEnd(id);
      if known && terminalAt[id] < cutoff {
        tasks := tasks - {id};
        terminalAt := terminalAt - {id};
      }
    }

    /** terminalTime: the end time looked up is kept. */
    method RecordEnd(id: nat) returns (known: bool)
      requires id in tasks
      modifies this`terminalAt
      ensures known <==> EndTime(old(State()), id).Some?
      ensures terminalAt == if known then old(terminalAt)[id := EndTime(old(State()), id).value] else old(terminalAt)
    {
      known := true;
      if id in terminalAt {
        assert terminalAt[id := terminalAt[id]] == terminalAt;
        return;
      }
      if tasks[id].status.stamp.None? { return false; }
      terminalAt := terminalAt[id := tasks[id].status.stamp.value];
    }

    method CollectIdle() returns (terms: seq<Aged>)
      ensures Lists(State(), terms)
    {
      terms := [];
      var todo := tasks.Keys;
      while todo != {}
        invariant todo <= tasks.Keys && Distinct(terms, IdOf)
        invariant forall x :: x in terms ==> Idle(State(), x.id) && x.time == EndTime(State(), x.id) && x.id !in todo
        invariant forall id :: Idle(State(), id) && id !in todo ==> Aged(id, EndTime(State(), id)) in terms
      {
        var id :| id in todo;
        todo := todo - {id};
        if id in inFlight || !IsTerminal(tasks[id].status.state) { continue; }
        var time := tasks[id].status.stamp;
        if id in terminalAt { time := Some(terminalAt[id]); }
        terms := terms + [Aged(id, time)];
      }
    }

    method DropFirst(terms: seq<Aged>, max: nat)
      requires Valid(State()) && Lists(State(), terms) && Sorted(terms, Older) && |tasks| > max
      modifies this`tasks, this`terminalAt
      ensures Thinned(old(State()), max, State())
    {
      hide Lists, Sorted, Thinned, Valid, Drop;
      ghost var s := State();
      var i := 0;
      ListedAreStored(s, terms);
      while i < |terms| && |tasks| > max
        invariant i <= |terms| && State() == DropN(s, terms, i) && |tasks| >= max
      {
        DropNCounts(s, terms, i);
        DropNCounts(s, terms, i + 1);
        DropFields(State(), terms[i].id);
        tasks := tasks - {terms[i].id};
        terminalAt := terminalAt - {terms[i].id};
        i := i + 1;
      }
      DropNThins(s, terms, i, max);
    }
  }

  lemma DropFields(s: Store, id: nat)
    ensures Drop(s, id) == Store(s.tasks - {id}, s.inFlight, s.terminalAt - {id}, s.last, s.made)
  {
  }

  lemma ListedAreStored(s: Store, terms: seq<Aged>)
    ensures Lists(s, terms) ==> Distinct(terms, IdOf) && forall x :: x in terms ==> x.id in s.tasks
  {
  }
}
