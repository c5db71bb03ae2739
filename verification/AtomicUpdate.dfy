/** Conditional atomic update: a load and a retried weak compare-exchange, by any number
    of threads in any interleaving (crates/atomic_update.rs). */
module AtomicUpdate {
  import opened Wrappers

  const MAX64: nat := 0xFFFF_FFFF_FFFF_FFFF

  /** The closure a caller passes: the next value, or a refusal. */
  type Update = nat -> Option<nat>

  /** A call in progress: its closure and the value it last saw. */
  datatype Call = Call(update: Update, previous: nat)

  datatype Refusal = Refusal(update: Update, seen: nat)

  /** A thread, with the values its calls returned as Ok and its refused calls. */
  datatype Thread = Thread(call: Option<Call>, issued: seq<nat>, refused: seq<Refusal>)

  /** One successful exchange. */
  datatype Store = Store(thread: nat, update: Update, before: nat, after: nat)

  datatype State = State(value: nat, threads: seq<Thread>, stores: seq<Store>)

  /** A thread without a call loads the value and starts one; a thread with a call asks its
      closure and, unless refused, tries one exchange, which may fail spuriously. */
  datatype Step = Begin(thread: nat, update: Update) | Attempt(thread: nat, spurious: bool)

  function Take(s: State, step: Step): State {
    if step.thread >= |s.threads| then s
    else
      var t := s.threads[step.thread];
      match step
      case Begin(i, update) =>
        if t.call.Some? then s
        else s.(threads := s.threads[i := t.(call := Some(Call(update, s.value)))])
      case Attempt(i, spurious) =>
        if t.call.None? then s
        else
          var call := t.call.value;
          match call.update(call.previous)
          case None =>
            var refusal := Refusal(call.update, call.previous);
            s.(threads := s.threads[i := t.(call := None, refused := t.refused + [refusal])])
          case Some(next) =>
            if s.value == call.previous && !spurious then
              State(next,
                    s.threads[i := t.(call := None, issued := t.issued + [call.previous])],
                    s.stores + [Store(i, call.update, call.previous, next)])
            else
              s.(threads := s.threads[i := t.(call := Some(call.(previous := s.value)))])
  }

  // ----- the order of the stores

  /** The value after the first k stores. */
  function ValueAt(stores: seq<Store>, initial: nat, k: nat): nat
    requires k <= |stores|
  {
    if k == 0 then initial else stores[k - 1].after
  }

  /** Each store applied its closure to the value the one before it left. */
  ghost predicate Chain(stores: seq<Store>, initial: nat) {
    forall k {:trigger ValueAt(stores, initial, k)} :: 0 <= k < |stores| ==>
      && stores[k].before == ValueAt(stores, initial, k)
      && stores[k].update(stores[k].before) == Some(stores[k].after)
  }

  /** The places of one thread's stores, in order. */
  function Places(stores: seq<Store>, i: nat): seq<nat> {
    if stores == [] then []
    else
      var n := |stores| - 1;
      if stores[n].thread == i then Places(stores[..n], i) + [n] else Places(stores[..n], i)
  }

  lemma {:induction false} PlacesTell(stores: seq<Store>, i: nat)
    ensures forall j :: 0 <= j < |Places(stores, i)| ==> Places(stores, i)[j] < |stores|
    ensures forall j :: 0 <= j < |Places(stores, i)| ==> stores[Places(stores, i)[j]].thread == i
    ensures forall j, k :: 0 <= j < k < |Places(stores, i)| ==> Places(stores, i)[j] < Places(stores, i)[k]
    ensures forall k :: 0 <= k < |stores| && stores[k].thread == i ==> k in Places(stores, i)
  {
    if stores == [] {
    } else {
      var n := |stores| - 1;
      var init := stores[..n];
      PlacesTell(init, i);
      assert forall k :: 0 <= k < n ==> init[k] == stores[k];
    }
  }

  lemma PlacesPush(stores: seq<Store>, x: Store, i: nat)
    ensures Places(stores + [x], i) == if x.thread == i then Places(stores, i) + [|stores|] else Places(stores, i)
  {
    assert (stores + [x])[..|stores|] == stores;
  }

  /** What a thread was told is what its own stores found, in order. */
  ghost predicate Told(t: Thread, i: nat, stores: seq<Store>) {
    && |t.issued| == |Places(stores, i)|
    && forall j :: 0 <= j < |t.issued| ==>
         Places(stores, i)[j] < |stores| && t.issued[j] == stores[Places(stores, i)[j]].before
  }

  ghost predicate AllTold(s: State) {
    forall i :: 0 <= i < |s.threads| ==> Told(s.threads[i], i, s.stores)
  }

  /** A refused call's closure refused the value that call saw. */
  ghost predicate Refused(t: Thread) {
    forall j :: 0 <= j < |t.refused| ==> t.refused[j].update(t.refused[j].seen) == None
  }

  ghost predicate Inv(s: State, initial: nat) {
    && Chain(s.stores, initial) && s.value == ValueAt(s.stores, initial, |s.stores|)
    && AllTold(s)
    && (forall k :: 0 <= k < |s.stores| ==> s.stores[k].thread < |s.threads|)
    && (forall i :: 0 <= i < |s.threads| ==> Refused(s.threads[i]))
  }

  function Start(initial: nat, count: nat): State {
    State(initial, seq(count, _ => Thread(None, [], [])), [])
  }

  lemma StartOk(initial: nat, count: nat)
    ensures Inv(Start(initial, count), initial)
  {
  }

  lemma ChainPush(stores: seq<Store>, initial: nat, x: Store)
    requires Chain(stores, initial)
    requires x.before == ValueAt(stores, initial, |stores|) && x.update(x.before) == Some(x.after)
    ensures Chain(stores + [x], initial) && ValueAt(stores + [x], initial, |stores| + 1) == x.after
  {
    var more := stores + [x];
    forall k | 0 <= k < |more|
      ensures more[k].before == ValueAt(more, initial, k) && more[k].update(more[k].before) == Some(more[k].after)
    {
      if k < |stores| {
        assert ValueAt(more, initial, k) == ValueAt(stores, initial, k);
      }
    }
  }

  lemma ToldOther(t: Thread, i: nat, stores: seq<Store>, x: Store)
    requires Told(t, i, stores) && x.thread != i
    ensures Told(t, i, stores + [x])
  {
    hide Places;
    PlacesPush(stores, x, i);
  }

  lemma ToldOwn(t: Thread, i: nat, stores: seq<Store>, x: Store, next: Thread)
    requires Told(t, i, stores) && x.thread == i && next.issued == t.issued + [x.before]
    ensures Told(next, i, stores + [x])
  {
    hide Places;
    PlacesPush(stores, x, i);
  }

  lemma QuietOk(s: State, initial: nat, i: nat, next: Thread)
    requires Inv(s, initial) && i < |s.threads| && next.issued == s.threads[i].issued && Refused(next)
    ensures Inv(s.(threads := s.threads[i := next]), initial)
  {
    var t := s.(threads := s.threads[i := next]);
    forall k | 0 <= k < |t.threads| ensures Told(t.threads[k], k, t.stores) {
      assert Told(s.threads[k], k, s.stores);
    }
  }

  lemma StoreOk(s: State, initial: nat, x: Store, next: Thread)
    requires Inv(s, initial) && x.thread < |s.threads| && Refused(next)
    requires x.before == s.value && x.update(x.before) == Some(x.after)
    requires next.issued == s.threads[x.thread].issued + [x.before]
    ensures Inv(State(x.after, s.threads[x.thread := next], s.stores + [x]), initial)
  {
    hide Chain;
    var t := State(x.after, s.threads[x.thread := next], s.stores + [x]);
    ChainPush(s.stores, initial, x);
    forall k | 0 <= k < |t.threads| ensures Told(t.threads[k], k, t.stores) {
      assert Told(s.threads[k], k, s.stores);
      if k == x.thread {
        ToldOwn(s.threads[k], k, s.stores, x, next);
      } else {
        ToldOther(s.threads[k], k, s.stores, x);
      }
    }
  }

  lemma RefusedPush(t: Thread, r: Refusal)
    requires Refused(t) && r.update(r.seen) == None
    ensures forall call, issued :: Refused(Thread(call, issued, t.refused + [r]))
  {
  }

  /** Every step of every thread keeps the invariant; a step that stores nothing leaves the value. */
  lemma StepKeepsInv(s: State, step: Step, initial: nat)
    requires Inv(s, initial)
    ensures Inv(Take(s, step), initial) && |Take(s, step).threads| == |s.threads|
    ensures s.stores <= Take(s, step).stores && |Take(s, step).stores| <= |s.stores| + 1
    ensures Take(s, step).stores == s.stores ==> Take(s, step).value == s.value
  {
    var i := step.thread;
    if i < |s.threads| {
      var t := s.threads[i];
      ThreadRefused(s, initial, i);
      hide Inv, Refused;
      match step {
        case Begin(_, update) =>
          if t.call.None? {
            SameRefusals(t, t.(call := Some(Call(update, s.value))));
            QuietOk(s, initial, i, t.(call := Some(Call(update, s.value))));
          }
        case Attempt(_, spurious) =>
          if t.call.Some? {
            var call := t.call.value;
            match call.update(call.previous) {
              case None =>
                var r := Refusal(call.update, call.previous);
                RefusedPush(t, r);
                var next := t.(call := None, refused := t.refused + [r]);
                assert next == Thread(None, t.issued, t.refused + [r]);
                QuietOk(s, initial, i, next);
              case Some(after) =>
                if s.value == call.previous && !spurious {
                  var next := t.(call := None, issued := t.issued + [call.previous]);
                  SameRefusals(t, next);
                  StoreOk(s, initial, Store(i, call.update, call.previous, after), next);
                } else {
                  var next := t.(call := Some(call.(previous := s.value)));
                  SameRefusals(t, next);
                  QuietOk(s, initial, i, next);
                }
            }
          }
      }
    }
  }

  lemma ThreadRefused(s: State, initial: nat, i: nat)
    requires Inv(s, initial) && i < |s.threads|
    ensures Refused(s.threads[i])
  {
  }

  lemma SameRefusals(t: Thread, next: Thread)
    requires Refused(t) && next.refused == t.refused
    ensures Refused(next)
  {
  }

  // ----- whole schedules

  /** The state any number of idle threads reach by a schedule. */
  function After(initial: nat, count: nat, schedule: seq<Step>): State {
    if schedule == [] then Start(initial, count)
    else Take(After(initial, count, schedule[..|schedule| - 1]), schedule[|schedule| - 1])
  }

  /** Some call of the schedule passes this closure. */
  ghost predicate Passed(schedule: seq<Step>, update: Update) {
    exists i :: 0 <= i < |schedule| && schedule[i].Begin? && schedule[i].update == update
  }

  /** Every closure in use, and every one that stored or refused, was passed by a call. */
  ghost predicate FromCalls(s: State, schedule: seq<Step>) {
    && (forall k :: 0 <= k < |s.stores| ==> Passed(schedule, s.stores[k].update))
    && (forall i :: 0 <= i < |s.threads| && s.threads[i].call.Some? ==>
          Passed(schedule, s.threads[i].call.value.update))
  }

  lemma PassedStays(schedule: seq<Step>, step: Step, update: Update)
    requires Passed(schedule, update)
    ensures Passed(schedule + [step], update)
  {
    var i :| 0 <= i < |schedule| && schedule[i].Begin? && schedule[i].update == update;
    assert (schedule + [step])[i] == schedule[i];
  }

  lemma FromCallsStep(s: State, schedule: seq<Step>, step: Step)
    requires FromCalls(s, schedule)
    ensures FromCalls(Take(s, step), schedule + [step])
  {
    hide Passed;
    var t, more := Take(s, step), schedule + [step];
    if step.Begin? {
      BeginPasses(schedule, step);
    }
    forall k | 0 <= k < |t.stores| ensures Passed(more, t.stores[k].update) {
      if k < |s.stores| {
        PassedStays(schedule, step, s.stores[k].update);
      } else {
        PassedStays(schedule, step, s.threads[step.thread].call.value.update);
      }
    }
    forall i | 0 <= i < |t.threads| && t.threads[i].call.Some? ensures Passed(more, t.threads[i].call.value.update) {
      if s.threads[i].call.Some? {
        PassedStays(schedule, step, s.threads[i].call.value.update);
      }
    }
  }

  lemma BeginPasses(schedule: seq<Step>, step: Step)
    requires step.Begin?
    ensures Passed(schedule + [step], step.update)
  {
    assert (schedule + [step])[|schedule|] == step;
  }

  /** Whatever the schedule, the invariant holds at its end and every closure that stored was
      passed by one of its calls. */
  lemma {:induction false} ScheduleOk(initial: nat, count: nat, schedule: seq<Step>)
    ensures var s := After(initial, count, schedule);
            Inv(s, initial) && |s.threads| == count && FromCalls(s, schedule)
  {
    hide Inv, FromCalls, Take;
    if schedule == [] {
      StartOk(initial, count);
      StartFromCalls(initial, count);
    } else {
      var init, step := schedule[..|schedule| - 1], schedule[|schedule| - 1];
      ScheduleOk(initial, count, init);
      StepKeepsInv(After(initial, count, init), step, initial);
      FromCallsStep(After(initial, count, init), init, step);
      assert schedule == init + [step];
    }
  }

  /** Thread `i` has finished a call of `update` that found `seen`: it was refused and changed
      nothing, or it stored the next value and was told the one before. */
  ghost predicate Finished(s: State, t: State, i: nat, update: Update, seen: nat)
    requires i < |s.threads|
  {
    && |t.threads| == |s.threads| && t.threads[i].call.None?
    && (forall j :: 0 <= j < |s.threads| && j != i ==> t.threads[j] == s.threads[j])
    && (update(seen).None? ==>
          && t.value == s.value && t.stores == s.stores && t.threads[i].issued == s.threads[i].issued
          && t.threads[i].refused == s.threads[i].refused + [Refusal(update, seen)])
    && (update(seen).Some? ==>
          && s.value == seen && t.value == update(seen).value && t.threads[i].issued == s.threads[i].issued + [seen]
          && t.stores == s.stores + [Store(i, update, seen, update(seen).value)]
          && t.threads[i].refused == s.threads[i].refused)
  }

  /** A call in progress ends with one attempt of its own unless the value has moved on since it
      looked, and with two if nobody else comes between them and neither fails spuriously. */
  lemma {:induction false} CallEnds(initial: nat, count: nat, schedule: seq<Step>, i: nat)
    requires i < count
    ensures var s := After(initial, count, schedule);
            |s.threads| == count &&
            (s.threads[i].call.Some? ==>
               var call := s.threads[i].call.value;
               var once := After(initial, count, schedule + [Attempt(i, false)]);
               var twice := After(initial, count, schedule + [Attempt(i, false)] + [Attempt(i, false)]);
               if call.update(call.previous).None? || s.value == call.previous
               then Finished(s, once, i, call.update, call.previous)
               else Finished(s, twice, i, call.update, s.value))
  {
    var s := After(initial, count, schedule);
    ScheduleOk(initial, count, schedule);
    var more := schedule + [Attempt(i, false)];
    assert more[..|schedule|] == schedule && (more + [Attempt(i, false)])[..|more|] == more;
    hide Inv, FromCalls;
  }

  /** An idle thread that calls alone is done after one attempt. */
  lemma {:induction false} CallAlone(initial: nat, count: nat, schedule: seq<Step>, i: nat, update: Update)
    requires i < count
    ensures var s := After(initial, count, schedule);
            |s.threads| == count &&
            (s.threads[i].call.None? ==>
               Finished(s, After(initial, count, schedule + [Begin(i, update)] + [Attempt(i, false)]),
                        i, update, s.value))
  {
    ScheduleOk(initial, count, schedule);
    var more := schedule + [Begin(i, update)];
    assert more[..|schedule|] == schedule && (more + [Attempt(i, false)])[..|more|] == more;
    hide Inv, FromCalls;
  }

  lemma StartFromCalls(initial: nat, count: nat)
    ensures FromCalls(Start(initial, count), [])
  {
  }

  /** A closure that no call passed never stores, and what all passed closures keep holds throughout. */
  lemma ScheduleKeeps(initial: nat, count: nat, schedule: seq<Step>, p: nat -> bool)
    requires p(initial) && forall i :: 0 <= i < |schedule| && schedule[i].Begin? ==> Keeps(schedule[i].update, p)
    ensures p(After(initial, count, schedule).value)
  {
    ScheduleOk(initial, count, schedule);
    var s := After(initial, count, schedule);
    forall j | 0 <= j < |s.stores| ensures Keeps(s.stores[j].update, p) {
      var i :| 0 <= i < |schedule| && schedule[i].Begin? && schedule[i].update == s.stores[j].update;
    }
    ValuesSatisfy(s.stores, initial, |s.stores|, p);
  }

  // ----- what callers rely on

  /** Whatever holds of the initial value and is kept by every closure holds of every value
      stored and of the value now. */
  lemma {:induction false} ValuesSatisfy(stores: seq<Store>, initial: nat, k: nat, p: nat -> bool)
    requires Chain(stores, initial) && k <= |stores| && p(initial)
    requires forall j :: 0 <= j < |stores| ==> Keeps(stores[j].update, p)
    ensures p(ValueAt(stores, initial, k))
  {
    if k == 0 {
    } else {
      ValuesSatisfy(stores, initial, k - 1, p);
      assert stores[k - 1].before == ValueAt(stores, initial, k - 1);
      assert Keeps(stores[k - 1].update, p);
    }
  }

  ghost predicate Keeps(update: Update, p: nat -> bool) {
    forall v :: p(v) && update(v).Some? ==> p(update(v).value)
  }

  /** The quota's closure. */
  function Acquiring(count: nat, limit: nat): Update {
    (used: nat) => if used + count <= MAX64 && used + count <= limit then Some(used + count) else None
  }

  /** The closure that hands out identities. */
  function Increment(): Update {
    (v: nat) => if v + 1 <= MAX64 then Some(v + 1) else None
  }

  ghost predicate OnlyIncrements(stores: seq<Store>) {
    forall k :: 0 <= k < |stores| ==> stores[k].update == Increment()
  }

  /** Every call of the schedule increments. */
  ghost predicate Increments(schedule: seq<Step>) {
    forall i :: 0 <= i < |schedule| && schedule[i].Begin? ==> schedule[i].update == Increment()
  }

  lemma IncrementsOnly(initial: nat, count: nat, schedule: seq<Step>)
    requires Increments(schedule)
    ensures var s := After(initial, count, schedule);
            Inv(s, initial) && |s.threads| == count && OnlyIncrements(s.stores)
  {
    ScheduleOk(initial, count, schedule);
  }

  /** Under increments the k-th store finds the initial value plus k. */
  lemma {:induction false} ValuesCount(stores: seq<Store>, initial: nat, k: nat)
    requires Chain(stores, initial) && OnlyIncrements(stores) && k <= |stores|
    ensures ValueAt(stores, initial, k) == initial + k
  {
    if k == 0 {
    } else {
      ValuesCount(stores, initial, k - 1);
      assert stores[k - 1].before == ValueAt(stores, initial, k - 1);
      assert stores[k - 1].update == Increment();
    }
  }

  /** The value counts the successes. */
  lemma CountIsExact(initial: nat, count: nat, schedule: seq<Step>)
    requires Increments(schedule)
    ensures var s := After(initial, count, schedule); s.value == initial + |s.stores|
  {
    IncrementsOnly(initial, count, schedule);
    var s := After(initial, count, schedule);
    ValuesCount(s.stores, initial, |s.stores|);
  }

  /** No value is handed out twice, to one thread or to two. */
  lemma IssuedOnce(initial: nat, count: nat, schedule: seq<Step>, s: State, i: nat, j: nat, i': nat, j': nat)
    requires Increments(schedule) && s == After(initial, count, schedule)
    requires i < |s.threads| && j < |s.threads[i].issued| && i' < |s.threads| && j' < |s.threads[i'].issued|
    requires s.threads[i].issued[j] == s.threads[i'].issued[j']
    ensures i == i' && j == j'
  {
    IncrementsOnly(initial, count, schedule);
    PlaceOf(s, initial, i, j);
    PlaceOf(s, initial, i', j');
    PlacesTell(s.stores, i);
    PlacesTell(s.stores, i');
    assert Places(s.stores, i)[j] == Places(s.stores, i')[j'];
  }

  lemma PlaceOf(s: State, initial: nat, i: nat, j: nat)
    requires Inv(s, initial) && OnlyIncrements(s.stores) && i < |s.threads| && j < |s.threads[i].issued|
    ensures |Places(s.stores, i)| == |s.threads[i].issued|
    ensures s.threads[i].issued[j] == initial + Places(s.stores, i)[j]
  {
    assert Told(s.threads[i], i, s.stores);
    var k := Places(s.stores, i)[j];
    ValuesCount(s.stores, initial, k);
    assert s.stores[k].before == ValueAt(s.stores, initial, k);
  }

  /** And none between the initial value and the value now is skipped. */
  lemma NoneSkipped(initial: nat, count: nat, schedule: seq<Step>, s: State, v: nat)
    requires Increments(schedule) && s == After(initial, count, schedule) && initial <= v < s.value
    ensures exists i, j :: 0 <= i < |s.threads| && 0 <= j < |s.threads[i].issued| && s.threads[i].issued[j] == v
  {
    IncrementsOnly(initial, count, schedule);
    CountIsExact(initial, count, schedule);
    var k := v - initial;
    var i := s.stores[k].thread;
    PlacesTell(s.stores, i);
    var j :| 0 <= j < |Places(s.stores, i)| && Places(s.stores, i)[j] == k;
    assert Told(s.threads[i], i, s.stores);
    PlaceOf(s, initial, i, j);
  }

  /** The quota's unsigned subtraction, which always stores. */
  function Releasing(count: nat): Update
    requires count <= MAX64
  {
    (used: nat) => Some(if count <= used then used - count else used + MAX64 + 1 - count)
  }

  /** An idle thread alone acquires exactly what the limit leaves room for, and gives back what it
      asks to, modulo two to the 64. */
  lemma {:induction false} QuotaAlone(initial: nat, count: nat, schedule: seq<Step>, i: nat, amount: nat, limit: nat)
    requires i < count && amount <= MAX64 && limit <= MAX64
    ensures var s := After(initial, count, schedule);
            var acquired := After(initial, count,
                                  schedule + [Begin(i, Acquiring(amount, limit))] + [Attempt(i, false)]);
            var released := After(initial, count, schedule + [Begin(i, Releasing(amount))] + [Attempt(i, false)]);
            |s.threads| == count &&
            (s.threads[i].call.None? ==>
               && acquired.value == (if s.value + amount <= limit then s.value + amount else s.value)
               && released.value == (if amount <= s.value then s.value - amount
                                     else s.value + 0x1_0000_0000_0000_0000 - amount))
  {
    hide After;
    CallAlone(initial, count, schedule, i, Acquiring(amount, limit));
    CallAlone(initial, count, schedule, i, Releasing(amount));
  }

  /** A store of a quota: more is acquired, or something that was is given back. */
  ghost predicate QuotaStore(x: Store, limit: nat) {
    || (exists count :: x.update == Acquiring(count, limit))
    || (exists count: nat :: count <= MAX64 && count <= x.before && x.update == Releasing(count))
  }

  /** Acquiring and giving back in any interleaving never takes a quota above its limit. */
  lemma {:induction false} QuotaHolds(stores: seq<Store>, initial: nat, limit: nat, k: nat)
    requires Chain(stores, initial) && initial <= limit && k <= |stores|
    requires forall j :: 0 <= j < |stores| ==> QuotaStore(stores[j], limit)
    ensures ValueAt(stores, initial, k) <= limit
  {
    if k == 0 {
    } else {
      QuotaHolds(stores, initial, limit, k - 1);
      var x := stores[k - 1];
      assert x.before == ValueAt(stores, initial, k - 1);
      assert QuotaStore(x, limit);
    }
  }

  /** Any schedule, from any number of idle threads: the state it leads to, in which the stores
      are in order and every one is that of a call. */
  method Run(initial: nat, count: nat, schedule: seq<Step>) returns (s: State)
    ensures s == After(initial, count, schedule)
    ensures Inv(s, initial) && |s.threads| == count && FromCalls(s, schedule)
    ensures Increments(schedule) ==> s.value == initial + |s.stores|
  {
    hide Inv, Take, FromCalls;
    s := Start(initial, count);
    for k := 0 to |schedule|
      invariant s == After(initial, count, schedule[..k])
    {
      assert schedule[..k + 1][..k] == schedule[..k];
      s := Take(s, schedule[k]);
    }
    assert schedule[..|schedule|] == schedule;
    ScheduleOk(initial, count, schedule);
    if Increments(schedule) {
      CountIsExact(initial, count, schedule);
    }
  }
}
