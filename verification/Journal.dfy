/** The transfer journal: events are retained under shared quotas and evicted under
    pressure, and an observer never skips one silently
    (crates/application/src/projection/journal.rs, crates/application/src/projection/transfer.rs). */
module Journals {
  import opened Wrappers
  import opened Transfer

  /** One event with the boundary after it and the bytes it is charged for. */
  datatype Record = Record(after: Boundary, kind: Kind, charge: nat)

  /** `held` are the records that consumers still hold clones of. */
  datatype State = State(
    order: Order,
    records: map<nat, Record>,
    observers: set<nat>,
    nextObserver: nat,
    slots: Pair,
    bytes: Pair,
    held: map<nat, Record>)

  datatype Read = Event(record: Record) | Pending | Ended(end: End)

  datatype OpenError = OpenClosed | OpenCapacity

  // ----- what is retained

  function BoundaryAt(log: seq<Record>, i: nat, lifetime: nat): Boundary
    requires i <= |log|
  {
    if i == 0 then Start(lifetime) else log[i - 1].after
  }

  /** An event moves its boundary as its kind allows: output moves the processed offset
      forward, a resize moves the generation by one, and both advance the sequence by one. */
  predicate Succeeds(before: Boundary, r: Record) {
    && r.after.cursor == Cursor(before.cursor.lifetime, before.cursor.sequence + 1)
    && r.charge < WORD
    && match r.kind
       case Output(_) =>
         && r.after.generation == before.generation && r.after.processed.lifetime == before.processed.lifetime
         && r.after.processed.offset > before.processed.offset
       case Resize(_, generation) =>
         r.after.processed == before.processed && r.after.generation == generation == before.generation + 1
  }

  ghost predicate Linked(log: seq<Record>, lifetime: nat) {
    && (forall i {:trigger BoundaryAt(log, i, lifetime)} ::
          0 <= i < |log| ==> Succeeds(BoundaryAt(log, i, lifetime), log[i]))
    && (forall i :: 0 <= i < |log| ==> log[i].after.cursor == Cursor(lifetime, i + 1))
  }

  /** The records are exactly the events from `oldest` to the end of the log. */
  ghost predicate Kept(records: map<nat, Record>, oldest: nat, log: seq<Record>) {
    && oldest <= |log|
    && (forall i :: i in records <==> oldest <= i < |log|)
    && (forall i :: i in records ==> records[i] == log[i])
  }

  // ----- what is charged

  /** The charges of the log's first `n` events that are in `live`. */
  ghost function Charges(log: seq<Record>, live: set<nat>, n: nat): nat
    requires n <= |log|
  {
    if n == 0 then 0
    else Charges(log, live, n - 1) + if n - 1 in live then log[n - 1].charge else 0
  }

  ghost function Live(s: State): set<nat> {
    s.records.Keys + s.held.Keys
  }

  ghost predicate Matches(records: map<nat, Record>, log: seq<Record>) {
    forall i :: i in records ==> i < |log| && records[i] == log[i]
  }

  ghost predicate Payable(log: seq<Record>) {
    forall i :: 0 <= i < |log| ==> log[i].charge < WORD
  }

  ghost predicate Tally(slots: Pair, bytes: Pair, log: seq<Record>, live: set<nat>) {
    && PairOk(slots) && PairOk(bytes)
    && slots.local.used == |live|
    && bytes.local.used == Charges(log, live, |log|)
  }

  /** Every live record, and nothing else, is charged one slot and its bytes. */
  ghost predicate Charged(s: State, log: seq<Record>) {
    && Matches(s.records, log) && Matches(s.held, log) && Payable(log)
    && Tally(s.slots, s.bytes, log, Live(s))
  }

  lemma {:induction false} ChargesWithout(log: seq<Record>, live: set<nat>, i: nat, n: nat)
    requires n <= |log| && i < |log| && i in live
    ensures Charges(log, live - {i}, n) == Charges(log, live, n) - if i < n then log[i].charge else 0
  {
    if n == 0 {
    } else {
      ChargesWithout(log, live, i, n - 1);
    }
  }

  lemma {:induction false} ChargesSame(log: seq<Record>, r: Record, live: set<nat>, more: set<nat>, n: nat)
    requires n <= |log| && forall i :: 0 <= i < n ==> (i in live <==> i in more)
    ensures Charges(log + [r], more, n) == Charges(log, live, n)
  {
    if n == 0 {
    } else {
      ChargesSame(log, r, live, more, n - 1);
    }
  }

  lemma {:induction false} ChargesBound(log: seq<Record>, live: set<nat>, i: nat, n: nat)
    requires n <= |log| && i in live && i < n
    ensures log[i].charge <= Charges(log, live, n)
  {
    if i < n - 1 {
      ChargesBound(log, live, i, n - 1);
    }
  }

  /** Give back what one record was charged. */
  function Refund(s: State, charge: nat): State
    requires charge < WORD
  {
    s.(slots := Back(s.slots, 1), bytes := Back(s.bytes, charge))
  }

  /** A record leaves the journal; its charge goes with it unless a consumer holds it. */
  function Pop(s: State, i: nat): State
    requires i in s.records && s.records[i].charge < WORD
  {
    var t := s.(records := s.records - {i});
    if i in s.held then t else Refund(t, s.records[i].charge)
  }

  /** A consumer drops its last clone of a record. */
  function DropHeld(s: State, i: nat): State
    requires i in s.held ==> s.held[i].charge < WORD
  {
    if i !in s.held then s
    else
      var t := s.(held := s.held - {i});
      if i in s.records then t else Refund(t, s.held[i].charge)
  }

  lemma TallyWithout(slots: Pair, bytes: Pair, log: seq<Record>, live: set<nat>, i: nat)
    requires Tally(slots, bytes, log, live) && Payable(log) && i in live && i < |log|
    ensures Tally(Back(slots, 1), Back(bytes, log[i].charge), log, live - {i})
    ensures Others(Back(slots, 1)) == Others(slots) && Others(Back(bytes, log[i].charge)) == Others(bytes)
  {
    hide Charges;
    ChargesWithout(log, live, i, |log|);
    ChargesBound(log, live, i, |log|);
    assert |live - {i}| == |live| - 1;
  }

  lemma TallyWith(slots: Pair, bytes: Pair, log: seq<Record>, live: set<nat>, r: Record)
    requires Tally(slots, bytes, log, live) && r.charge < WORD && forall i :: i in live ==> i < |log|
    ensures Tally(slots, bytes, log + [r], live)
    ensures SharedAndLocal(slots, 1).Some? && SharedAndLocal(bytes, r.charge).Some? ==>
              Tally(SharedAndLocal(slots, 1).value, SharedAndLocal(bytes, r.charge).value, log + [r], live + {|log|})
  {
    var n := |log|;
    ChargesSame(log, r, live, live, n);
    ChargesSame(log, r, live, live + {n}, n);
    assert n !in live;
    assert |live + {n}| == |live| + 1;
    assert Charges(log + [r], live, n + 1) == Charges(log, live, n);
    assert Charges(log + [r], live + {n}, n + 1) == Charges(log, live, n) + r.charge;
  }

  lemma PopOk(s: State, log: seq<Record>, i: nat)
    requires Charged(s, log) && i in s.records
    ensures s.records[i].charge < WORD
    ensures Charged(Pop(s, i), log) && SameShare(s, Pop(s, i))
    ensures Pop(s, i).records == s.records - {i} && Pop(s, i).held == s.held
  {
    hide Tally, Others, Back, PairOk;
    var live := s.records.Keys - {i} + s.held.Keys;
    if i in s.held {
      assert live == Live(s);
    } else {
      assert live == Live(s) - {i};
      TallyWithout(s.slots, s.bytes, log, Live(s), i);
    }
    assert Live(Pop(s, i)) == live;
  }

  lemma DropHeldOk(s: State, log: seq<Record>, i: nat)
    requires Charged(s, log)
    ensures i in s.held ==> s.held[i].charge < WORD
    ensures Charged(DropHeld(s, i), log) && SameShare(s, DropHeld(s, i)) && DropHeld(s, i).records == s.records
  {
    hide Tally, Others, Back, PairOk;
    if i in s.held {
      var live := s.records.Keys + (s.held.Keys - {i});
      if i in s.records {
        assert live == Live(s);
      } else {
        assert live == Live(s) - {i};
        TallyWithout(s.slots, s.bytes, log, Live(s), i);
      }
      assert Live(DropHeld(s, i)) == live;
    }
  }

  /** The session's own steps leave the rest of the state and the other sessions' shares alone. */
  ghost predicate SameShare(s: State, t: State) {
    && Others(s.slots) == Others(t.slots) && Others(s.bytes) == Others(t.bytes)
    && t.order == s.order && t.observers == s.observers && t.nextObserver == s.nextObserver
  }

  // ----- the journal's invariant

  /** Everything but the charges, with the log's events up to the boundary. */
  ghost predicate Ordered(s: State, log: seq<Record>, lifetime: nat) {
    && s.order.boundary == BoundaryAt(log, |log|, lifetime)
    && Linked(log, lifetime)
    && (Readable(s.order) ==> Kept(s.records, s.order.oldest, log))
    && (!Readable(s.order) ==> s.records == map[])
    && (Readable(s.order) && s.observers == {} ==> s.order.oldest == |log|)
    && (s.order.end.Some? ==> s.order.end.value.boundary == s.order.boundary)
    && (forall id :: id in s.observers ==> id < s.nextObserver)
  }

  ghost predicate Sound(s: State, log: seq<Record>, lifetime: nat) {
    Ordered(s, log, lifetime) && Charged(s, log)
  }

  /** While an event is appended the boundary is already past it and the log is not. */
  ghost predicate Evicting(s: State, log: seq<Record>, lifetime: nat, after: Boundary) {
    && Linked(log, lifetime) && Kept(s.records, s.order.oldest, log) && Charged(s, log)
    && s.order.boundary == after && after.cursor == Cursor(lifetime, |log| + 1)
    && AcceptsEvents(s.order) && s.observers != {}
    && (forall id :: id in s.observers ==> id < s.nextObserver)
  }

  // ----- pressure from outside the journal's lock

  /** Other sessions settle on other shares, or a consumer drops a record. */
  datatype Pressure = OthersUse(slots: nat, bytes: nat) | ConsumerDrops(i: nat)

  function WithOthers(p: Pair, used: nat): Pair {
    if p.local.used + used <= p.shared.limit then p.(shared := p.shared.(used := p.local.used + used)) else p
  }

  function Press(s: State, e: Pressure): State
    requires forall i :: i in s.held ==> s.held[i].charge < WORD
  {
    match e
    case OthersUse(slots, bytes) => s.(slots := WithOthers(s.slots, slots), bytes := WithOthers(s.bytes, bytes))
    case ConsumerDrops(i) => DropHeld(s, i)
  }

  lemma PressOk(s: State, log: seq<Record>, e: Pressure)
    requires Charged(s, log)
    ensures Charged(Press(s, e), log)
    ensures Press(s, e).records == s.records && Press(s, e).order == s.order
    ensures Press(s, e).observers == s.observers && Press(s, e).nextObserver == s.nextObserver
  {
    match e {
      case OthersUse(slots, bytes) => assert Live(Press(s, e)) == Live(s);
      case ConsumerDrops(i) => DropHeldOk(s, log, i);
    }
  }

  // ----- one attempt to charge a new record

  /** A slot first and then the bytes; refused bytes give the slot back. */
  function Attempt(s: State, count: nat): (r: Option<State>)
    requires Fits(s) && count < WORD
  {
    match SharedAndLocal(s.slots, 1)
    case None => None
    case Some(slots) =>
      match SharedAndLocal(s.bytes, count)
      case None => assert Back(slots, 1) == s.slots; None
      case Some(bytes) => Some(s.(slots := slots, bytes := bytes))
  }

  /** Both halves of both quotas have room for one more record. */
  predicate Affords(slots: Pair, bytes: Pair, count: nat) {
    && slots.shared.used + 1 <= slots.shared.limit && slots.local.used + 1 <= slots.local.limit
    && bytes.shared.used + count <= bytes.shared.limit && bytes.local.used + count <= bytes.local.limit
  }

  lemma AttemptIff(s: State, count: nat)
    requires Fits(s) && count < WORD
    ensures Attempt(s, count).Some? <==> Affords(s.slots, s.bytes, count)
  {
  }

  lemma KeptExtends(records: map<nat, Record>, oldest: nat, log: seq<Record>, r: Record)
    requires Kept(records, oldest, log)
    ensures Kept(records[|log| := r], oldest, log + [r])
  {
  }

  lemma KeptEvicts(records: map<nat, Record>, oldest: nat, log: seq<Record>)
    requires Kept(records, oldest, log) && records != map[]
    ensures oldest in records && forall i :: i in records ==> oldest <= i
    ensures Kept(records - {oldest}, oldest + 1, log)
  {
    var i :| i in records;
  }

  lemma MatchesExtends(records: map<nat, Record>, log: seq<Record>, r: Record)
    requires Matches(records, log)
    ensures Matches(records, log + [r]) && Matches(records[|log| := r], log + [r])
  {
  }

  lemma LinkedExtends(log: seq<Record>, lifetime: nat, r: Record)
    requires Linked(log, lifetime) && Succeeds(BoundaryAt(log, |log|, lifetime), r)
    ensures Linked(log + [r], lifetime) && BoundaryAt(log + [r], |log| + 1, lifetime) == r.after
    ensures r.after.cursor == Cursor(lifetime, |log| + 1) && r.charge < WORD
  {
    var more := log + [r];
    forall i | 0 <= i < |more| ensures Succeeds(BoundaryAt(more, i, lifetime), more[i]) {
      assert BoundaryAt(more, i, lifetime) == BoundaryAt(log, i, lifetime);
    }
    if |log| > 0 {
      assert log[|log| - 1].after.cursor == Cursor(lifetime, |log|);
    }
  }

  lemma PayableExtends(log: seq<Record>, r: Record)
    requires Payable(log) && r.charge < WORD
    ensures Payable(log + [r])
  {
  }

  lemma LiveBelow(s: State, log: seq<Record>)
    requires Matches(s.records, log) && Matches(s.held, log)
    ensures forall i :: i in Live(s) ==> i < |log|
  {
  }

  lemma ChargedHole(s: State, t: State, log: seq<Record>, r: Record)
    requires Charged(s, log) && r.charge < WORD
    requires t.held == s.held && t.records == s.records && t.slots == s.slots && t.bytes == s.bytes
    ensures Charged(t, log + [r])
  {
    hide Tally, SharedAndLocal, PairOk, Matches, Payable;
    LiveBelow(s, log);
    PayableExtends(log, r);
    MatchesExtends(s.records, log, r);
    MatchesExtends(s.held, log, r);
    TallyWith(s.slots, s.bytes, log, Live(s), r);
    assert Live(t) == Live(s);
  }

  lemma LiveInsert(s: State, t: State, i: nat, r: Record)
    requires t.held == s.held && t.records == s.records[i := r]
    ensures Live(t) == Live(s) + {i}
  {
  }

  lemma ChargedInsert(s: State, t: State, log: seq<Record>, r: Record)
    requires Charged(s, log) && r.charge < WORD && PairOk(s.slots) && PairOk(s.bytes)
    requires t.held == s.held && t.records == s.records[|log| := r]
    requires SharedAndLocal(s.slots, 1) == Some(t.slots) && SharedAndLocal(s.bytes, r.charge) == Some(t.bytes)
    ensures Charged(t, log + [r])
  {
    hide Tally, SharedAndLocal, PairOk, Matches, Payable;
    LiveBelow(s, log);
    PayableExtends(log, r);
    MatchesExtends(s.records, log, r);
    MatchesExtends(s.held, log, r);
    TallyWith(s.slots, s.bytes, log, Live(s), r);
    LiveInsert(s, t, |log|, r);
  }

  /** The record enters at the end of the log with its charges. */
  function Insert(s: State, r: Record): State
    requires r.after.cursor.sequence > 0
  {
    s.(records := s.records[r.after.cursor.sequence - 1 := r])
  }

  lemma InsertOk(s: State, log: seq<Record>, lifetime: nat, r: Record)
    requires Evicting(s, log, lifetime, r.after) && r.charge < WORD && PairOk(s.slots) && PairOk(s.bytes)
    requires Attempt(s, r.charge).Some? && Succeeds(BoundaryAt(log, |log|, lifetime), r)
    ensures r.after.cursor.sequence > 0
    ensures Sound(Insert(Attempt(s, r.charge).value, r), log + [r], lifetime)
  {
    hide Kept, Linked, Charged, SharedAndLocal, Succeeds, PairOk, Back;
    KeptExtends(s.records, s.order.oldest, log, r);
    LinkedExtends(log, lifetime, r);
    ChargedInsert(s, Insert(Attempt(s, r.charge).value, r), log, r);
  }

  /** Without its record, the event is a hole: the log has it and nothing is retained. */
  lemma HoleOk(s: State, log: seq<Record>, lifetime: nat, r: Record)
    requires Charged(s, log) && s.records == map[] && Linked(log, lifetime)
    requires s.order.boundary == r.after && AcceptsEvents(s.order) && s.order.oldest <= |log|
    requires forall id :: id in s.observers ==> id < s.nextObserver
    requires Succeeds(BoundaryAt(log, |log|, lifetime), r)
    ensures Sound(s.(order := DiscardBefore(s.order, r.after.cursor)), log + [r], lifetime)
  {
    hide Linked, Charged, Succeeds;
    LinkedExtends(log, lifetime, r);
    ChargedHole(s, s.(order := DiscardBefore(s.order, r.after.cursor)), log, r);
  }

  /** The oldest record goes, and the order says so. */
  function Evict(s: State, i: nat): State
    requires i in s.records && s.records[i].charge < WORD
  {
    Pop(s, i).(order := DiscardBefore(s.order, s.records[i].after.cursor))
  }

  lemma EvictOk(s: State, log: seq<Record>, lifetime: nat, after: Boundary)
    requires Evicting(s, log, lifetime, after) && s.records != map[]
    ensures var i := s.order.oldest;
            && i in s.records && s.records[i].charge < WORD && (forall j :: j in s.records ==> i <= j)
            && Evicting(Evict(s, i), log, lifetime, after) && SameShare(s, Evict(s, i).(order := s.order))
            && Evict(s, i).records == s.records - {i}
  {
    hide Kept, Linked, Charged, Pop, Others;
    var i := s.order.oldest;
    KeptEvicts(s.records, i, log);
    PopOk(s, log, i);
    KeptAt(s.records, i, log, lifetime, i);
    ChargedApart(Pop(s, i), Evict(s, i), log);
    assert Evict(s, i).order.oldest == i + 1;
  }

  lemma KeptAt(records: map<nat, Record>, oldest: nat, log: seq<Record>, lifetime: nat, i: nat)
    requires Kept(records, oldest, log) && Linked(log, lifetime) && i in records
    ensures i < |log| && records[i] == log[i] && records[i].after.cursor == Cursor(lifetime, i + 1)
  {
  }

  /** The charges do not depend on the order. */
  lemma ChargedApart(s: State, t: State, log: seq<Record>)
    requires Charged(s, log) && t.records == s.records && t.held == s.held && t.slots == s.slots && t.bytes == s.bytes
    ensures Charged(t, log)
  {
    assert Live(t) == Live(s);
  }

  // ----- reading

  function ReadAt(s: State, id: nat, start: Cursor, cursor: Cursor): Result<Read, TransferError> {
    if id !in s.observers then Err(Closed)
    else if Validate(s.order, cursor).Some? then Err(Validate(s.order, cursor).value)
    else if cursor.sequence < start.sequence then Err(ResyncRequired(start))
    else if cursor.sequence in s.records then Ok(Event(s.records[cursor.sequence]))
    else if cursor == s.order.boundary.cursor then Ok(if s.order.end.Some? then Ended(s.order.end.value) else Pending)
    else Err(ResyncRequired(s.order.boundary.cursor))
  }

  /** A read at a valid cursor is decided by the log alone: before the oldest retained
      event or the observer's start it asks for a resync, before the end of the log it
      is the very event at the cursor, and only at the end is it pending or the end. */
  lemma ReadTells(s: State, log: seq<Record>, lifetime: nat, id: nat, start: Cursor, cursor: Cursor)
    requires Sound(s, log, lifetime) && id in s.observers && Readable(s.order)
    requires cursor.lifetime == lifetime && cursor.sequence <= |log|
    ensures var r := ReadAt(s, id, start, cursor);
            && (cursor.sequence < s.order.oldest ==> r == Err(ResyncRequired(Cursor(lifetime, s.order.oldest))))
            && (s.order.oldest <= cursor.sequence < start.sequence ==> r == Err(ResyncRequired(start)))
            && (s.order.oldest <= cursor.sequence && start.sequence <= cursor.sequence ==>
                  if cursor.sequence < |log| then r == Ok(Event(log[cursor.sequence]))
                  else if s.order.end.Some? then
                    r == Ok(Ended(s.order.end.value)) && s.order.end.value.boundary == BoundaryAt(log, |log|, lifetime)
                  else r == Ok(Pending))
  {
    hide Charged;
    BoundaryIs(s, log, lifetime);
  }

  lemma BoundaryIs(s: State, log: seq<Record>, lifetime: nat)
    requires Ordered(s, log, lifetime)
    ensures s.order.boundary.cursor == Cursor(lifetime, |log|)
  {
  }

  /** The other answers: an unknown observer, a closed or failed journal, a foreign or future cursor. */
  lemma ReadRefuses(s: State, log: seq<Record>, lifetime: nat, id: nat, start: Cursor, cursor: Cursor)
    requires Sound(s, log, lifetime)
    ensures var r := ReadAt(s, id, start, cursor);
            && (id !in s.observers || s.order.closed ==> r == Err(Closed))
            && (id in s.observers && !s.order.closed && s.order.unavailable ==> r == Err(Unavailable))
            && (id in s.observers && Readable(s.order) ==>
                  && (cursor.lifetime != lifetime <==> r == Err(ForeignLifetime))
                  && (cursor.lifetime == lifetime ==> (cursor.sequence > |log| <==> r == Err(FutureCursor))))
  {
    hide Charged;
    BoundaryIs(s, log, lifetime);
  }

  /** A consumer holds a clone of the event it read. */
  lemma HoldOk(s: State, log: seq<Record>, i: nat)
    requires Charged(s, log) && i in s.records
    ensures Charged(s.(held := s.held[i := s.records[i]]), log)
  {
    hide Tally;
    assert Live(s.(held := s.held[i := s.records[i]])) == Live(s);
  }

  // ----- a follower

  /** An observer's user: it starts at a boundary, applies each event it reads and moves
      its cursor to the boundary after that event. */
  datatype Follower = Follower(id: nat, start: Boundary, cursor: Cursor, applied: seq<Record>)

  /** It applied exactly the events from its start to its cursor, once each and in order. */
  ghost predicate Faithful(f: Follower, log: seq<Record>, lifetime: nat) {
    && f.start.cursor.sequence <= f.cursor.sequence <= |log|
    && f.start == BoundaryAt(log, f.start.cursor.sequence, lifetime)
    && f.cursor.lifetime == lifetime
    && f.applied == log[f.start.cursor.sequence..f.cursor.sequence]
  }

  lemma FaithfulGrows(f: Follower, log: seq<Record>, more: seq<Record>, lifetime: nat)
    requires Faithful(f, log, lifetime) && log <= more
    ensures Faithful(f, more, lifetime)
  {
    assert more[..|log|] == log;
  }

  function Applying(f: Follower, r: Record): Follower {
    f.(cursor := r.after.cursor, applied := f.applied + [r])
  }

  lemma ApplyingOk(f: Follower, log: seq<Record>, lifetime: nat)
    requires Faithful(f, log, lifetime) && Linked(log, lifetime) && f.cursor.sequence < |log|
    ensures Faithful(Applying(f, log[f.cursor.sequence]), log, lifetime)
    ensures Applying(f, log[f.cursor.sequence]).cursor.sequence == f.cursor.sequence + 1
  {
    var i := f.cursor.sequence;
    assert log[i].after.cursor == Cursor(lifetime, i + 1);
    assert log[f.start.cursor.sequence..i + 1] == log[f.start.cursor.sequence..i] + [log[i]];
  }

  // ----- the journal

  function Advanced(o: Order, kind: Kind, processed: Option<ReplayCursor>): Result<Order, TransferError> {
    match kind
    case Output(_) => if processed.None? then Err(Unavailable) else OrderOutput(o, processed.value)
    case Resize(_, generation) => OrderResized(o, generation)
  }

  /** What the payload of an event is charged: an output's buffer, nothing for a resize. */
  function Payload(kind: Kind, capacity: nat): nat {
    if kind.Output? then capacity else 0
  }

  /** An event is taken exactly if it moves the stream on: output of the same lifetime and a later
      offset, or the next generation, and the counters have room. */
  lemma AdvancedIff(o: Order, kind: Kind, processed: Option<ReplayCursor>)
    requires AcceptsEvents(o)
    ensures Advanced(o, kind, processed).Ok? <==>
              && o.boundary.cursor.sequence + 1 < WORD
              && (kind.Output? ==> processed.Some? && processed.value.lifetime == o.boundary.processed.lifetime
                                   && processed.value.offset > o.boundary.processed.offset)
              && (kind.Resize? ==> kind.generation == o.boundary.generation + 1 < WORD)
    ensures Advanced(o, kind, processed).Ok? && kind.Output? ==>
              Advanced(o, kind, processed).value.boundary.processed == processed.value
  {
  }

  lemma AdvancedOk(o: Order, kind: Kind, processed: Option<ReplayCursor>, charge: nat)
    requires AcceptsEvents(o) && Advanced(o, kind, processed).Ok? && charge < WORD
    ensures var next := Advanced(o, kind, processed).value;
            Succeeds(o.boundary, Record(next.boundary, kind, charge)) && next == o.(boundary := next.boundary)
  {
  }

  lemma FewerRecords(records: map<nat, Record>, i: nat)
    requires i in records
    ensures |records - {i}| + 1 == |records|
  {
    assert (records - {i}).Keys == records.Keys - {i};
    assert |records - {i}| == |(records - {i}).Keys| && |records| == |records.Keys|;
  }

  /** The first key of the ordered map. */
  method First(records: map<nat, Record>, ghost oldest: nat) returns (first: nat)
    requires oldest in records && forall j :: j in records ==> oldest <= j
    ensures first == oldest
  {
    first :| first in records && forall j :: j in records ==> first <= j;
  }

  class Journal {
    const lifetime: nat
    var s: State
    /** Every event ever accepted. */
    ghost var log: seq<Record>

    ghost predicate Valid()
      reads this
    {
      Sound(s, log, lifetime)
    }

    constructor (lifetime: nat, slots: Pair, bytes: Pair)
      requires PairOk(slots) && PairOk(bytes) && slots.local.used == 0 && bytes.local.used == 0
      ensures Valid() && log == [] && this.lifetime == lifetime && s.observers == {}
      ensures s.order == NewOrder(lifetime) && s.nextObserver == 0
    {
      this.lifetime := lifetime;
      s := State(NewOrder(lifetime), map[], {}, 0, slots, bytes, map[]);
      log := [];
    }

    method Open() returns (r: Result<(nat, Boundary), OpenError>)
      requires Valid()
      modifies this`s
      ensures Valid()
      ensures r == Err(OpenClosed) <==> old(s).order.closed
      ensures r == Err(OpenCapacity) <==>
                !old(s).order.closed && (old(s).order.unavailable || old(s).nextObserver + 1 >= WORD)
      ensures r.Ok? <==> Readable(old(s).order) && old(s).nextObserver + 1 < WORD
      ensures r.Err? ==> s == old(s)
      ensures r.Ok? ==>
                && r.value.1 == BoundaryAt(log, |log|, lifetime)
                && r.value.0 == old(s).nextObserver && r.value.0 !in old(s).observers
                && s == old(s).(observers := old(s).observers + {r.value.0}, nextObserver := r.value.0 + 1)
    {
      hide Charged, Kept, Linked;
      if !Readable(s.order) {
        return Err(if s.order.closed then OpenClosed else OpenCapacity);
      }
      var id := s.nextObserver;
      if id + 1 >= WORD {
        return Err(OpenCapacity);
      }
      ghost var before := s;
      s := s.(observers := s.observers + {id}, nextObserver := id + 1);
      ChargedApart(before, s, log);
      return Ok((id, s.order.boundary));
    }

    /** Read at the follower's cursor; an event is applied and its record held. */
    method Follow(f: Follower) returns (g: Follower, r: Result<Read, TransferError>)
      requires Valid() && Faithful(f, log, lifetime) && f.id in s.observers
      modifies this`s
      ensures Valid() && Faithful(g, log, lifetime) && g.id == f.id && g.start == f.start
      ensures s == old(s).(held := s.held)
      ensures r == Err(Closed) <==> s.order.closed
      ensures r == Err(Unavailable) <==> s.order.unavailable && !s.order.closed
      ensures r != Err(ForeignLifetime) && r != Err(FutureCursor)
      // A resync is asked for exactly when the event at the cursor is gone.
      ensures Readable(s.order) ==> (r.Err? <==> f.cursor.sequence < s.order.oldest)
      ensures r.Ok? ==> (r.value.Event? <==> f.cursor.sequence < |log|)
      ensures r.Ok? && r.value.Event? ==> g.applied == f.applied + [log[f.cursor.sequence]]
      ensures !(r.Ok? && r.value.Event?) ==> g == f
      ensures r.Ok? && r.value.Ended? ==> r.value.end.boundary == BoundaryAt(log, |log|, lifetime)
    {
      hide Charged, Kept, Linked;
      ReadRefuses(s, log, lifetime, f.id, f.start.cursor, f.cursor);
      if Readable(s.order) {
        ReadTells(s, log, lifetime, f.id, f.start.cursor, f.cursor);
      }
      r := ReadAt(s, f.id, f.start.cursor, f.cursor);
      g := f;
      if r.Ok? && r.value.Event? {
        ApplyingOk(f, log, lifetime);
        HoldOk(s, log, f.cursor.sequence);
        g := Applying(f, r.value.record);
        s := s.(held := s.held[f.cursor.sequence := r.value.record]);
      }
    }

    /** Every record leaves the journal. */
    method ClearRecords()
      requires Charged(s, log)
      modifies this`s
      ensures Charged(s, log) && SameShare(old(s), s) && s.records == map[] && s.held == old(s).held
    {
      hide Charged, Others, Pop;
      while s.records != map[]
        invariant Charged(s, log) && SameShare(old(s), s) && s.held == old(s).held
        decreases |s.records|
      {
        var i :| i in s.records;
        PopOk(s, log, i);
        assert |s.records - {i}| < |s.records|;
        s := Pop(s, i);
      }
    }

    /** What happens outside the journal's lock. */
    method Pressed(pressure: seq<Pressure>)
      requires Charged(s, log)
      modifies this`s
      ensures Charged(s, log) && s == old(s).(held := s.held, slots := s.slots, bytes := s.bytes)
      ensures pressure == [] ==> s == old(s)
    {
      hide Charged;
      for k := 0 to |pressure|
        invariant Charged(s, log) && s == old(s).(held := s.held, slots := s.slots, bytes := s.bytes)
        invariant k == 0 ==> s == old(s)
      {
        FitsOk(s, log);
        PressOk(s, log, pressure[k]);
        s := Press(s, pressure[k]);
      }
    }

    method EvictFirst(after: Boundary)
      requires Evicting(s, log, lifetime, after) && s.records != map[]
      modifies this`s
      ensures Evicting(s, log, lifetime, after) && |s.records| + 1 == |old(s).records|
      ensures s.observers == old(s).observers && s.nextObserver == old(s).nextObserver
    {
      hide Evicting, Charged, Kept, Linked, PairOk, Pop, Others;
      EvictOk(s, log, lifetime, after);
      var first := First(s.records, s.order.oldest);
      FewerRecords(s.records, first);
      s := Evict(s, first);
    }

    /** Evict the oldest records until a new one can be charged, or none is left. Each
        attempt comes after whatever other sessions and consumers did meanwhile. */
    method Charge(count: nat, after: Boundary, pressure: seq<seq<Pressure>>)
      returns (leased: Option<State>, ghost prior: State)
      requires Evicting(s, log, lifetime, after) && count < WORD
      modifies this`s
      ensures Evicting(s, log, lifetime, after)
      ensures s.observers == old(s).observers && s.nextObserver == old(s).nextObserver
      ensures Fits(s) && leased == Attempt(s, count)
      ensures leased.None? ==> s.records == map[]
      ensures pressure == [] && Affords(old(s).slots, old(s).bytes, count) ==> s == old(s)
      // The last record evicted had to go.
      ensures pressure == [] && s != old(s) ==>
                !Affords(prior.slots, prior.bytes, count) && |prior.records| == |s.records| + 1
    {
      hide Evicting, Fits, Attempt, Affords;
      var k := 0;
      prior := s;
      while true
        invariant Evicting(s, log, lifetime, after)
        invariant pressure == [] && k > 0 ==>
                    !Affords(prior.slots, prior.bytes, count) && |prior.records| == |s.records| + 1
        invariant s.observers == old(s).observers && s.nextObserver == old(s).nextObserver
        invariant k == 0 ==> s == old(s)
        invariant pressure == [] && k > 0 ==> !Affords(old(s).slots, old(s).bytes, count)
        decreases |s.records|
      {
        ghost var before := s;
        EvictingFits(s, log, lifetime, after);
        Pressed(if k < |pressure| then pressure[k] else []);
        EvictingApart(before, s, log, lifetime, after);
        leased := Attempt(s, count);
        AttemptIff(s, count);
        if leased.Some? || s.records == map[] {
          return;
        }
        prior := s;
        EvictFirst(after);
        k := k + 1;
      }
    }

    method Append(kind: Kind, processed: Option<ReplayCursor>, capacity: nat, pressure: seq<seq<Pressure>>)
      requires Valid() && capacity < WORD
      modifies this
      ensures Valid() && s.observers == old(s).observers && s.nextObserver == old(s).nextObserver
      ensures !AcceptsEvents(old(s).order) ==> s == old(s) && log == old(log)
      ensures AcceptsEvents(old(s).order) && Advanced(old(s).order, kind, processed).Err? ==>
                log == old(log) && s.order == old(s).order.(unavailable := true)
      ensures AcceptsEvents(old(s).order) && Advanced(old(s).order, kind, processed).Ok? ==>
                && log == old(log) + [Record(Advanced(old(s).order, kind, processed).value.boundary, kind,
                                             Payload(kind, capacity))]
                && log[|old(log)|].charge == (if kind.Output? then capacity else 0)
                && s.order == Advanced(old(s).order, kind, processed).value.(oldest := s.order.oldest)
      // Nothing is evicted for an event that fits.
      ensures AcceptsEvents(old(s).order) && Advanced(old(s).order, kind, processed).Ok? && old(s).observers != {} ==>
                (pressure == [] && Affords(old(s).slots, old(s).bytes, Payload(kind, capacity)) ==>
                   s.order.oldest == old(s).order.oldest)
    {
      hide Charged, Kept, Linked, PairOk, Attempt, Affords, Advanced, Succeeds;
      if !AcceptsEvents(s.order) {
        return;
      }
      ghost var before := s;
      var next := Advanced(s.order, kind, processed);
      if next.Err? {
        s := s.(order := s.order.(unavailable := true));
        ChargedApart(before, s, log);
        ClearRecords();
        return;
      }
      var count := Payload(kind, capacity);
      var r := Record(next.value.boundary, kind, count);
      AdvancedOk(s.order, kind, processed, count);
      s := s.(order := next.value);
      ChargedApart(before, s, log);
      if s.observers == {} {
        KeptNothing(s.records, s.order.oldest, log);
        HoleOk(s, log, lifetime, r);
        s := s.(order := DiscardBefore(s.order, r.after.cursor));
      } else {
        SucceedsAt(log, lifetime, r);
        var leased;
        ghost var prior;
        leased, prior := Charge(count, r.after, pressure);
        EvictingFits(s, log, lifetime, r.after);
        AttemptIff(s, count);
        if leased.Some? {
          AttemptKeeps(s, count);
          InsertOk(s, log, lifetime, r);
          s := Insert(leased.value, r);
        } else {
          ClearRecords();
          HoleOk(s, log, lifetime, r);
          s := s.(order := DiscardBefore(s.order, r.after.cursor));
        }
      }
      log := log + [r];
    }

    /** An observer goes; with the last one everything is forgotten. */
    method Remove(id: nat)
      requires Valid()
      modifies this`s
      ensures Valid() && s.observers == old(s).observers - {id} && s.nextObserver == old(s).nextObserver
      ensures s.order == old(s).order.(oldest := s.order.oldest)
      ensures s.observers == {} ==> s.records == map[] && (Readable(s.order) ==> s.order.oldest == |log|)
      ensures s.observers != {} ==> s == old(s).(observers := s.observers)
    {
      hide Charged, Linked;
      ghost var before := s;
      s := s.(observers := s.observers - {id});
      ChargedApart(before, s, log);
      BoundaryIs(before, log, lifetime);
      if s.observers == {} {
        ClearRecords();
        ghost var cleared := s;
        s := s.(order := DiscardBefore(s.order, s.order.boundary.cursor));
        ChargedApart(cleared, s, log);
      }
    }

    method End(drain: Option<nat>, failure: Option<nat>)
      requires Valid()
      modifies this`s
      ensures Valid() && s == old(s).(order := old(s).order.(end := s.order.end))
      // The first end that says how it came about stands, at the end of the log, and no event follows it.
      ensures old(s).order.end.Some? ==> s == old(s)
      ensures old(s).order.end.None? ==>
                s.order.end == if Readable(s.order) && (drain.Some? || failure.Some?)
                               then Some(Ending(BoundaryAt(log, |log|, lifetime), drain, failure)) else None
      ensures s.order.end.Some? ==>
                !AcceptsEvents(s.order) && s.order.end.value.boundary == BoundaryAt(log, |log|, lifetime)
    {
      hide Charged, Kept, Linked;
      ghost var before := s;
      s := s.(order := Seal(s.order, drain, failure));
      ChargedApart(before, s, log);
    }

    method Close()
      requires Valid()
      modifies this`s
      ensures Valid() && s.order == old(s).order.(closed := true) && s.records == map[]
      ensures s.observers == old(s).observers && s.nextObserver == old(s).nextObserver
    {
      hide Charged, Kept, Linked;
      ghost var before := s;
      s := s.(order := s.order.(closed := true));
      ChargedApart(before, s, log);
      ClearRecords();
    }
  }

  /** When the journal and its consumers hold nothing, nothing is charged. */
  lemma {:induction false} NothingHeldNothingCharged(s: State, log: seq<Record>)
    requires Charged(s, log) && s.records == map[] && s.held == map[]
    ensures s.slots.local.used == 0 && s.bytes.local.used == 0
  {
    assert Live(s) == {};
    NoCharges(log, |log|);
  }

  lemma {:induction false} NoCharges(log: seq<Record>, n: nat)
    requires n <= |log|
    ensures Charges(log, {}, n) == 0
  {
    if n == 0 {
    } else {
      NoCharges(log, n - 1);
    }
  }

  // ----- every run

  datatype Step =
    | OpenOne
    | FollowOne(k: nat)
    | RemoveOne(k: nat)
    | AppendOne(kind: Kind, processed: Option<ReplayCursor>, capacity: nat, pressure: seq<seq<Pressure>>)
    | Meanwhile(events: seq<Pressure>)
    | EndOnce(drain: Option<nat>, failure: Option<nat>)
    | CloseNow

  ghost predicate AllFaithful(followers: seq<Follower>, log: seq<Record>, lifetime: nat) {
    forall k :: 0 <= k < |followers| ==> Faithful(followers[k], log, lifetime)
  }

  /** What the steps alone decide: the events accepted, the observers opened and how the
      stream ends, whatever the quotas make of it. */
  datatype Course = Course(order: Order, log: seq<Record>, starts: seq<Boundary>)

  function Proceed(c: Course, step: Step): Course {
    match step
    case OpenOne =>
      if Readable(c.order) && |c.starts| + 1 < WORD then c.(starts := c.starts + [c.order.boundary]) else c
    case AppendOne(kind, processed, capacity, _) =>
      if capacity >= WORD || !AcceptsEvents(c.order) then c
      else
        var next := Advanced(c.order, kind, processed);
        if next.Err? then c.(order := c.order.(unavailable := true))
        else c.(order := next.value, log := c.log + [Record(next.value.boundary, kind, Payload(kind, capacity))])
    case EndOnce(drain, failure) => c.(order := Seal(c.order, drain, failure))
    case CloseNow => c.(order := c.order.(closed := true))
    case FollowOne(_) => c
    case RemoveOne(_) => c
    case Meanwhile(_) => c
  }

  function CourseOf(steps: seq<Step>, lifetime: nat): Course {
    if steps == [] then Course(NewOrder(lifetime), [], [])
    else Proceed(CourseOf(steps[..|steps| - 1], lifetime), steps[|steps| - 1])
  }

  /** The journal and its followers are where the steps take them. */
  ghost predicate OnCourse(s: State, log: seq<Record>, followers: seq<Follower>, c: Course) {
    && s.order == c.order.(oldest := s.order.oldest) && log == c.log
    && s.nextObserver == |c.starts| == |followers|
    && forall k :: 0 <= k < |followers| ==> followers[k].start == c.starts[k]
  }

  lemma AdvancedApart(o: Order, p: Order, kind: Kind, processed: Option<ReplayCursor>)
    requires o == p.(oldest := o.oldest)
    ensures Advanced(o, kind, processed).Err? <==> Advanced(p, kind, processed).Err?
    ensures Advanced(o, kind, processed).Ok? ==>
              Advanced(o, kind, processed).value == Advanced(p, kind, processed).value.(oldest := o.oldest)
  {
  }

  /** Whatever happens in whatever order, the log is exactly the events the steps append while
      the stream is open, every follower starts where it was opened and has applied exactly the
      events between its start and its cursor, and what the quotas charge is what the journal
      and its consumers still hold. */
  method Run(lifetime: nat, slots: Pair, bytes: Pair, steps: seq<Step>) returns (j: Journal, followers: seq<Follower>)
    requires PairOk(slots) && PairOk(bytes) && slots.local.used == 0 && bytes.local.used == 0
    ensures j.Valid() && j.lifetime == lifetime
    ensures OnCourse(j.s, j.log, followers, CourseOf(steps, lifetime))
    ensures AllFaithful(followers, j.log, lifetime)
  {
    hide Sound, Proceed, Faithful;
    j := new Journal(lifetime, slots, bytes);
    followers := [];
    for n := 0 to |steps|
      invariant fresh(j) && j.Valid() && j.lifetime == lifetime && AllFaithful(followers, j.log, lifetime)
      invariant OnCourse(j.s, j.log, followers, CourseOf(steps[..n], lifetime))
    {
      followers := Take(j, followers, steps[n], CourseOf(steps[..n], lifetime));
      assert steps[..n + 1][..n] == steps[..n];
    }
    assert steps[..|steps|] == steps;
  }

  /** Only what is retained or charged changed. */
  lemma CourseStays(s: State, log: seq<Record>, followers: seq<Follower>, c: Course, t: State, next: seq<Follower>)
    requires OnCourse(s, log, followers, c)
    requires t.order == s.order.(oldest := t.order.oldest) && t.nextObserver == s.nextObserver
    requires |next| == |followers| && forall k :: 0 <= k < |next| ==> next[k].start == followers[k].start
    ensures OnCourse(t, log, next, c)
  {
  }

  lemma CourseOpens(s: State, log: seq<Record>, followers: seq<Follower>, c: Course, t: State, f: Follower)
    requires OnCourse(s, log, followers, c) && Readable(s.order) && s.nextObserver + 1 < WORD
    requires t.order == s.order && t.nextObserver == s.nextObserver + 1 && f.start == s.order.boundary
    ensures OnCourse(t, log, followers + [f], Proceed(c, OpenOne))
  {
  }

  lemma CourseAppends(s: State, log: seq<Record>, followers: seq<Follower>, c: Course, t: State, more: seq<Record>,
                      step: Step)
    requires OnCourse(s, log, followers, c) && step.AppendOne? && step.capacity < WORD && AcceptsEvents(s.order)
    requires t.nextObserver == s.nextObserver
    requires var next := Advanced(s.order, step.kind, step.processed);
             if next.Err? then more == log && t.order == s.order.(unavailable := true)
             else more == log + [Record(next.value.boundary, step.kind, Payload(step.kind, step.capacity))]
                  && t.order == next.value.(oldest := t.order.oldest)
    ensures OnCourse(t, more, followers, Proceed(c, step))
  {
    hide Advanced;
    AdvancedApart(s.order, c.order, step.kind, step.processed);
  }

  lemma CourseEnds(s: State, log: seq<Record>, followers: seq<Follower>, c: Course, t: State, step: Step)
    requires OnCourse(s, log, followers, c) && (step.EndOnce? || step.CloseNow?) && t.nextObserver == s.nextObserver
    requires t.order == if step.EndOnce? then Seal(s.order, step.drain, step.failure) else s.order.(closed := true)
    ensures OnCourse(t, log, followers, Proceed(c, step))
  {
  }

  method Take(j: Journal, followers: seq<Follower>, step: Step, ghost c: Course) returns (next: seq<Follower>)
    requires j.Valid() && AllFaithful(followers, j.log, j.lifetime) && OnCourse(j.s, j.log, followers, c)
    modifies j
    ensures j.Valid() && AllFaithful(next, j.log, j.lifetime) && OnCourse(j.s, j.log, next, Proceed(c, step))
  {
    hide Sound, Faithful, Advanced, Affords, OnCourse, Charged;
    next := followers;
    ghost var s, log := j.s, j.log;
    SoundBoundary(s, log, j.lifetime);
    CourseOrder(s, log, followers, c);
    match step {
      case OpenOne =>
        var r := j.Open();
        if r.Ok? {
          OpenedOk(j.s, log, j.lifetime, r.value.0);
          var f := Follower(r.value.0, r.value.1, r.value.1.cursor, []);
          next := followers + [f];
          CourseOpens(s, log, followers, c, j.s, f);
        }
      case FollowOne(k) =>
        if k < |followers| && followers[k].id in j.s.observers {
          var f, _ := j.Follow(followers[k]);
          next := followers[k := f];
        }
        CourseStays(s, log, followers, c, j.s, next);
      case RemoveOne(k) =>
        if k < |followers| {
          j.Remove(followers[k].id);
        }
        CourseStays(s, log, followers, c, j.s, next);
      case AppendOne(kind, processed, capacity, pressure) =>
        if capacity < WORD {
          j.Append(kind, processed, capacity, pressure);
          AllFaithfulGrow(followers, log, j.log, j.lifetime);
          if AcceptsEvents(s.order) {
            CourseAppends(s, log, followers, c, j.s, j.log, step);
          }
        }
      case Meanwhile(events) =>
        SoundParts(s, log, j.lifetime);
        j.Pressed(events);
        SoundApart(s, j.s, log, j.lifetime);
        CourseStays(s, log, followers, c, j.s, next);
      case EndOnce(drain, failure) =>
        j.End(drain, failure);
        CourseEnds(s, log, followers, c, j.s, step);
      case CloseNow =>
        j.Close();
        CourseEnds(s, log, followers, c, j.s, step);
    }
  }

  lemma CourseOrder(s: State, log: seq<Record>, followers: seq<Follower>, c: Course)
    requires OnCourse(s, log, followers, c)
    ensures s.order == c.order.(oldest := s.order.oldest) && s.nextObserver == |c.starts|
  {
  }

  lemma SoundBoundary(s: State, log: seq<Record>, lifetime: nat)
    requires Sound(s, log, lifetime)
    ensures s.order.boundary == BoundaryAt(log, |log|, lifetime)
  {
  }

  lemma OpenedOk(s: State, log: seq<Record>, lifetime: nat, id: nat)
    requires Sound(s, log, lifetime)
    ensures var b := BoundaryAt(log, |log|, lifetime); Faithful(Follower(id, b, b.cursor, []), log, lifetime)
  {
    BoundaryIs(s, log, lifetime);
  }

  lemma AllFaithfulGrow(followers: seq<Follower>, log: seq<Record>, more: seq<Record>, lifetime: nat)
    requires AllFaithful(followers, log, lifetime) && log <= more
    ensures AllFaithful(followers, more, lifetime)
  {
    forall k | 0 <= k < |followers| ensures Faithful(followers[k], more, lifetime) {
      FaithfulGrows(followers[k], log, more, lifetime);
    }
  }

  lemma SoundParts(s: State, log: seq<Record>, lifetime: nat)
    requires Sound(s, log, lifetime)
    ensures Charged(s, log)
  {
  }

  lemma SoundApart(s: State, t: State, log: seq<Record>, lifetime: nat)
    requires Sound(s, log, lifetime)
    requires Charged(t, log) && t == s.(held := t.held, slots := t.slots, bytes := t.bytes)
    ensures Sound(t, log, lifetime)
  {
  }

  lemma KeptNothing(records: map<nat, Record>, oldest: nat, log: seq<Record>)
    requires Kept(records, oldest, log) && oldest == |log|
    ensures records == map[]
  {
    assert forall i :: i !in records;
  }

  lemma SucceedsAt(log: seq<Record>, lifetime: nat, r: Record)
    requires Linked(log, lifetime) && Succeeds(BoundaryAt(log, |log|, lifetime), r)
    ensures r.after.cursor == Cursor(lifetime, |log| + 1)
  {
    LinkedExtends(log, lifetime, r);
  }

  lemma EvictingFits(s: State, log: seq<Record>, lifetime: nat, after: Boundary)
    requires Evicting(s, log, lifetime, after)
    ensures Charged(s, log) && Fits(s) && s.order.oldest <= |log|
  {
  }

  lemma AttemptKeeps(s: State, count: nat)
    requires Fits(s) && count < WORD && Attempt(s, count).Some?
    ensures var t := Attempt(s, count).value; t == s.(slots := t.slots, bytes := t.bytes)
  {
  }

  lemma EvictingApart(s: State, t: State, log: seq<Record>, lifetime: nat, after: Boundary)
    requires Evicting(s, log, lifetime, after)
    requires Charged(t, log) && t == s.(held := t.held, slots := t.slots, bytes := t.bytes)
    ensures Evicting(t, log, lifetime, after) && Fits(t)
  {
  }

  /** The quotas are within their limits, so that an attempt is meaningful. */
  predicate Fits(s: State) {
    PairOk(s.slots) && PairOk(s.bytes)
  }

  lemma FitsOk(s: State, log: seq<Record>)
    requires Charged(s, log)
    ensures Fits(s) && forall i :: i in s.held ==> s.held[i].charge < WORD
  {
  }
}
