/** Order and retention of transfer events, and the quotas that charge for them
    (crates/domain/src/projection/transfer.rs, crates/application/src/runtime/quota.rs,
    crates/application/src/projection/budgets.rs). */
module Transfer {
  import opened Wrappers

  const WORD: nat := 0x1_0000_0000_0000_0000

  datatype Result<T, E> = Ok(value: T) | Err(error: E)

  datatype ReplayCursor = ReplayCursor(lifetime: nat, offset: nat)

  datatype Cursor = Cursor(lifetime: nat, sequence: nat)

  datatype Boundary = Boundary(cursor: Cursor, processed: ReplayCursor, generation: nat)

  /** Drain and failure facts are opaque codes here. */
  datatype End = Ending(boundary: Boundary, drain: Option<nat>, failure: Option<nat>)

  datatype TransferError = ForeignLifetime | FutureCursor | ResyncRequired(oldest: Cursor) | Closed | Unavailable

  datatype Kind = Output(bytes: seq<nat>) | Resize(size: nat, generation: nat)

  // ----- the order

  datatype Order = Order(boundary: Boundary, oldest: nat, end: Option<End>, closed: bool, unavailable: bool)

  function Start(lifetime: nat): Boundary {
    Boundary(Cursor(lifetime, 0), ReplayCursor(lifetime, 0), 0)
  }

  function NewOrder(lifetime: nat): Order {
    Order(Start(lifetime), 0, None, false, false)
  }

  predicate Readable(o: Order) {
    !o.closed && !o.unavailable
  }

  function Unreadable(o: Order): TransferError {
    if o.closed then Closed else Unavailable
  }

  predicate AcceptsEvents(o: Order) {
    Readable(o) && o.end.None?
  }

  /** The sequence number advances by one, unless it is exhausted. */
  function Advance(o: Order): Result<Order, TransferError> {
    if o.boundary.cursor.sequence + 1 < WORD
    then Ok(o.(boundary := o.boundary.(cursor := o.boundary.cursor.(sequence := o.boundary.cursor.sequence + 1))))
    else Err(Unavailable)
  }

  function RequireAppend(o: Order): Option<TransferError> {
    if !Readable(o) then Some(Unreadable(o))
    else if o.end.Some? then Some(Closed)
    else None
  }

  function OrderOutput(o: Order, processed: ReplayCursor): Result<Order, TransferError> {
    if RequireAppend(o).Some? then Err(RequireAppend(o).value)
    else if processed.lifetime != o.boundary.processed.lifetime || processed.offset <= o.boundary.processed.offset
    then Err(Unavailable)
    else match Advance(o)
         case Err(e) => Err(e)
         case Ok(next) => Ok(next.(boundary := next.boundary.(processed := processed)))
  }

  function OrderResized(o: Order, generation: nat): Result<Order, TransferError> {
    if RequireAppend(o).Some? then Err(RequireAppend(o).value)
    else if o.boundary.generation + 1 >= WORD || o.boundary.generation + 1 != generation then Err(Unavailable)
    else match Advance(o)
         case Err(e) => Err(e)
         case Ok(next) => Ok(next.(boundary := next.boundary.(generation := generation)))
  }

  function ValidateIdentity(o: Order, cursor: Cursor): Option<TransferError> {
    if cursor.lifetime != o.boundary.cursor.lifetime then Some(ForeignLifetime)
    else if cursor.sequence > o.boundary.cursor.sequence then Some(FutureCursor)
    else None
  }

  /** A refused discard changes nothing, and its callers ignore the refusal. */
  function DiscardBefore(o: Order, cursor: Cursor): Order {
    if ValidateIdentity(o, cursor).Some? then o
    else o.(oldest := if o.oldest >= cursor.sequence then o.oldest else cursor.sequence)
  }

  function Validate(o: Order, cursor: Cursor): Option<TransferError> {
    if !Readable(o) then Some(Unreadable(o))
    else if ValidateIdentity(o, cursor).Some? then ValidateIdentity(o, cursor)
    else if cursor.sequence < o.oldest then Some(ResyncRequired(o.boundary.cursor.(sequence := o.oldest)))
    else None
  }

  function Seal(o: Order, drain: Option<nat>, failure: Option<nat>): Order {
    if !Readable(o) || o.end.Some? || (drain.None? && failure.None?) then o
    else o.(end := Some(Ending(o.boundary, drain, failure)))
  }

  // ----- quotas and leases

  datatype Quota = Quota(limit: nat, used: nat)

  function Acquire(q: Quota, count: nat): Option<Quota> {
    if q.used + count < WORD && q.used + count <= q.limit then Some(q.(used := q.used + count)) else None
  }

  /** An unsigned subtraction: it wraps when more is given back than was taken. */
  function Release(q: Quota, count: nat): Quota
    requires count < WORD
  {
    if count <= q.used then q.(used := q.used - count)
    else if count <= q.used + WORD then q.(used := q.used + WORD - count)
    else q
  }

  /** A shared ceiling and one session's part of it. */
  datatype Pair = Pair(shared: Quota, local: Quota)

  /** The session's use is part of the shared use, and neither is above its limit. */
  predicate PairOk(p: Pair) {
    p.local.used <= p.shared.used <= p.shared.limit < WORD && p.local.used <= p.local.limit < WORD
  }

  /** Charge both halves or neither: a refused second half gives the first one back. */
  function SharedAndLocal(p: Pair, count: nat): (r: Option<Pair>)
    requires PairOk(p) && count < WORD
    ensures r.Some? <==> p.shared.used + count <= p.shared.limit && p.local.used + count <= p.local.limit
    ensures r.Some? ==> PairOk(r.value) && Back(r.value, count) == p
  {
    match Acquire(p.shared, count)
    case None => None
    case Some(shared) =>
      match Acquire(p.local, count)
      case None => assert Release(shared, count) == p.shared; None
      case Some(local) => Some(Pair(shared, local))
  }

  /** Dropping a lease. */
  function Back(p: Pair, count: nat): (r: Pair)
    requires count < WORD
    ensures count <= p.local.used && PairOk(p) ==>
              PairOk(r) && r.local.used == p.local.used - count && r.shared.used == p.shared.used - count
    ensures r.local.limit == p.local.limit && r.shared.limit == p.shared.limit
  {
    Pair(Release(p.shared, count), Release(p.local, count))
  }

  /** What other sessions use of the shared ceiling. */
  function Others(p: Pair): int {
    p.shared.used - p.local.used
  }
}
