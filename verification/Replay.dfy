/** Bounded output retention, and the observer whose ledger must balance
    (crates/domain/src/replay.rs, examples/release_load_support/observe.rs). */
module Replay {
  const MAX_OFFSET: nat := 0xFFFF_FFFF_FFFF_FFFF
  /** Reads made by one poll. */
  const POLL_READS: nat := 8

  type Byte = x: int | 0 <= x < 256

  datatype Cursor = Cursor(lifetime: nat, offset: nat)

  datatype ReplayError = ForeignLifetime | FutureCursor | OffsetExhausted | EmptyPageLimit

  datatype Result<T> = Ok(value: T) | Err(error: ReplayError)

  datatype Page =
    | Gap(from: Cursor, to: Cursor)
    | Bytes(from: Cursor, next: Cursor, bytes: seq<Byte>)
    | Pending

  function Min(a: nat, b: nat): nat {
    if a <= b then a else b
  }

  /** The last `count` bytes of the stream, or all of it. */
  function Last(stream: seq<Byte>, count: nat): seq<Byte> {
    stream[|stream| - Min(count, |stream|)..]
  }

  /** Keeping `limit` bytes of what is kept and of what arrives keeps the newest
      `limit` bytes of the whole stream, as far as they were still there. */
  lemma SuffixExtends(stream: seq<Byte>, kept: nat, chunk: seq<Byte>, limit: nat)
    requires kept <= |stream|
    ensures var past := Last(stream, kept);
            var suffix := chunk[|chunk| - Min(limit, |chunk|)..];
            var room := limit - |suffix|;
            && |suffix| <= limit
            && past[|past| - Min(room, |past|)..] + suffix == Last(stream + chunk, Min(kept + |chunk|, limit))
  {
    var past := Last(stream, kept);
    var suffix := chunk[|chunk| - Min(limit, |chunk|)..];
    var room := limit - |suffix|;
    if |chunk| >= limit {
      assert past[|past| - Min(room, |past|)..] == [];
    } else {
      assert suffix == chunk;
      assert past[|past| - Min(room, |past|)..] == Last(stream, Min(kept, room));
    }
  }

  /** Retained output of one session lifetime, against everything ever produced. */
  class Buffer {
    const lifetime: nat
    const limit: nat
    var end: nat
    var bytes: seq<Byte>
    ghost var stream: seq<Byte>

    ghost predicate Valid()
      reads this
    {
      && end == |stream| <= MAX_OFFSET
      && |bytes| <= limit && |bytes| <= |stream|
      && bytes == Last(stream, |bytes|)
    }

    constructor (lifetime: nat, limit: nat)
      ensures Valid() && stream == [] && this.lifetime == lifetime && this.limit == limit
    {
      this.lifetime, this.limit := lifetime, limit;
      end, bytes, stream := 0, [], [];
    }

    ghost function Recorded(): Tape
      reads this
    {
      Tape(stream, |bytes|)
    }

    /** Oldest position that can still be read. */
    function Floor(): (r: nat)
      requires Valid()
      reads this
      ensures r <= |stream| && bytes == stream[r..]
    {
      end - |bytes|
    }

    method AppendWithLimit(chunk: seq<Byte>, retention: nat) returns (r: Result<()>)
      requires Valid()
      modifies this`end, this`bytes, this`stream
      ensures Valid()
      ensures r == if |old(stream)| + |chunk| <= MAX_OFFSET then Ok(()) else Err(OffsetExhausted)
      ensures r.Err? ==> stream == old(stream) && bytes == old(bytes)
      ensures r.Ok? ==> stream == old(stream) + chunk
      ensures r.Ok? ==> |bytes| == Min(|old(bytes)| + |chunk|, Min(limit, retention))
      ensures old(Floor()) <= Floor()
    {
      var most := Min(limit, retention);
      if end + |chunk| > MAX_OFFSET {
        return Err(OffsetExhausted);
      }
      SuffixExtends(stream, |bytes|, chunk, most);
      var suffix := chunk[|chunk| - Min(most, |chunk|)..];
      var room := most - |suffix|;
      bytes := bytes[|bytes| - Min(room, |bytes|)..] + suffix;
      end := end + |chunk|;
      stream := stream + chunk;
      return Ok(());
    }

    method RetainAtMost(count: nat)
      requires Valid()
      modifies this`bytes
      ensures Valid() && |bytes| == Min(|old(bytes)|, count)
      ensures old(Floor()) <= Floor()
    {
      bytes := bytes[|bytes| - Min(count, |bytes|)..];
    }

    method ReleaseStorage()
      requires Valid()
      modifies this`bytes
      ensures Valid() && bytes == []
      ensures old(Floor()) <= Floor()
    {
      bytes := [];
    }

    /** One bounded page. In terms of the stream: a gap exactly up to the oldest kept
        byte, nothing exactly at the end, and otherwise the bytes at the cursor. */
    function Read(cursor: Cursor, most: nat): (r: Result<Page>)
      requires Valid()
      reads this
      ensures cursor.lifetime != lifetime <==> r == Err(ForeignLifetime)
      ensures cursor.lifetime == lifetime ==>
                && (cursor.offset > |stream| <==> r == Err(FutureCursor))
                && (cursor.offset <= |stream| && most == 0 <==> r == Err(EmptyPageLimit))
      ensures r.Ok? <==> cursor.lifetime == lifetime && cursor.offset <= |stream| && most > 0
      ensures r.Ok? && r.value.Pending? ==> cursor.offset == |stream|
      ensures r.Ok? && r.value.Gap? ==>
                r.value.from == cursor && cursor.offset < r.value.to.offset == Floor() &&
                    r.value.to.lifetime == lifetime
      ensures r.Ok? && r.value.Bytes? ==>
                && r.value.from == cursor && r.value.next.lifetime == lifetime
                && 0 < |r.value.bytes| <= most
                && Floor() <= cursor.offset < r.value.next.offset <= |stream|
                && r.value.bytes == stream[cursor.offset..r.value.next.offset]
                && (|r.value.bytes| == most || r.value.next.offset == |stream|)
    {
      if cursor.lifetime != lifetime then Err(ForeignLifetime)
      else if cursor.offset > end then Err(FutureCursor)
      else if most == 0 then Err(EmptyPageLimit)
      else if cursor.offset < Floor() then Ok(Gap(cursor, Cursor(lifetime, Floor())))
      else if cursor.offset == end then Ok(Pending)
      else
        var start := cursor.offset - Floor();
        var page := bytes[start..start + Min(most, |bytes| - start)];
        Ok(Bytes(cursor, Cursor(lifetime, cursor.offset + |page|), page))
    }
  }

  // ----- the observer's ledger

  /** What an observer knows about one offset of the stream. */
  datatype Seen = Delivered(byte: Byte) | Lost

  function Count(seen: seq<Seen>, lost: bool): nat {
    if seen == [] then 0
    else Count(seen[..|seen| - 1], lost) + if (seen[|seen| - 1] == Lost) == lost then 1 else 0
  }

  lemma {:induction false} EverySeenCounts(seen: seq<Seen>)
    ensures Count(seen, true) + Count(seen, false) == |seen|
  {
    if seen == [] {
    } else {
      EverySeenCounts(seen[..|seen| - 1]);
    }
  }

  lemma {:induction false} CountRun(seen: seq<Seen>, more: seq<Seen>, lost: bool)
    requires forall i :: 0 <= i < |more| ==> (more[i] == Lost) == lost
    ensures Count(seen + more, lost) == Count(seen, lost) + |more|
    ensures Count(seen + more, !lost) == Count(seen, !lost)
  {
    if more == [] {
      assert seen + more == seen;
    } else {
      var n := |more| - 1;
      CountRun(seen, more[..n], lost);
      assert (seen + more)[..|seen + more| - 1] == seen + more[..n];
    }
  }

  /** Every offset passed was either delivered with the byte produced there, or is lost
      and really no longer retained. */
  ghost predicate Honest(seen: seq<Seen>, stream: seq<Byte>, floor: nat) {
    && |seen| <= |stream|
    && forall i :: 0 <= i < |seen| ==>
         match seen[i]
         case Delivered(byte) => byte == stream[i]
         case Lost => i < floor
  }

  function DeliveredRun(run: seq<Byte>): seq<Seen> {
    seq(|run|, i requires 0 <= i < |run| => Delivered(run[i]))
  }

  function LostRun(count: nat): seq<Seen> {
    seq(count, _ => Lost)
  }

  /** A page of bytes, or a gap, moves an honest ledger on and moves one counter only. */
  lemma PageKeepsHonest(seen: seq<Seen>, stream: seq<Byte>, floor: nat, next: nat)
    requires Honest(seen, stream, floor) && |seen| <= next <= |stream|
    ensures var more := DeliveredRun(stream[|seen|..next]);
            && |more| == next - |seen| && Honest(seen + more, stream, floor)
            && Count(seen + more, false) == Count(seen, false) + |more| && Count(seen + more, true) == Count(seen, true)
  {
    CountRun(seen, DeliveredRun(stream[|seen|..next]), false);
  }

  lemma GapKeepsHonest(seen: seq<Seen>, stream: seq<Byte>, floor: nat)
    requires Honest(seen, stream, floor) && |seen| <= floor <= |stream|
    ensures var more := LostRun(floor - |seen|);
            && |more| == floor - |seen| && Honest(seen + more, stream, floor)
            && Count(seen + more, true) == Count(seen, true) + |more| && Count(seen + more, false) == Count(seen, false)
  {
    CountRun(seen, LostRun(floor - |seen|), true);
  }

  class Observer {
    const lifetime: nat
    const page: nat
    /** The attachment's own cursor and the observer's. */
    var attached: nat
    var cursor: nat
    var bytes: nat
    var gaps: nat
    ghost var seen: seq<Seen>

    ghost predicate Balanced()
      reads this
    {
      && page > 0
      && attached == cursor == |seen|
      && bytes == Count(seen, false) && gaps == Count(seen, true)
    }

    ghost predicate Follows(buffer: Buffer)
      reads this, buffer
    {
      Balanced() && buffer.Valid() && buffer.lifetime == lifetime && Honest(seen, buffer.stream, buffer.Floor())
    }

    constructor (buffer: Buffer, page: nat)
      requires buffer.Valid() && page > 0
      ensures Follows(buffer) && fresh(this) && cursor == 0
    {
      lifetime, this.page := buffer.lifetime, page;
      attached, cursor, bytes, gaps, seen := 0, 0, 0, 0, [];
    }

    /** The two counters account for every offset up to the cursor. */
    lemma LedgerBalances()
      requires Balanced()
      ensures bytes + gaps == cursor
    {
      EverySeenCounts(seen);
    }

    /** One read: `more` is whether the poll goes on. */
    method Next(buffer: Buffer) returns (more: bool)
      requires Follows(buffer)
      modifies this
      ensures Follows(buffer)
      ensures old(seen) <= seen && (more <==> cursor > old(cursor))
      ensures !more ==> cursor == |buffer.stream| && seen == old(seen)
    {
      hide Count, DeliveredRun, LostRun;
      var answer := buffer.Read(Cursor(lifetime, attached), page);
      match answer.value {
        case Pending => return false;
        case Bytes(from, next, run) =>
          attached := next.offset;
          assert from.offset == cursor && next.offset - from.offset == |run|;
          PageKeepsHonest(seen, buffer.stream, buffer.Floor(), next.offset);
          bytes := bytes + |run|;
          cursor := next.offset;
          seen := seen + DeliveredRun(run);
        case Gap(from, to) =>
          attached := to.offset;
          assert from.offset == cursor && to.offset > from.offset;
          GapKeepsHonest(seen, buffer.stream, buffer.Floor());
          gaps := gaps + (to.offset - from.offset);
          cursor := to.offset;
          seen := seen + LostRun(to.offset - from.offset);
      }
      return true;
    }
  }

  // ----- every interleaving

  /** What the session does to the buffer between two reads. */
  datatype Action = Append(chunk: seq<Byte>, retention: nat) | Retain(count: nat) | Release

  /** What was produced, and how much of it is still kept. */
  datatype Tape = Tape(stream: seq<Byte>, kept: nat)

  /** A chunk joins the stream unless its offset cannot be represented; the newest bytes are
      kept, as far as the limits and the cuts allow. */
  function Grown(t: Tape, limit: nat, action: Action): Tape {
    match action
    case Append(chunk, retention) =>
      if |t.stream| + |chunk| <= MAX_OFFSET
      then Tape(t.stream + chunk, Min(t.kept + |chunk|, Min(limit, retention))) else t
    case Retain(count) => t.(kept := Min(t.kept, count))
    case Release => t.(kept := 0)
  }

  function Produced(t: Tape, limit: nat, actions: seq<Action>): Tape {
    if actions == [] then t
    else Grown(Produced(t, limit, actions[..|actions| - 1]), limit, actions[|actions| - 1])
  }

  function Flat<T>(parts: seq<seq<T>>): seq<T> {
    if parts == [] then [] else Flat(parts[..|parts| - 1]) + parts[|parts| - 1]
  }

  lemma {:induction false} ProducedThen(t: Tape, limit: nat, a: seq<Action>, b: seq<Action>)
    ensures Produced(t, limit, a + b) == Produced(Produced(t, limit, a), limit, b)
  {
    if b == [] {
      assert a + b == a;
    } else {
      var n := |b| - 1;
      ProducedThen(t, limit, a, b[..n]);
      assert (a + b)[..|a + b| - 1] == a + b[..n];
    }
  }

  lemma {:induction false} FlatThen<T>(a: seq<seq<T>>, b: seq<seq<T>>)
    ensures Flat(a + b) == Flat(a) + Flat(b)
  {
    if b == [] {
      assert a + b == a;
    } else {
      var n := |b| - 1;
      FlatThen(a, b[..n]);
      assert (a + b)[..|a + b| - 1] == a + b[..n];
    }
  }

  lemma FlatOne<T>(parts: seq<seq<T>>, i: nat)
    requires i < |parts|
    ensures Flat(parts[..i + 1]) == Flat(parts[..i]) + parts[i]
  {
    assert parts[..i + 1][..i] == parts[..i];
  }

  method Act(buffer: Buffer, observer: Observer, action: Action)
    requires observer.Follows(buffer)
    modifies buffer
    ensures observer.Follows(buffer) && buffer.Recorded() == Grown(old(buffer.Recorded()), buffer.limit, action)
  {
    match action {
      case Append(chunk, retention) =>
        var _ := buffer.AppendWithLimit(chunk, retention);
      case Retain(count) => buffer.RetainAtMost(count);
      case Release => buffer.ReleaseStorage();
    }
  }

  method ActAll(buffer: Buffer, observer: Observer, actions: seq<Action>)
    requires observer.Follows(buffer)
    modifies buffer
    ensures observer.Follows(buffer) && buffer.Recorded() == Produced(old(buffer.Recorded()), buffer.limit, actions)
  {
    for i := 0 to |actions|
      invariant observer.Follows(buffer)
      invariant buffer.Recorded() == Produced(old(buffer.Recorded()), buffer.limit, actions[..i])
    {
      Act(buffer, observer, actions[i]);
      assert actions[..i + 1][..i] == actions[..i];
    }
    assert actions[..|actions|] == actions;
  }

  /** At most eight reads, each after whatever the session does meanwhile. A poll that
      stops early has caught up with the stream; one that does not moved eight times. */
  method Poll(buffer: Buffer, observer: Observer, meanwhile: seq<seq<Action>>) returns (made: nat, early: bool)
    requires observer.Follows(buffer) && |meanwhile| == POLL_READS
    modifies buffer, observer
    ensures observer.Follows(buffer) && old(observer.seen) <= observer.seen
    ensures made <= 8
    ensures buffer.Recorded() == Produced(old(buffer.Recorded()), buffer.limit, Flat(meanwhile[..made]))
    ensures early ==> observer.cursor == |buffer.stream|
    ensures !early ==> observer.cursor >= old(observer.cursor) + 8
  {
    hide Flat, Produced;
    FlatNone(meanwhile, buffer.Recorded(), buffer.limit);
    for i := 0 to POLL_READS
      invariant observer.Follows(buffer) && old(observer.seen) <= observer.seen
      invariant buffer.Recorded() == Produced(old(buffer.Recorded()), buffer.limit, Flat(meanwhile[..i]))
      invariant observer.cursor >= old(observer.cursor) + i
    {
      FlatOne(meanwhile, i);
      ProducedThen(old(buffer.Recorded()), buffer.limit, Flat(meanwhile[..i]), meanwhile[i]);
      ActAll(buffer, observer, meanwhile[i]);
      var more := observer.Next(buffer);
      if !more {
        return i + 1, true;
      }
    }
    return POLL_READS, false;
  }

  lemma FlatNone(parts: seq<seq<Action>>, t: Tape, limit: nat)
    ensures Flat(parts[..0]) == [] && Produced(t, limit, []) == t
  {
  }

  /** One poll and whatever else the session does before the next. */
  method Round(buffer: Buffer, observer: Observer, meanwhile: seq<seq<Action>>)
    requires observer.Follows(buffer) && |meanwhile| == POLL_READS
    modifies buffer, observer
    ensures observer.Follows(buffer) && old(observer.seen) <= observer.seen
    ensures buffer.Recorded() == Produced(old(buffer.Recorded()), buffer.limit, Flat(meanwhile))
  {
    hide Flat, Produced;
    var made, _ := Poll(buffer, observer, meanwhile);
    assert meanwhile == meanwhile[..made] + meanwhile[made..];
    FlatThen(meanwhile[..made], meanwhile[made..]);
    ProducedThen(old(buffer.Recorded()), buffer.limit, Flat(meanwhile[..made]), Flat(meanwhile[made..]));
    ActAll(buffer, observer, Flat(meanwhile[made..]));
  }

  /** Poll until caught up, once the session is quiet. */
  method Drain(buffer: Buffer, observer: Observer)
    requires observer.Follows(buffer)
    modifies buffer, observer
    ensures observer.Follows(buffer) && old(observer.seen) <= observer.seen
    ensures buffer.Recorded() == old(buffer.Recorded()) && observer.cursor == |buffer.stream|
  {
    hide Produced;
    var quiet: seq<seq<Action>> := seq(POLL_READS, _ => []);
    while observer.cursor < buffer.end
      invariant observer.Follows(buffer) && old(observer.seen) <= observer.seen
      invariant buffer.Recorded() == old(buffer.Recorded())
      decreases |buffer.stream| - observer.cursor
    {
      var made, _ := Poll(buffer, observer, quiet);
      QuietProduces(old(buffer.Recorded()), buffer.limit, quiet[..made]);
    }
  }

  lemma {:induction false} QuietProduces(t: Tape, limit: nat, quiet: seq<seq<Action>>)
    requires forall i :: 0 <= i < |quiet| ==> quiet[i] == []
    ensures Flat(quiet) == [] && Produced(t, limit, Flat(quiet)) == t
  {
    if quiet == [] {
    } else {
      QuietProduces(t, limit, quiet[..|quiet| - 1]);
    }
  }

  /** A whole run. The stream is every chunk that could be appended, in order, and the buffer
      holds its newest bytes, as many as the limits and cuts left; the ledger says
      of each of its offsets what became of it, and the two counters add up to its length. */
  method Run(lifetime: nat, limit: nat, page: nat, rounds: seq<seq<seq<Action>>>)
    returns (buffer: Buffer, observer: Observer)
    requires page > 0 && forall r :: r in rounds ==> |r| == POLL_READS
    ensures observer.Follows(buffer) && buffer.limit == limit
    ensures buffer.Recorded() == Produced(Tape([], 0), limit, Flat(Flat(rounds)))
    ensures observer.bytes + observer.gaps == observer.cursor == |buffer.stream|
    ensures forall i :: 0 <= i < observer.cursor ==>
              observer.seen[i] == Delivered(buffer.stream[i]) || (observer.seen[i] == Lost && i < buffer.Floor())
  {
    hide Produced;
    buffer := new Buffer(lifetime, limit);
    observer := new Observer(buffer, page);
    QuietProduces(Tape([], 0), limit, []);
    for k := 0 to |rounds|
      invariant fresh(buffer) && fresh(observer)
      invariant observer.Follows(buffer) && buffer.limit == limit
      invariant buffer.Recorded() == Produced(Tape([], 0), limit, Flat(Flat(rounds[..k])))
    {
      assert rounds[k] in rounds;
      FlatOne(rounds, k);
      FlatThen(Flat(rounds[..k]), rounds[k]);
      ProducedThen(Tape([], 0), limit, Flat(Flat(rounds[..k])), Flat(rounds[k]));
      Round(buffer, observer, rounds[k]);
    }
    assert rounds[..|rounds|] == rounds;
    Drain(buffer, observer);
    observer.LedgerBalances();
  }
}
