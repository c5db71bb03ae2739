/** The session loop's input: one write in flight, the rest queued, and the part of a
    write the system did not accept put back in front (client/server/src/session.rs). */
module InputQueue {
  import opened Wrappers

  type Byte = x: int | 0 <= x < 256

  /** How a finished write ended: how many bytes the system says it accepted, and whether it failed. */
  datatype Outcome = Outcome(written: nat, error: bool)

  /** What one turn of the loop meets: input, whether the write in flight is finished and how,
      whether a new write is admitted, and the replies the terminal gives to each chunk of output. */
  datatype Turn = Turn(input: Option<seq<Byte>>, finished: Option<Outcome>, admitted: bool, replies: seq<seq<Byte>>)

  function Min(a: nat, b: nat): nat {
    if a <= b then a else b
  }

  function Concat(parts: seq<seq<Byte>>): seq<Byte> {
    if parts == [] then [] else Concat(parts[..|parts| - 1]) + parts[|parts| - 1]
  }

  /** Everything that joins the queue in one turn, and in a run. */
  function Arrivals(turn: Turn): seq<Byte> {
    (if turn.input.Some? then turn.input.value else []) + Concat(turn.replies)
  }

  function AllArrivals(turns: seq<Turn>): seq<Byte> {
    if turns == [] then [] else AllArrivals(turns[..|turns| - 1]) + Arrivals(turns[|turns| - 1])
  }

  function InFlight(writing: Option<seq<Byte>>): seq<Byte> {
    if writing.Some? then writing.value else []
  }

  // ----- the loop as values

  /** What the queue, the write slot and the system hold, and whether the loop has ended. */
  datatype Held = Held(pending: seq<Byte>, writing: Option<seq<Byte>>, accepted: seq<Byte>, exited: bool)

  /** Input joins the queue, and a finished write gives back what was not accepted. */
  function Met(s: Held, turn: Turn): Held {
    var queued := s.pending + if turn.input.Some? then turn.input.value else [];
    if s.writing.Some? && turn.finished.Some? then
      var bytes := s.writing.value;
      var count := Min(turn.finished.value.written, |bytes|);
      Held(bytes[count..] + queued, None, s.accepted + bytes[..count], turn.finished.value.error)
    else s.(pending := queued)
  }

  /** With no write in flight, at most a chunk is submitted; a refused write ends the loop. */
  function Submitted(s: Held, chunk: nat, admitted: bool): Held {
    if s.exited || s.writing.Some? || s.pending == [] then s
    else
      var count := Min(|s.pending|, chunk);
      s.(pending := s.pending[count..], exited := !admitted,
         writing := if admitted then Some(s.pending[..count]) else None)
  }

  function Turned(s: Held, chunk: nat, turn: Turn): Held {
    if s.exited then s
    else
      var t := Submitted(Met(s, turn), chunk, turn.admitted);
      if t.exited then t else t.(pending := t.pending + Concat(turn.replies))
  }

  const NOTHING := Held([], None, [], false)

  function CourseOf(chunk: nat, turns: seq<Turn>): Held {
    if turns == [] then NOTHING else Turned(CourseOf(chunk, turns[..|turns| - 1]), chunk, turns[|turns| - 1])
  }

  lemma {:induction false} CourseStops(chunk: nat, turns: seq<Turn>, n: nat)
    requires n <= |turns| && CourseOf(chunk, turns[..n]).exited
    ensures CourseOf(chunk, turns) == CourseOf(chunk, turns[..n])
  {
    if n == |turns| {
      assert turns[..n] == turns;
    } else {
      var init := turns[..|turns| - 1];
      assert init[..n] == turns[..n];
      CourseStops(chunk, init, n);
    }
  }

  lemma {:induction false} ArrivalsGrow(turns: seq<Turn>, n: nat)
    requires n <= |turns|
    ensures AllArrivals(turns[..n]) <= AllArrivals(turns)
  {
    if n == |turns| {
      assert turns[..n] == turns;
    } else {
      var init := turns[..|turns| - 1];
      assert init[..n] == turns[..n];
      ArrivalsGrow(init, n);
    }
  }

  /** The loop ends only on a turn that refuses a write or on which one failed. */
  predicate Ends(turn: Turn) {
    !turn.admitted || (turn.finished.Some? && turn.finished.value.error)
  }

  /** Put the bytes from `count` on in front of the queue, the last one first. */
  method Requeue(bytes: seq<Byte>, count: nat, queue: seq<Byte>) returns (r: seq<Byte>)
    requires count <= |bytes|
    ensures r == bytes[count..] + queue
  {
    r := queue;
    var i := |bytes|;
    while i > count
      invariant count <= i <= |bytes|
      invariant r == bytes[i..] + queue
    {
      i := i - 1;
      r := [bytes[i]] + r;
    }
  }

  /** However far the system is with the chunk in flight, what it has of it, what it has yet to
      take and what is queued are in order. */
  lemma AnyProgress(accepted: seq<Byte>, bytes: seq<Byte>, k: nat, pending: seq<Byte>)
    requires k <= |bytes|
    ensures (accepted + bytes[..k]) + bytes[k..] + pending == accepted + bytes + pending
  {
    assert bytes[..k] + bytes[k..] == bytes;
  }

  // ----- everything is accepted in the end

  /** A turn that admits a write and on which the one in flight is finished, all of it. */
  predicate Fluent(turn: Turn, chunk: nat) {
    turn.admitted && turn.finished.Some? && turn.finished.value.written >= chunk && !turn.finished.value.error
  }

  /** Every turn is fluent, the last `m` bring nothing, and they are enough for all that came. */
  ghost predicate Settles(chunk: nat, turns: seq<Turn>, m: nat) {
    && 0 < m <= |turns| && chunk * (m - 1) >= |AllArrivals(turns)|
    && (forall i :: 0 <= i < |turns| ==> Fluent(turns[i], chunk))
    && (forall i :: |turns| - m <= i < |turns| ==> Arrivals(turns[i]) == [])
  }

  function Left(s: Held): nat {
    |s.pending| + |InFlight(s.writing)|
  }

  /** A fluent turn takes what was in flight and sends the next chunk. */
  lemma FluentTurn(s: Held, chunk: nat, turn: Turn)
    requires !s.exited && |InFlight(s.writing)| <= chunk && Fluent(turn, chunk)
    ensures var t := Turned(s, chunk, turn);
            && !t.exited && |InFlight(t.writing)| <= chunk
            && Left(t) == Left(s) - |InFlight(s.writing)| + |Arrivals(turn)|
            && t.accepted == s.accepted + InFlight(s.writing)
            && (Arrivals(turn) == [] ==> |InFlight(t.writing)| == Min(chunk, Left(t)))
  {
    hide Concat;
  }

  lemma {:induction false} FluentCourse(chunk: nat, turns: seq<Turn>)
    requires forall i :: 0 <= i < |turns| ==> Fluent(turns[i], chunk)
    ensures var s := CourseOf(chunk, turns);
            && !s.exited && |InFlight(s.writing)| <= chunk && |s.accepted| + Left(s) == |AllArrivals(turns)|
  {
    if turns == [] {
    } else {
      var init := turns[..|turns| - 1];
      FluentCourse(chunk, init);
      FluentTurn(CourseOf(chunk, init), chunk, turns[|turns| - 1]);
      hide Turned, Arrivals;
    }
  }

  /** Every quiet turn but the first leaves a chunk less, until nothing is left. */
  lemma {:induction false} QuietCourse(chunk: nat, turns: seq<Turn>, m: nat)
    requires 0 < m <= |turns| && forall i :: 0 <= i < |turns| ==> Fluent(turns[i], chunk)
    requires forall i :: |turns| - m <= i < |turns| ==> Arrivals(turns[i]) == []
    ensures var s := CourseOf(chunk, turns);
            && |InFlight(s.writing)| == Min(chunk, Left(s))
            && (Left(s) == 0 || Left(s) + chunk * (m - 1) <= |AllArrivals(turns)|)
  {
    var init, last := turns[..|turns| - 1], turns[|turns| - 1];
    FluentCourse(chunk, turns);
    FluentCourse(chunk, init);
    FluentTurn(CourseOf(chunk, init), chunk, last);
    if m > 1 {
      QuietCourse(chunk, init, m - 1);
      assert AllArrivals(turns) == AllArrivals(init) + [];
      assert chunk * (m - 1) == chunk * (m - 2) + chunk;
    }
    hide Turned, Arrivals, AllArrivals;
  }

  lemma SettlesEmpties(chunk: nat, turns: seq<Turn>, m: nat)
    requires Settles(chunk, turns, m)
    ensures !CourseOf(chunk, turns).exited && Left(CourseOf(chunk, turns)) == 0
  {
    FluentCourse(chunk, turns);
    QuietCourse(chunk, turns, m);
  }

  lemma SettlesAccepted(chunk: nat, turns: seq<Turn>, s: Held)
    requires s == CourseOf(chunk, turns)
    requires s.exited || s.accepted + InFlight(s.writing) + s.pending == AllArrivals(turns)
    ensures forall m: nat :: Settles(chunk, turns, m) ==> s.accepted == AllArrivals(turns)
  {
    hide Settles, CourseOf, AllArrivals;
    forall m: nat | Settles(chunk, turns, m) ensures s.accepted == AllArrivals(turns) {
      SettlesEmpties(chunk, turns, m);
    }
  }

  lemma ExitedStays(s: Held, chunk: nat, admitted: bool)
    ensures s.exited ==> Submitted(s, chunk, admitted) == s
  {
  }

  /** What a turn leaves in flight and waiting. */
  lemma TurnLeaves(s: Held, chunk: nat, turn: Turn, t: Held)
    requires !s.exited && t == Turned(s, chunk, turn)
    ensures s.writing.Some? && turn.finished.None? ==> !t.exited && t.writing == s.writing && t.accepted == s.accepted
    ensures !t.exited && (s.writing.None? || turn.finished.Some?) ==>
              |InFlight(t.writing)| == Min(chunk, |InFlight(t.writing) + t.pending| - |Concat(turn.replies)|)
    ensures !t.exited && t.writing.None? ==> t.pending == Concat(turn.replies)
    ensures s.accepted <= t.accepted && (t.exited ==> Ends(turn))
  {
    hide Concat;
  }

  class Queue {
    const chunk: nat
    var pending: seq<Byte>
    var writing: Option<seq<Byte>>
    var exited: bool
    /** What finished writes left with the system, and all input and replies in order. */
    ghost var accepted: seq<Byte>
    ghost var stream: seq<Byte>

    ghost function Value(): Held
      reads this
    {
      Held(pending, writing, accepted, exited)
    }

    /** Nothing is lost, repeated or reordered; after the loop ended still nothing is
        repeated or reordered. */
    ghost predicate Valid()
      reads this
    {
      && accepted <= stream
      && (!exited ==> accepted + InFlight(writing) + pending == stream)
      && |InFlight(writing)| <= chunk
    }

    constructor (chunk: nat)
      ensures Valid() && Value() == NOTHING && stream == [] && this.chunk == chunk
    {
      this.chunk := chunk;
      pending, writing, exited := [], None, false;
      stream, accepted := [], [];
    }

    /** Client input and terminal replies join the end of the queue. */
    method Extend(bytes: seq<Byte>)
      requires Valid() && !exited
      modifies this`pending, this`stream
      ensures Valid() && stream == old(stream) + bytes && pending == old(pending) + bytes
    {
      pending := pending + bytes;
      stream := stream + bytes;
    }

    /** The write is over: what was not accepted goes back in front of everything newer. A count
        beyond the chunk means all of it. */
    method Finish(outcome: Outcome)
      requires Valid() && !exited && writing.Some?
      modifies this`pending, this`writing, this`exited, this`accepted
      ensures Valid() && writing.None? && exited == outcome.error
      ensures accepted == old(accepted) + old(writing).value[..Min(outcome.written, |old(writing).value|)]
      ensures pending == old(writing).value[Min(outcome.written, |old(writing).value|)..] + old(pending)
      ensures accepted + pending == stream
    {
      var bytes := writing.value;
      var count := Min(outcome.written, |bytes|);
      AnyProgress(accepted, bytes, count, pending);
      assert accepted + bytes[..count] + (bytes[count..] + pending) ==
          accepted + bytes[..count] + bytes[count..] + pending;
      pending := Requeue(bytes, count, pending);
      accepted := accepted + bytes[..count];
      writing := None;
      exited := outcome.error;
    }

    /** Input joins, and a write that is finished is settled. */
    method Meet(turn: Turn)
      requires Valid() && !exited
      modifies this
      ensures Valid() && Value() == Met(old(Value()), turn)
      ensures stream == old(stream) + if turn.input.Some? then turn.input.value else []
    {
      if turn.input.Some? {
        Extend(turn.input.value);
      }
      if writing.Some? && turn.finished.Some? {
        Finish(turn.finished.value);
      }
    }

    /** With no write in flight, submit at most a chunk. */
    method Submit(admitted: bool)
      requires Valid() && !exited
      modifies this`pending, this`writing, this`exited
      ensures Valid() && Value() == Submitted(old(Value()), chunk, admitted)
    {
      if writing.Some? || pending == [] {
        return;
      }
      var count := Min(|pending|, chunk);
      var bytes := pending[..count];
      assert pending == bytes + pending[count..];
      pending := pending[count..];
      if admitted {
        writing := Some(bytes);
      } else {
        exited := true;
      }
    }

    method Feed(replies: seq<seq<Byte>>)
      requires Valid() && !exited
      modifies this`pending, this`stream
      ensures Valid() && stream == old(stream) + Concat(replies) && pending == old(pending) + Concat(replies)
    {
      for i := 0 to |replies|
        invariant Valid() && stream == old(stream) + Concat(replies[..i])
        invariant pending == old(pending) + Concat(replies[..i])
      {
        Extend(replies[i]);
        assert replies[..i + 1][..i] == replies[..i];
      }
      assert replies[..|replies|] == replies;
    }

    /** One turn of the loop. Everything the turn brings joins the stream, up to where it ends. */
    method Step(turn: Turn)
      requires Valid() && !exited
      modifies this
      ensures Valid() && Value() == Turned(old(Value()), chunk, turn)
      ensures old(stream) <= stream <= old(stream) + Arrivals(turn) && old(accepted) <= accepted
      ensures !exited ==> stream == old(stream) + Arrivals(turn)
      ensures exited ==> Ends(turn)
      // A write goes on until it is finished; otherwise as much as fits a chunk goes in flight, and
      // only replies can wait while nothing does.
      ensures old(writing).Some? && turn.finished.None? ==>
                !exited && writing == old(writing) && accepted == old(accepted)
      ensures !exited && (old(writing).None? || turn.finished.Some?) ==>
                |InFlight(writing)| == Min(chunk, |InFlight(writing) + pending| - |Concat(turn.replies)|)
      ensures !exited && writing.None? ==> pending == Concat(turn.replies)
    {
      hide Valid, Concat, Min, Turned, InFlight, Ends, Arrivals;
      Work(turn);
      TurnLeaves(old(Value()), chunk, turn, Value());
    }

    /** Meet what the turn brings, submit, feed the replies. */
    method Work(turn: Turn)
      requires Valid() && !exited
      modifies this
      ensures Valid() && Value() == Turned(old(Value()), chunk, turn)
      ensures old(stream) <= stream <= old(stream) + Arrivals(turn)
      ensures !exited ==> stream == old(stream) + Arrivals(turn)
    {
      hide Valid, Concat, Met, Submitted;
      ExitedStays(Met(Value(), turn), chunk, turn.admitted);
      Meet(turn);
      if exited {
        return;
      }
      Submit(turn.admitted);
      if exited {
        return;
      }
      Feed(turn.replies);
    }
  }

  /** Turns until the loop ends, at the first turn that ends it. While it runs, what the system
      accepted, however much of the chunk in flight that is, what it has yet to accept and what
      is queued are together everything that arrived, in order; what it accepted is always the
      beginning of that. */
  method Run(chunk: nat, turns: seq<Turn>) returns (q: Queue)
    ensures q.Valid() && q.Value() == CourseOf(chunk, turns)
    ensures q.accepted <= AllArrivals(turns)
    ensures q.exited ==> exists n :: 0 <= n < |turns| && Ends(turns[n]) && q.accepted <= AllArrivals(turns[..n + 1])
    ensures !q.exited ==>
              forall k :: 0 <= k <= |InFlight(q.writing)| ==>
                (q.accepted + InFlight(q.writing)[..k]) + InFlight(q.writing)[k..] + q.pending == AllArrivals(turns)
    ensures !q.exited && q.writing.None? && q.pending == [] ==> q.accepted == AllArrivals(turns)
    ensures forall m: nat :: Settles(chunk, turns, m) ==> q.accepted == AllArrivals(turns)
  {
    hide Settles;
    q := new Queue(chunk);
    for i := 0 to |turns|
      invariant fresh(q) && q.Valid() && !q.exited && q.chunk == chunk && q.stream == AllArrivals(turns[..i])
      invariant q.Value() == CourseOf(chunk, turns[..i])
    {
      assert turns[..i + 1][..i] == turns[..i];
      q.Step(turns[i]);
      if q.exited {
        CourseStops(chunk, turns, i + 1);
        ArrivalsGrow(turns, i + 1);
        SettlesAccepted(chunk, turns, q.Value());
        return;
      }
    }
    assert turns[..|turns|] == turns;
    forall k | 0 <= k <= |InFlight(q.writing)|
      ensures (q.accepted + InFlight(q.writing)[..k]) + InFlight(q.writing)[k..] + q.pending == AllArrivals(turns)
    {
      AnyProgress(q.accepted, InFlight(q.writing), k, q.pending);
    }
    SettlesAccepted(chunk, turns, q.Value());
  }
}
