/** Moving one descriptor between a dedicated reader and a shared worker
    (experiments/pty/src/handoff.rs). Every access that another thread could interleave
    with is a step of its own. */
module Handoff {

  type Byte = b: int | 0 <= b < 256

  const RAMP: nat := 256

  // ----- delivery

  function Sum(chunk: seq<Byte>): nat {
    if chunk == [] then 0 else Sum(chunk[..|chunk| - 1]) + chunk[|chunk| - 1]
  }

  /** Bytes that are not the ramp value of their absolute offset. */
  function Wrong(chunk: seq<Byte>, start: nat): nat {
    if chunk == [] then 0
    else Wrong(chunk[..|chunk| - 1], start) + if chunk[|chunk| - 1] == (start + |chunk| - 1) % RAMP then 0 else 1
  }

  /** The scan inside `accept`. */
  method Check(chunk: seq<Byte>, start: nat) returns (sum: nat, wrong: nat)
    ensures sum == Sum(chunk) && wrong == Wrong(chunk, start)
  {
    sum, wrong := 0, 0;
    for i := 0 to |chunk|
      invariant sum == Sum(chunk[..i]) && wrong == Wrong(chunk[..i], start)
    {
      assert chunk[..i + 1][..i] == chunk[..i];
      sum := sum + chunk[i];
      if chunk[i] != (start + i) % RAMP {
        wrong := wrong + 1;
      }
    }
    assert chunk[..|chunk|] == chunk;
  }

  lemma {:induction false} SumConcat(a: seq<Byte>, b: seq<Byte>)
    ensures Sum(a + b) == Sum(a) + Sum(b)
  {
    if b == [] {
      assert a + b == a;
    } else {
      assert (a + b)[..|a + b| - 1] == a + b[..|b| - 1];
      SumConcat(a, b[..|b| - 1]);
    }
  }

  lemma {:induction false} WrongConcat(a: seq<Byte>, b: seq<Byte>, start: nat)
    ensures Wrong(a + b, start) == Wrong(a, start) + Wrong(b, start + |a|)
  {
    if b == [] {
      assert a + b == a;
    } else {
      assert (a + b)[..|a + b| - 1] == a + b[..|b| - 1];
      WrongConcat(a, b[..|b| - 1], start);
    }
  }

  predicate OnRamp(chunk: seq<Byte>, start: nat) {
    forall i :: 0 <= i < |chunk| ==> chunk[i] == (start + i) % 256
  }

  lemma RampPart(whole: seq<Byte>, from: nat, part: seq<Byte>)
    requires OnRamp(whole, 0) && from + |part| <= |whole| && part == whole[from..from + |part|]
    ensures OnRamp(part, from)
  {
    forall i | 0 <= i < |part| ensures part[i] == (from + i) % 256 {
      assert part[i] == whole[from + i];
    }
  }

  /** Nothing is wrong exactly with the ramp itself. */
  lemma {:induction false} WrongIff(chunk: seq<Byte>, start: nat)
    ensures Wrong(chunk, start) == 0 <==> OnRamp(chunk, start)
  {
    if chunk == [] {
    } else {
      var init := chunk[..|chunk| - 1];
      WrongIff(init, start);
      assert forall i :: 0 <= i < |init| ==> init[i] == chunk[i];
    }
  }

  // ----- the threads

  /** Where a reader is between reading a chunk and publishing it: `accept` loads the offset,
      adds to the checksum, adds to the mismatch count and stores the new offset, as four
      separate accesses. */
  datatype Micro =
    | Resting
    | Holding(chunk: seq<Byte>)
    | Loaded(chunk: seq<Byte>, start: nat)
    | Summed(chunk: seq<Byte>, start: nat)
    | Counted(chunk: seq<Byte>, start: nat)

  datatype Stream = Stream(produced: seq<Byte>, taken: nat, delivered: seq<Byte>,
                           bytes: nat, checksum: nat, disordered: nat)

  datatype Thread = Absent | Running(micro: Micro, stop: bool) | Stopped

  datatype Transfer = Adopt(session: nat) | Release(session: nat)

  datatype Purpose = Event | AdoptDrain | ReleaseDrain

  datatype Job = Idle | Draining(session: nat, purpose: Purpose, micro: Micro)

  datatype Worker = Worker(queue: seq<Transfer>, issued: nat, acknowledged: nat, owned: set<nat>, job: Job, stale: nat)

  datatype Coordinator = Free | Stopping(session: nat) | Awaiting(session: nat, adopt: bool, expected: nat)

  datatype State = State(streams: seq<Stream>, threads: seq<Thread>, workers: seq<Worker>, coordinator: Coordinator)

  function Home(s: State, session: nat): (w: nat)
    requires |s.workers| > 0
    ensures w < |s.workers|
  {
    session % |s.workers|
  }

  datatype Step =
    | Produce(session: nat, bytes: seq<Byte>)
    // the dedicated reader
    | ThreadReads(session: nat, count: nat) | ThreadAccepts(session: nat) | ThreadEnds(session: nat)
    // the shared worker
    | WorkerWakes(worker: nat, session: nat) | WorkerTakes(worker: nat)
    | WorkerReads(worker: nat, count: nat) | WorkerAccepts(worker: nat) | WorkerEnds(worker: nat)
    // the coordinator
    | BeginPark(session: nat) | SubmitAdopt | BeginWake(session: nat) | Acknowledge

  // ----- publishing

  function Took(d: Stream, count: nat): Stream {
    d.(taken := d.taken + count)
  }

  /** The next access of `accept`, and where the reader is after it. */
  function Accessed(d: Stream, m: Micro): Stream {
    match m
    case Loaded(chunk, _) => d.(checksum := d.checksum + Sum(chunk))
    case Summed(chunk, start) => d.(disordered := d.disordered + Wrong(chunk, start))
    case Counted(chunk, start) => d.(delivered := d.delivered + chunk, bytes := start + |chunk|)
    case _ => d
  }

  function Onward(d: Stream, m: Micro): Micro {
    match m
    case Resting => Resting
    case Holding(chunk) => Loaded(chunk, d.bytes)
    case Loaded(chunk, start) => Summed(chunk, start)
    case Summed(chunk, start) => Counted(chunk, start)
    case Counted(_, _) => Resting
  }

  /** What the checksum already counts of a chunk that is not published yet. */
  function Ahead(m: Micro): nat {
    if m.Summed? || m.Counted? then Sum(m.chunk) else 0
  }

  /** What the mismatch count already counts of such a chunk. */
  function WrongAhead(m: Micro): nat {
    if m.Counted? then Wrong(m.chunk, m.start) else 0
  }

  function InFlight(m: Micro): seq<Byte> {
    if m.Resting? then [] else m.chunk
  }

  /** Delivered bytes, then the chunk in some reader's hands, are exactly the bytes taken so far. */
  ghost predicate StreamOk(d: Stream, m: Micro) {
    && d.taken <= |d.produced|
    && d.delivered + InFlight(m) == d.produced[..d.taken]
    && d.bytes == |d.delivered|
    && (m.Loaded? || m.Summed? || m.Counted? ==> m.start == d.bytes)
    && d.checksum == Sum(d.delivered) + Ahead(m)
    && d.disordered == Wrong(d.delivered, 0) + WrongAhead(m)
  }

  lemma ProduceOk(d: Stream, m: Micro, bytes: seq<Byte>)
    requires StreamOk(d, m)
    ensures StreamOk(d.(produced := d.produced + bytes), m)
  {
    assert (d.produced + bytes)[..d.taken] == d.produced[..d.taken];
  }

  lemma ReadOk(d: Stream, count: nat)
    requires StreamOk(d, Resting) && d.taken + count <= |d.produced|
    ensures StreamOk(Took(d, count), Holding(d.produced[d.taken..d.taken + count]))
  {
    assert d.produced[..d.taken + count] == d.produced[..d.taken] + d.produced[d.taken..d.taken + count];
  }

  lemma AcceptOk(d: Stream, m: Micro)
    requires StreamOk(d, m)
    ensures StreamOk(Accessed(d, m), Onward(d, m))
  {
    match m
    case Counted(chunk, start) =>
      SumConcat(d.delivered, chunk);
      WrongConcat(d.delivered, chunk, 0);
      assert d.delivered + chunk + [] == d.produced[..d.taken];
    case _ =>
  }

  // ----- steps

  ghost predicate Shaped(s: State) {
    |s.workers| > 0 && |s.threads| == |s.streams|
  }

  predicate IsCommand(job: Job) {
    job.Draining? && job.purpose != Event
  }

  ghost predicate Enabled(s: State, step: Step) {
    Shaped(s) &&
    match step
    case Produce(x, bytes) => x < |s.streams|
    case ThreadReads(x, count) =>
      && x < |s.threads| && s.threads[x].Running? && s.threads[x].micro == Resting
      && 0 < count && s.streams[x].taken + count <= |s.streams[x].produced|
    case ThreadAccepts(x) => x < |s.threads| && s.threads[x].Running? && s.threads[x].micro != Resting
    case ThreadEnds(x) => x < |s.threads| && s.threads[x].Running? && s.threads[x].micro == Resting
    case WorkerWakes(w, x) => w < |s.workers| && s.workers[w].job == Idle
    case WorkerTakes(w) => w < |s.workers| && s.workers[w].job == Idle && s.workers[w].queue != []
    case WorkerReads(w, count) =>
      && w < |s.workers| && s.workers[w].job.Draining? && s.workers[w].job.micro == Resting
      && var x := s.workers[w].job.session;
         x < |s.streams| && 0 < count && s.streams[x].taken + count <= |s.streams[x].produced|
    case WorkerAccepts(w) =>
      w < |s.workers| && s.workers[w].job.Draining? && s.workers[w].job.micro != Resting
      && s.workers[w].job.session < |s.streams|
    case WorkerEnds(w) => w < |s.workers| && s.workers[w].job.Draining? && s.workers[w].job.micro == Resting
    case BeginPark(x) => s.coordinator == Free && x < |s.threads| && s.threads[x] != Absent
    case SubmitAdopt =>
      s.coordinator.Stopping? && s.coordinator.session < |s.threads| && s.threads[s.coordinator.session] == Stopped
    case BeginWake(x) => s.coordinator == Free && x < |s.threads| && s.threads[x] == Absent
    case Acknowledge =>
      && s.coordinator.Awaiting? && s.coordinator.session < |s.threads|
      && s.workers[Home(s, s.coordinator.session)].acknowledged >= s.coordinator.expected
  }

  function SetStream(s: State, x: nat, d: Stream): State
    requires x < |s.streams|
  {
    s.(streams := s.streams[x := d])
  }

  function SetThread(s: State, x: nat, t: Thread): State
    requires x < |s.threads|
  {
    s.(threads := s.threads[x := t])
  }

  function SetWorker(s: State, w: nat, k: Worker): State
    requires w < |s.workers|
  {
    s.(workers := s.workers[w := k])
  }

  function Submit(s: State, x: nat, adopt: bool): State
    requires |s.workers| > 0
  {
    var w := Home(s, x);
    var k := s.workers[w];
    SetWorker(s, w, k.(queue := k.queue + [if adopt then Adopt(x) else Release(x)], issued := k.issued + 1))
      .(coordinator := Awaiting(x, adopt, k.issued + 1))
  }

  /** The worker picks up one command: adopting takes ownership at once, releasing gives it
      up only when its drain is over. */
  function Taken(k: Worker): Worker
    requires k.queue != []
  {
    match k.queue[0]
    case Adopt(x) => k.(queue := k.queue[1..], owned := k.owned + {x}, job := Draining(x, AdoptDrain, Resting))
    case Release(x) => k.(queue := k.queue[1..], job := Draining(x, ReleaseDrain, Resting))
  }

  function Ended(k: Worker): Worker
    requires k.job.Draining?
  {
    match k.job.purpose
    case Event => k.(job := Idle)
    case AdoptDrain => k.(job := Idle, acknowledged := k.acknowledged + 1)
    case ReleaseDrain => k.(job := Idle, acknowledged := k.acknowledged + 1, owned := k.owned - {k.job.session})
  }

  ghost function Next(s: State, step: Step): State
    requires Enabled(s, step)
  {
    match step
    case Produce(x, bytes) => SetStream(s, x, s.streams[x].(produced := s.streams[x].produced + bytes))
    case ThreadReads(x, count) =>
      var d := s.streams[x];
      SetThread(SetStream(s, x, Took(d, count)), x,
                s.threads[x].(micro := Holding(d.produced[d.taken..d.taken + count])))
    case ThreadAccepts(x) =>
      var d, m := s.streams[x], s.threads[x].micro;
      SetThread(SetStream(s, x, Accessed(d, m)), x, s.threads[x].(micro := Onward(d, m)))
    case ThreadEnds(x) => SetThread(s, x, Stopped)
    case WorkerWakes(w, x) =>
      var k := s.workers[w];
      // The ownership flag, not the readiness event, decides whether the descriptor may be read.
      SetWorker(s, w, if x in k.owned then k.(job := Draining(x, Event, Resting)) else k.(stale := k.stale + 1))
    case WorkerTakes(w) => SetWorker(s, w, Taken(s.workers[w]))
    case WorkerReads(w, count) =>
      var k := s.workers[w];
      var d := s.streams[k.job.session];
      SetWorker(SetStream(s, k.job.session, Took(d, count)), w,
                k.(job := k.job.(micro := Holding(d.produced[d.taken..d.taken + count]))))
    case WorkerAccepts(w) =>
      var k := s.workers[w];
      var d := s.streams[k.job.session];
      SetWorker(SetStream(s, k.job.session, Accessed(d, k.job.micro)), w,
                k.(job := k.job.(micro := Onward(d, k.job.micro))))
    case WorkerEnds(w) => SetWorker(s, w, Ended(s.workers[w]))
    case BeginPark(x) =>
      SetThread(s, x, if s.threads[x].Running? then s.threads[x].(stop := true) else s.threads[x])
        .(coordinator := Stopping(x))
    case SubmitAdopt => Submit(SetThread(s, s.coordinator.session, Absent), s.coordinator.session, true)
    case BeginWake(x) => Submit(s, x, false)
    case Acknowledge =>
      (if s.coordinator.adopt then s else SetThread(s, s.coordinator.session, Running(Resting, false)))
        .(coordinator := Free)
  }

  // ----- the invariant

  predicate Quiet(k: Worker) {
    k.queue == [] && !IsCommand(k.job)
  }

  /** Where the one outstanding command of session `x` is: queued, being carried out, or done. */
  ghost predicate Pending(k: Worker, x: nat, adopt: bool) {
    || (k.queue == [if adopt then Adopt(x) else Release(x)] && !IsCommand(k.job) && (x in k.owned <==> !adopt))
    || (k.queue == [] && IsCommand(k.job) && k.job.session == x && x in k.owned
        && k.job.purpose == if adopt then AdoptDrain else ReleaseDrain)
    || (Quiet(k) && (x in k.owned <==> adopt))
  }

  ghost predicate WorkerOk(s: State, w: nat)
    requires Shaped(s) && w < |s.workers|
  {
    var k := s.workers[w];
    // A worker owns a session only while no dedicated reader exists for it.
    && (forall x :: x in k.owned ==> x < |s.threads| && Home(s, x) == w && s.threads[x] == Absent)
    && (k.job.Draining? ==> k.job.session in k.owned)
    && |k.queue| + k.acknowledged + (if IsCommand(k.job) then 1 else 0) == k.issued
  }

  ghost predicate CommandsOk(s: State)
    requires Shaped(s)
  {
    match s.coordinator
    case Free => forall w :: 0 <= w < |s.workers| ==> Quiet(s.workers[w])
    case Stopping(x) =>
      x < |s.threads| && s.threads[x] != Absent && forall w :: 0 <= w < |s.workers| ==> Quiet(s.workers[w])
    case Awaiting(x, adopt, expected) =>
      && x < |s.threads| && s.threads[x] == Absent
      && (forall w :: 0 <= w < |s.workers| && w != Home(s, x) ==> Quiet(s.workers[w]))
      && Pending(s.workers[Home(s, x)], x, adopt) && expected == s.workers[Home(s, x)].issued
  }

  /** A session with no dedicated reader is owned by its worker, unless it is being moved. */
  ghost predicate Placed(s: State)
    requires Shaped(s)
  {
    forall x :: 0 <= x < |s.threads| && s.threads[x] == Absent
                && !(s.coordinator.Awaiting? && s.coordinator.session == x) ==>
      x in s.workers[Home(s, x)].owned
  }

  /** What the one reader of session `x`, if any, has in its hands. */
  function Active(s: State, x: nat): Micro
    requires |s.workers| > 0 && x < |s.threads|
  {
    var job := s.workers[Home(s, x)].job;
    if s.threads[x].Running? then s.threads[x].micro
    else if job.Draining? && job.session == x then job.micro
    else Resting
  }

  ghost predicate DataOk(s: State)
    requires Shaped(s)
  {
    forall x :: 0 <= x < |s.streams| ==> StreamOk(s.streams[x], Active(s, x))
  }

  ghost predicate Inv(s: State) {
    && Shaped(s)
    && (forall w :: 0 <= w < |s.workers| ==> WorkerOk(s, w))
    && CommandsOk(s) && Placed(s) && DataOk(s)
  }

  ghost predicate Initial(s: State) {
    && Shaped(s) && s.coordinator == Free
    && (forall x :: 0 <= x < |s.threads| ==> s.threads[x] == Running(Resting, false))
    && (forall x :: 0 <= x < |s.streams| ==> s.streams[x] == Stream([], 0, [], 0, 0, 0))
    && (forall w :: 0 <= w < |s.workers| ==> s.workers[w] == Worker([], 0, 0, {}, Idle, 0))
  }

  lemma InitialOk(s: State)
    requires Initial(s)
    ensures Inv(s)
  {
  }

  // ----- steps of a reader

  /** Reading and publishing change nothing but one stream and what its reader holds. */
  ghost predicate OnlyData(s: State, t: State) {
    && Shaped(s) && Shaped(t) && |t.workers| == |s.workers| && |t.threads| == |s.threads|
    && t.coordinator == s.coordinator
    && (forall w :: 0 <= w < |s.workers| ==> SameJob(s.workers[w], t.workers[w]))
    && (forall x :: 0 <= x < |s.threads| ==> SamePlace(s.threads[x], t.threads[x]))
  }

  predicate SameJob(k: Worker, l: Worker) {
    && l.queue == k.queue && l.issued == k.issued && l.acknowledged == k.acknowledged && l.owned == k.owned
    && (k.job.Draining? <==> l.job.Draining?)
    && (k.job.Draining? ==> l.job.session == k.job.session && l.job.purpose == k.job.purpose)
  }

  predicate SamePlace(a: Thread, b: Thread) {
    && (a.Absent? <==> b.Absent?) && (a.Running? <==> b.Running?)
  }

  lemma OnlyDataOk(s: State, t: State)
    requires OnlyData(s, t) && Inv(s)
    ensures forall w :: 0 <= w < |t.workers| ==> WorkerOk(t, w)
    ensures CommandsOk(t) && Placed(t)
  {
    hide StreamOk, DataOk;
    forall w | 0 <= w < |t.workers| ensures WorkerOk(t, w) {
      assert WorkerOk(s, w) && SameJob(s.workers[w], t.workers[w]);
      forall x | x in t.workers[w].owned ensures x < |t.threads| && Home(t, x) == w && t.threads[x] == Absent {
        assert SamePlace(s.threads[x], t.threads[x]);
      }
    }
    OnlyDataCommands(s, t);
    OnlyDataPlaced(s, t);
  }

  lemma OnlyDataCommands(s: State, t: State)
    requires OnlyData(s, t) && CommandsOk(s)
    ensures CommandsOk(t)
  {
    forall w | 0 <= w < |s.workers| ensures Quiet(s.workers[w]) ==> Quiet(t.workers[w]) {
      assert SameJob(s.workers[w], t.workers[w]);
    }
    if s.coordinator.Awaiting? {
      assert SameJob(s.workers[Home(s, s.coordinator.session)], t.workers[Home(t, s.coordinator.session)]);
      assert SamePlace(s.threads[s.coordinator.session], t.threads[s.coordinator.session]);
    } else if s.coordinator.Stopping? {
      assert SamePlace(s.threads[s.coordinator.session], t.threads[s.coordinator.session]);
    }
  }

  lemma OnlyDataPlaced(s: State, t: State)
    requires OnlyData(s, t) && Placed(s)
    ensures Placed(t)
  {
    forall x | 0 <= x < |t.threads| && t.threads[x] == Absent
               && !(t.coordinator.Awaiting? && t.coordinator.session == x)
      ensures x in t.workers[Home(t, x)].owned
    {
      assert SamePlace(s.threads[x], t.threads[x]);
      assert SameJob(s.workers[Home(s, x)], t.workers[Home(t, x)]);
    }
  }

  /** One stream moves on; every other session's reader is where it was. */
  lemma DataMoves(s: State, t: State, x: nat, d: Stream)
    requires Shaped(s) && Shaped(t) && DataOk(s) && x < |s.streams|
    requires t.streams == s.streams[x := d] && StreamOk(d, Active(t, x))
    requires forall y :: 0 <= y < |s.streams| && y != x ==> Active(t, y) == Active(s, y)
    ensures DataOk(t)
  {
    hide StreamOk, Active;
  }

  lemma ThreadDataStep(s: State, x: nat, d: Stream, m: Micro)
    requires Inv(s) && x < |s.streams| && s.threads[x].Running? && StreamOk(d, m)
    ensures Inv(SetThread(SetStream(s, x, d), x, s.threads[x].(micro := m)))
  {
    hide StreamOk;
    var t := SetThread(SetStream(s, x, d), x, s.threads[x].(micro := m));
    OnlyDataOk(s, t);
    DataMoves(s, t, x, d);
  }

  lemma ProduceStep(s: State, x: nat, d: Stream)
    requires Inv(s) && x < |s.streams| && StreamOk(d, Active(s, x))
    ensures Inv(SetStream(s, x, d))
  {
    hide StreamOk;
    OnlyDataOk(s, SetStream(s, x, d));
    DataMoves(s, SetStream(s, x, d), x, d);
  }

  lemma WorkerDataStep(s: State, w: nat, d: Stream, m: Micro)
    requires Inv(s) && w < |s.workers| && s.workers[w].job.Draining?
    requires s.workers[w].job.session < |s.streams| && StreamOk(d, m)
    ensures Inv(SetWorker(SetStream(s, s.workers[w].job.session, d), w,
                          s.workers[w].(job := s.workers[w].job.(micro := m))))
  {
    hide StreamOk;
    var k := s.workers[w];
    var x := k.job.session;
    var t := SetWorker(SetStream(s, x, d), w, k.(job := k.job.(micro := m)));
    assert WorkerOk(s, w);
    OnlyDataOk(s, t);
    DataMoves(s, t, x, d);
  }

  /** The reader at work on a worker's session is that worker. */
  lemma DrainerIsActive(s: State, w: nat)
    requires Inv(s) && w < |s.workers| && s.workers[w].job.Draining?
    ensures s.workers[w].job.session < |s.streams|
    ensures Active(s, s.workers[w].job.session) == s.workers[w].job.micro
    ensures StreamOk(s.streams[s.workers[w].job.session], s.workers[w].job.micro)
  {
    hide StreamOk;
    assert WorkerOk(s, w);
  }

  lemma ReaderSteps(s: State, step: Step)
    requires Inv(s) && Enabled(s, step)
    requires step.Produce? || step.ThreadReads? || step.ThreadAccepts? || step.WorkerReads? || step.WorkerAccepts?
    ensures Inv(Next(s, step))
  {
    hide StreamOk, Inv, WorkerOk, CommandsOk, Placed, DataOk, Accessed, Onward;
    match step
    case Produce(x, bytes) =>
      SessionData(s, x);
      ProduceOk(s.streams[x], Active(s, x), bytes);
      ProduceStep(s, x, s.streams[x].(produced := s.streams[x].produced + bytes));
    case ThreadReads(x, count) =>
      SessionData(s, x);
      ReadOk(s.streams[x], count);
      ThreadDataStep(s, x, Took(s.streams[x], count),
                     Holding(s.streams[x].produced[s.streams[x].taken..s.streams[x].taken + count]));
    case ThreadAccepts(x) =>
      SessionData(s, x);
      AcceptOk(s.streams[x], s.threads[x].micro);
      ThreadDataStep(s, x, Accessed(s.streams[x], s.threads[x].micro), Onward(s.streams[x], s.threads[x].micro));
    case WorkerReads(w, count) =>
      DrainerIsActive(s, w);
      var d := s.streams[s.workers[w].job.session];
      ReadOk(d, count);
      WorkerDataStep(s, w, Took(d, count), Holding(d.produced[d.taken..d.taken + count]));
    case WorkerAccepts(w) =>
      DrainerIsActive(s, w);
      var d, m := s.streams[s.workers[w].job.session], s.workers[w].job.micro;
      AcceptOk(d, m);
      WorkerDataStep(s, w, Accessed(d, m), Onward(d, m));
  }

  lemma SessionData(s: State, x: nat)
    requires Inv(s) && x < |s.streams|
    ensures StreamOk(s.streams[x], Active(s, x))
  {
    hide StreamOk;
  }

  // ----- steps of the handoff

  /** Nobody's hands changed. */
  ghost predicate SameHands(s: State, t: State) {
    && Shaped(s) && Shaped(t) && t.streams == s.streams && |t.workers| == |s.workers|
    && forall x :: 0 <= x < |s.streams| ==> Active(t, x) == Active(s, x)
  }

  lemma DataStays(s: State, t: State)
    requires SameHands(s, t) && DataOk(s)
    ensures DataOk(t)
  {
    hide StreamOk, Active;
  }

  /** A dedicated reader excludes its worker. */
  lemma DedicatedExcludes(s: State, x: nat)
    requires Inv(s) && x < |s.threads| && s.threads[x] != Absent
    ensures x !in s.workers[Home(s, x)].owned
    ensures !(s.workers[Home(s, x)].job.Draining? && s.workers[Home(s, x)].job.session == x)
  {
    hide StreamOk;
    assert WorkerOk(s, Home(s, x));
  }

  lemma ThreadChanges(s: State, x: nat, t: Thread, c: Coordinator)
    requires Inv(s) && x < |s.threads| && s.threads[x] != Absent && t != Absent
    requires t.Running? ==> s.threads[x].Running? && t.micro == s.threads[x].micro
    requires t.Stopped? && s.threads[x].Running? ==> s.threads[x].micro == Resting
    requires c == s.coordinator || (s.coordinator == Free && c == Stopping(x))
    ensures Inv(SetThread(s, x, t).(coordinator := c))
  {
    hide StreamOk;
    var after := SetThread(s, x, t).(coordinator := c);
    DedicatedExcludes(s, x);
    forall w | 0 <= w < |s.workers| ensures WorkerOk(after, w) {
      assert WorkerOk(s, w);
    }
    assert SameHands(s, after);
    DataStays(s, after);
  }

  lemma WorkerWakesOk(s: State, w: nat, x: nat)
    requires Inv(s) && Enabled(s, WorkerWakes(w, x))
    ensures Inv(Next(s, WorkerWakes(w, x)))
  {
    hide StreamOk;
    var t := Next(s, WorkerWakes(w, x));
    assert WorkerOk(s, w);
    forall v | 0 <= v < |s.workers| ensures WorkerOk(t, v) {
      assert WorkerOk(s, v);
    }
    assert SameHands(s, t);
    DataStays(s, t);
  }

  /** A queued command belongs to the session the coordinator is moving. */
  lemma QueuedCommand(s: State, w: nat)
    requires Inv(s) && w < |s.workers| && (s.workers[w].queue != [] || IsCommand(s.workers[w].job))
    ensures s.coordinator.Awaiting? && s.coordinator.session < |s.threads| && Home(s, s.coordinator.session) == w
    ensures s.threads[s.coordinator.session] == Absent
    ensures Pending(s.workers[w], s.coordinator.session, s.coordinator.adopt)
  {
    hide StreamOk, Pending;
    assert !Quiet(s.workers[w]);
  }

  lemma WorkerTakesOk(s: State, w: nat)
    requires Inv(s) && Enabled(s, WorkerTakes(w))
    ensures Inv(Next(s, WorkerTakes(w)))
  {
    hide StreamOk;
    var t := Next(s, WorkerTakes(w));
    QueuedCommand(s, w);
    assert WorkerOk(s, w);
    var x, adopt := s.coordinator.session, s.coordinator.adopt;
    assert s.workers[w].queue == [if adopt then Adopt(x) else Release(x)];
    forall v | 0 <= v < |s.workers| ensures WorkerOk(t, v) {
      assert WorkerOk(s, v);
    }
    assert SameHands(s, t);
    DataStays(s, t);
  }

  lemma WorkerEndsOk(s: State, w: nat)
    requires Inv(s) && Enabled(s, WorkerEnds(w))
    ensures Inv(Next(s, WorkerEnds(w)))
  {
    hide StreamOk;
    var t := Next(s, WorkerEnds(w));
    if IsCommand(s.workers[w].job) {
      QueuedCommand(s, w);
    }
    assert WorkerOk(s, w);
    forall v | 0 <= v < |s.workers| ensures WorkerOk(t, v) {
      assert WorkerOk(s, v);
    }
    assert SameHands(s, t);
    DataStays(s, t);
  }

  lemma SubmitAdoptOk(s: State)
    requires Inv(s) && Enabled(s, SubmitAdopt)
    ensures Inv(Next(s, SubmitAdopt))
  {
    hide StreamOk;
    var x, t := s.coordinator.session, Next(s, SubmitAdopt);
    DedicatedExcludes(s, x);
    forall v | 0 <= v < |s.workers| ensures WorkerOk(t, v) {
      assert WorkerOk(s, v);
    }
    assert SameHands(s, t);
    DataStays(s, t);
  }

  lemma BeginWakeOk(s: State, x: nat)
    requires Inv(s) && Enabled(s, BeginWake(x))
    ensures Inv(Next(s, BeginWake(x)))
  {
    hide StreamOk;
    var t := Next(s, BeginWake(x));
    forall v | 0 <= v < |s.workers| ensures WorkerOk(t, v) {
      assert WorkerOk(s, v);
    }
    assert SameHands(s, t);
    DataStays(s, t);
  }

  lemma AcknowledgeOk(s: State)
    requires Inv(s) && Enabled(s, Acknowledge)
    ensures Inv(Next(s, Acknowledge))
  {
    hide StreamOk;
    var x, t := s.coordinator.session, Next(s, Acknowledge);
    assert WorkerOk(s, Home(s, x));
    assert Quiet(s.workers[Home(s, x)]);
    forall v | 0 <= v < |s.workers| ensures WorkerOk(t, v) {
      assert WorkerOk(s, v);
    }
    assert SameHands(s, t);
    DataStays(s, t);
  }

  /** Every step of every thread keeps the invariant. */
  lemma StepOk(s: State, step: Step)
    requires Inv(s) && Enabled(s, step)
    ensures Inv(Next(s, step))
  {
    hide Inv, StreamOk;
    match step
    case ThreadEnds(x) =>
      ThreadChanges(s, x, Stopped, s.coordinator);
    case BeginPark(x) =>
      ThreadChanges(s, x, if s.threads[x].Running? then s.threads[x].(stop := true) else s.threads[x], Stopping(x));
    case WorkerWakes(w, x) => WorkerWakesOk(s, w, x);
    case WorkerTakes(w) => WorkerTakesOk(s, w);
    case WorkerEnds(w) => WorkerEndsOk(s, w);
    case SubmitAdopt => SubmitAdoptOk(s);
    case BeginWake(x) => BeginWakeOk(s, x);
    case Acknowledge => AcknowledgeOk(s);
    case _ => ReaderSteps(s, step);
  }

  // ----- whole runs

  ghost predicate IsRun(states: seq<State>, steps: seq<Step>) {
    && |states| == |steps| + 1 && Initial(states[0])
    && forall i :: 0 <= i < |steps| ==> Enabled(states[i], steps[i]) && states[i + 1] == Next(states[i], steps[i])
  }

  lemma {:induction false} RunOk(states: seq<State>, steps: seq<Step>, i: nat)
    requires IsRun(states, steps) && i < |states|
    ensures Inv(states[i])
  {
    if i == 0 {
      InitialOk(states[0]);
    } else {
      RunOk(states, steps, i - 1);
      assert Enabled(states[i - 1], steps[i - 1]) && states[i - 1 + 1] == Next(states[i - 1], steps[i - 1]);
      StepOk(states[i - 1], steps[i - 1]);
    }
  }

  /** In every state of every run: a session's dedicated reader and its worker are never both
      at work on it, a worker only ever reads what it owns, and what was delivered is exactly
      the beginning of what was produced, however often the session was parked and woken. The
      checksum is that of the delivered bytes, ahead only by a chunk that is summed and not
      published yet, and the mismatch count that of the delivered bytes against the ramp. */
  lemma DeliveryIsPrefix(states: seq<State>, steps: seq<Step>, i: nat, x: nat)
    requires IsRun(states, steps) && i < |states| && x < |states[i].streams|
    ensures |states[i].workers| > 0 && |states[i].threads| == |states[i].streams|
    ensures forall w :: 0 <= w < |states[i].workers| && states[i].workers[w].job.Draining?
                        && states[i].workers[w].job.session == x ==>
              && states[i].threads[x] == Absent && w == Home(states[i], x) && x in states[i].workers[w].owned
    ensures states[i].streams[x].delivered <= states[i].streams[x].produced
    ensures states[i].streams[x].bytes == |states[i].streams[x].delivered|
    ensures states[i].streams[x].checksum == Sum(states[i].streams[x].delivered) + Ahead(Active(states[i], x))
    ensures states[i].streams[x].disordered ==
              Wrong(states[i].streams[x].delivered, 0) + WrongAhead(Active(states[i], x))
    ensures OnRamp(states[i].streams[x].produced, 0) ==> states[i].streams[x].disordered == 0
    ensures states[i].streams[x].disordered == 0 ==> OnRamp(states[i].streams[x].delivered, 0)
  {
    RunOk(states, steps, i);
    SessionData(states[i], x);
    DeliveredIsPrefix(states[i].streams[x], Active(states[i], x));
    hide StreamOk;
    forall w | 0 <= w < |states[i].workers| && states[i].workers[w].job.Draining?
               && states[i].workers[w].job.session == x
      ensures states[i].threads[x] == Absent && w == Home(states[i], x) && x in states[i].workers[w].owned
    {
      assert WorkerOk(states[i], w);
    }
  }

  lemma DeliveredIsPrefix(d: Stream, m: Micro)
    requires StreamOk(d, m)
    ensures d.delivered <= d.produced
    ensures OnRamp(d.produced, 0) ==> d.disordered == 0
    ensures d.disordered == 0 ==> OnRamp(d.delivered, 0)
  {
    hide OnRamp, Wrong, Sum;
    assert d.delivered <= d.produced[..d.taken];
    WrongIff(d.delivered, 0);
    if m.Counted? {
      WrongIff(m.chunk, m.start);
      assert m.chunk == d.produced[m.start..m.start + |m.chunk|];
    }
    if OnRamp(d.produced, 0) {
      RampPart(d.produced, 0, d.delivered);
      if m.Counted? {
        RampPart(d.produced, m.start, m.chunk);
      }
    }
  }

  // ----- stale events

  predicate IsStale(s: State, step: Step, w: nat) {
    step.WorkerWakes? && step.worker == w && w < |s.workers| && step.session !in s.workers[w].owned
  }

  /** Readiness events worker `w` got for sessions it did not own, among the first `i` steps. */
  function StaleEvents(states: seq<State>, steps: seq<Step>, w: nat, i: nat): nat
    requires i <= |steps| && i <= |states|
  {
    if i == 0 then 0
    else StaleEvents(states, steps, w, i - 1) + if IsStale(states[i - 1], steps[i - 1], w) then 1 else 0
  }

  lemma StaleStep(s: State, step: Step, w: nat)
    requires Enabled(s, step) && w < |s.workers|
    ensures |Next(s, step).workers| == |s.workers|
    ensures Next(s, step).workers[w].stale == s.workers[w].stale + if IsStale(s, step, w) then 1 else 0
  {
  }

  /** A worker's stale count is the number of events for sessions it did not own, and no others. */
  lemma {:induction false} StaleIsExact(states: seq<State>, steps: seq<Step>, w: nat, i: nat)
    requires IsRun(states, steps) && i < |states| && w < |states[0].workers|
    ensures |states[i].workers| == |states[0].workers|
    ensures states[i].workers[w].stale == StaleEvents(states, steps, w, i)
  {
    if i == 0 {
    } else {
      hide Enabled, Next, IsStale;
      StaleIsExact(states, steps, w, i - 1);
      assert Enabled(states[i - 1], steps[i - 1]) && states[i - 1 + 1] == Next(states[i - 1], steps[i - 1]);
      StaleStep(states[i - 1], steps[i - 1], w);
    }
  }

  // ----- nothing has to stay behind

  /** The steps can be taken from `s`, one after the other, and lead to `t`. */
  ghost predicate Leads(s: State, steps: seq<Step>, t: State)
    decreases |steps|
  {
    if steps == [] then t == s
    else Enabled(s, steps[0]) && Leads(Next(s, steps[0]), steps[1..], t)
  }

  lemma LeadsFirst(s: State, step: Step, steps: seq<Step>, t: State)
    requires Enabled(s, step) && Leads(Next(s, step), steps, t)
    ensures Leads(s, [step] + steps, t)
  {
    hide Enabled, Next;
    assert ([step] + steps)[1..] == steps;
  }

  lemma LeadsOn(s: State, steps: seq<Step>, t: State, more: seq<Step>, u: State)
    requires Leads(s, steps, t) && Leads(t, more, u)
    ensures Leads(s, steps + more, u)
    decreases |steps|
  {
    hide Enabled, Next;
    if steps == [] {
      assert steps + more == more;
    } else {
      LeadsOn(Next(s, steps[0]), steps[1..], t, more, u);
      assert steps + more == [steps[0]] + (steps[1..] + more);
      LeadsFirst(s, steps[0], steps[1..] + more, u);
    }
  }

  function FourTimes(step: Step): seq<Step> {
    [step, step, step, step]
  }

  /** `chunk` published behind what was delivered before. */
  function Published(d: Stream, chunk: seq<Byte>): Stream {
    d.(delivered := d.delivered + chunk, bytes := d.bytes + |chunk|, checksum := d.checksum + Sum(chunk),
       disordered := d.disordered + Wrong(chunk, d.bytes))
  }

  function Working(s: State, w: nat, d: Stream, m: Micro): State
    requires w < |s.workers| && s.workers[w].job.Draining? && s.workers[w].job.session < |s.streams|
  {
    SetWorker(SetStream(s, s.workers[w].job.session, d), w, s.workers[w].(job := s.workers[w].job.(micro := m)))
  }

  lemma WorkerAccess(s: State, w: nat, d: Stream, m: Micro, steps: seq<Step>, t: State)
    requires Shaped(s) && w < |s.workers| && s.workers[w].job.Draining? && s.workers[w].job.session < |s.streams|
    requires m != Resting && Leads(Working(s, w, Accessed(d, m), Onward(d, m)), steps, t)
    ensures Leads(Working(s, w, d, m), [WorkerAccepts(w)] + steps, t)
  {
    hide Accessed, Onward, Leads;
    var a := Working(s, w, d, m);
    assert Next(a, WorkerAccepts(w)).streams == Working(s, w, Accessed(d, m), Onward(d, m)).streams;
    assert Next(a, WorkerAccepts(w)).workers == Working(s, w, Accessed(d, m), Onward(d, m)).workers;
    LeadsFirst(a, WorkerAccepts(w), steps, t);
  }

  /** A worker's four accesses publish the chunk it holds. */
  lemma WorkerPublishes(s: State, w: nat, d: Stream, chunk: seq<Byte>)
    requires Shaped(s) && w < |s.workers| && s.workers[w].job.Draining? && s.workers[w].job.session < |s.streams|
    ensures Leads(Working(s, w, d, Holding(chunk)), FourTimes(WorkerAccepts(w)),
                  Working(s, w, Published(d, chunk), Resting))
  {
    var t := Working(s, w, Published(d, chunk), Resting);
    var summed := d.(checksum := d.checksum + Sum(chunk));
    var counted := summed.(disordered := d.disordered + Wrong(chunk, d.bytes));
    var step := WorkerAccepts(w);
    assert Leads(t, [], t);
    hide Leads, Working, Sum, Wrong;
    WorkerAccess(s, w, counted, Counted(chunk, d.bytes), [], t);
    WorkerAccess(s, w, summed, Summed(chunk, d.bytes), [step] + [], t);
    WorkerAccess(s, w, d, Loaded(chunk, d.bytes), [step] + ([step] + []), t);
    WorkerAccess(s, w, d, Holding(chunk), [step] + ([step] + ([step] + [])), t);
    assert FourTimes(step) == [step] + ([step] + ([step] + ([step] + [])));
  }

  /** A session parked with its worker, which is not at work, and not about to move. */
  ghost predicate Parked(s: State, x: nat) {
    && Shaped(s) && x < |s.threads| && s.threads[x] == Absent && s.workers[Home(s, x)].job == Idle
    && !(s.coordinator.Awaiting? && s.coordinator.session == x)
  }

  lemma ParkedIsOwned(s: State, x: nat)
    requires Inv(s) && Parked(s, x)
    ensures x in s.workers[Home(s, x)].owned && StreamOk(s.streams[x], Resting)
  {
    hide StreamOk, WorkerOk, CommandsOk;
  }

  lemma AllDelivered(d: Stream)
    requires StreamOk(d, Resting)
    ensures Published(Took(d, |d.produced| - d.taken), d.produced[d.taken..]).delivered == d.produced
  {
    assert d.delivered + [] == d.delivered;
    assert d.produced[..d.taken] + d.produced[d.taken..] == d.produced;
  }

  lemma ParkedReads(s: State, x: nat, rest: nat)
    requires Inv(s) && Parked(s, x) && 0 < rest == |s.streams[x].produced| - s.streams[x].taken
    ensures var w := Home(s, x);
            && Enabled(s, WorkerWakes(w, x)) && Enabled(Next(s, WorkerWakes(w, x)), WorkerReads(w, rest))
            && Next(s, WorkerWakes(w, x)).workers[w].job == Draining(x, Event, Resting)
            && Next(Next(s, WorkerWakes(w, x)), WorkerReads(w, rest)) ==
               Working(Next(s, WorkerWakes(w, x)), w, Took(s.streams[x], rest),
                       Holding(s.streams[x].produced[s.streams[x].taken..]))
  {
    ParkedIsOwned(s, x);
    hide Inv, StreamOk;
    assert s.streams[x].produced[s.streams[x].taken..s.streams[x].taken + rest] ==
           s.streams[x].produced[s.streams[x].taken..];
  }

  /** In every state of every run, an event for a parked session with unread output lets its worker,
      idle until then, read the rest and publish it in four accesses: everything is delivered. */
  lemma ParkedDelivers(states: seq<State>, steps: seq<Step>, i: nat, x: nat, rest: nat) returns (t: State)
    requires IsRun(states, steps) && i < |states| && Parked(states[i], x)
    requires 0 < rest == |states[i].streams[x].produced| - states[i].streams[x].taken
    ensures var w := Home(states[i], x);
            Leads(states[i], [WorkerWakes(w, x), WorkerReads(w, rest)] + FourTimes(WorkerAccepts(w)), t)
    ensures x < |t.streams| && t.streams[x].delivered == t.streams[x].produced == states[i].streams[x].produced
  {
    var s := states[i];
    var w, d := Home(s, x), s.streams[x];
    RunOk(states, steps, i);
    ParkedReads(s, x, rest);
    ParkedIsOwned(s, x);
    AllDelivered(d);
    var awake := Next(s, WorkerWakes(w, x));
    t := Working(awake, w, Published(Took(d, rest), d.produced[d.taken..]), Resting);
    WorkerPublishes(awake, w, Took(d, rest), d.produced[d.taken..]);
    hide Enabled, Next, Inv, StreamOk, Leads;
    var accepts := FourTimes(WorkerAccepts(w));
    LeadsFirst(awake, WorkerReads(w, rest), accepts, t);
    LeadsFirst(s, WorkerWakes(w, x), [WorkerReads(w, rest)] + accepts, t);
    assert [WorkerWakes(w, x), WorkerReads(w, rest)] + accepts ==
           [WorkerWakes(w, x)] + ([WorkerReads(w, rest)] + accepts);
  }

  // ----- the same for a dedicated reader

  function Dedicated(s: State, x: nat, d: Stream, m: Micro): State
    requires x < |s.streams| == |s.threads| && s.threads[x].Running?
  {
    SetThread(SetStream(s, x, d), x, s.threads[x].(micro := m))
  }

  lemma ThreadAccess(s: State, x: nat, d: Stream, m: Micro, steps: seq<Step>, t: State)
    requires Shaped(s) && x < |s.streams| && s.threads[x].Running?
    requires m != Resting && Leads(Dedicated(s, x, Accessed(d, m), Onward(d, m)), steps, t)
    ensures Leads(Dedicated(s, x, d, m), [ThreadAccepts(x)] + steps, t)
  {
    hide Accessed, Onward, Leads;
    var a := Dedicated(s, x, d, m);
    assert Next(a, ThreadAccepts(x)).streams == Dedicated(s, x, Accessed(d, m), Onward(d, m)).streams;
    assert Next(a, ThreadAccepts(x)).threads == Dedicated(s, x, Accessed(d, m), Onward(d, m)).threads;
    LeadsFirst(a, ThreadAccepts(x), steps, t);
  }

  lemma ThreadPublishes(s: State, x: nat, d: Stream, chunk: seq<Byte>)
    requires Shaped(s) && x < |s.streams| && s.threads[x].Running?
    ensures Leads(Dedicated(s, x, d, Holding(chunk)), FourTimes(ThreadAccepts(x)),
                  Dedicated(s, x, Published(d, chunk), Resting))
  {
    var t := Dedicated(s, x, Published(d, chunk), Resting);
    var summed := d.(checksum := d.checksum + Sum(chunk));
    var counted := summed.(disordered := d.disordered + Wrong(chunk, d.bytes));
    var step := ThreadAccepts(x);
    assert Leads(t, [], t);
    hide Leads, Dedicated, Sum, Wrong;
    ThreadAccess(s, x, counted, Counted(chunk, d.bytes), [], t);
    ThreadAccess(s, x, summed, Summed(chunk, d.bytes), [step] + [], t);
    ThreadAccess(s, x, d, Loaded(chunk, d.bytes), [step] + ([step] + []), t);
    ThreadAccess(s, x, d, Holding(chunk), [step] + ([step] + ([step] + [])), t);
    assert FourTimes(step) == [step] + ([step] + ([step] + ([step] + [])));
  }

  lemma DedicatedReads(s: State, x: nat, rest: nat)
    requires Shaped(s) && x < |s.threads| && s.threads[x].Running? && s.threads[x].micro == Resting
    requires 0 < rest == |s.streams[x].produced| - s.streams[x].taken
    ensures Enabled(s, ThreadReads(x, rest))
    ensures Next(s, ThreadReads(x, rest)) ==
              Dedicated(s, x, Took(s.streams[x], rest), Holding(s.streams[x].produced[s.streams[x].taken..]))
  {
    assert s.streams[x].produced[s.streams[x].taken..s.streams[x].taken + rest] ==
           s.streams[x].produced[s.streams[x].taken..];
  }

  /** A dedicated reader between two reads delivers everything with one more. */
  lemma DedicatedDelivers(states: seq<State>, steps: seq<Step>, i: nat, x: nat, rest: nat) returns (t: State)
    requires IsRun(states, steps) && i < |states| && Shaped(states[i]) && x < |states[i].threads|
    requires states[i].threads[x].Running? && states[i].threads[x].micro == Resting
    requires 0 < rest == |states[i].streams[x].produced| - states[i].streams[x].taken
    ensures Leads(states[i], [ThreadReads(x, rest)] + FourTimes(ThreadAccepts(x)), t)
    ensures x < |t.streams| && t.streams[x].delivered == t.streams[x].produced == states[i].streams[x].produced
  {
    hide Enabled, Next, Inv, StreamOk, Leads;
    var s := states[i];
    var d := s.streams[x];
    RunOk(states, steps, i);
    SessionData(s, x);
    AllDelivered(d);
    DedicatedReads(s, x, rest);
    t := Dedicated(s, x, Published(Took(d, rest), d.produced[d.taken..]), Resting);
    ThreadPublishes(s, x, Took(d, rest), d.produced[d.taken..]);
    LeadsFirst(s, ThreadReads(x, rest), FourTimes(ThreadAccepts(x)), t);
  }

  // ----- and every move can be completed

  /** An idle worker with nothing but the coordinator's command to carry out. */
  ghost predicate Commanded(s: State, x: nat, adopt: bool) {
    && Shaped(s) && x < |s.threads| && s.threads[x] == Absent
    && var k := s.workers[Home(s, x)];
       && k.queue == [if adopt then Adopt(x) else Release(x)] && k.job == Idle && k.acknowledged + 1 == k.issued
       && s.coordinator == Awaiting(x, adopt, k.issued)
  }

  /** The worker takes the command, ends its drain, and the coordinator hears of it. */
  lemma CommandCompletes(s: State, x: nat, adopt: bool) returns (t: State)
    requires Commanded(s, x, adopt)
    ensures Leads(s, [WorkerTakes(Home(s, x)), WorkerEnds(Home(s, x)), Acknowledge], t)
    ensures Shaped(t) && |t.workers| == |s.workers| && t.streams == s.streams && t.coordinator == Free
    ensures x < |t.threads| && t.threads[x] == if adopt then Absent else Running(Resting, false)
    ensures t.workers[Home(t, x)].job == Idle && (x in t.workers[Home(t, x)].owned <==> adopt)
  {
    var w := Home(s, x);
    var e := Next(s, WorkerTakes(w));
    var f := Next(e, WorkerEnds(w));
    t := Next(f, Acknowledge);
    assert Leads(t, [], t);
    hide Leads;
    LeadsFirst(f, Acknowledge, [], t);
    LeadsFirst(e, WorkerEnds(w), [Acknowledge], t);
    LeadsFirst(s, WorkerTakes(w), [WorkerEnds(w), Acknowledge], t);
  }

  /** An idle worker of a coordinator at rest has carried out all its commands. */
  lemma IdleIsDone(s: State, w: nat)
    requires Inv(s) && s.coordinator == Free && w < |s.workers| && s.workers[w].job == Idle
    ensures s.workers[w].queue == [] && s.workers[w].acknowledged == s.workers[w].issued
  {
    hide StreamOk, Placed, DataOk;
    assert WorkerOk(s, w) && Quiet(s.workers[w]);
  }

  lemma ReaderStops(s: State, x: nat) returns (t: State)
    requires Shaped(s) && x < |s.threads| && s.coordinator == Free
    requires s.threads[x].Running? && s.threads[x].micro == Resting
    requires s.workers[Home(s, x)].job == Idle && s.workers[Home(s, x)].queue == []
    requires s.workers[Home(s, x)].acknowledged == s.workers[Home(s, x)].issued
    ensures Leads(s, [BeginPark(x), ThreadEnds(x), SubmitAdopt], t)
    ensures Commanded(t, x, true) && |t.workers| == |s.workers| && t.streams == s.streams
  {
    var a := Next(s, BeginPark(x));
    var b := Next(a, ThreadEnds(x));
    t := Next(b, SubmitAdopt);
    assert Leads(t, [], t);
    hide Leads;
    LeadsFirst(b, SubmitAdopt, [], t);
    LeadsFirst(a, ThreadEnds(x), [SubmitAdopt], t);
    LeadsFirst(s, BeginPark(x), [ThreadEnds(x), SubmitAdopt], t);
  }

  /** Parking a session between two reads, its worker idle: the reader ends, the worker adopts the
      session and acknowledges. */
  lemma ParkCompletes(states: seq<State>, steps: seq<Step>, i: nat, x: nat) returns (t: State)
    requires IsRun(states, steps) && i < |states| && Shaped(states[i]) && x < |states[i].threads|
    requires states[i].coordinator == Free && states[i].workers[Home(states[i], x)].job == Idle
    requires states[i].threads[x].Running? && states[i].threads[x].micro == Resting
    ensures var w := Home(states[i], x);
            Leads(states[i], [BeginPark(x), ThreadEnds(x), SubmitAdopt, WorkerTakes(w), WorkerEnds(w), Acknowledge], t)
    ensures Parked(t, x) && t.coordinator == Free && t.streams == states[i].streams
  {
    hide Inv, Enabled, Next, Leads;
    var w := Home(states[i], x);
    RunOk(states, steps, i);
    IdleIsDone(states[i], w);
    var stopped := ReaderStops(states[i], x);
    t := CommandCompletes(stopped, x, true);
    LeadsOn(states[i], [BeginPark(x), ThreadEnds(x), SubmitAdopt], stopped,
            [WorkerTakes(w), WorkerEnds(w), Acknowledge], t);
    assert [BeginPark(x), ThreadEnds(x), SubmitAdopt, WorkerTakes(w), WorkerEnds(w), Acknowledge] ==
           [BeginPark(x), ThreadEnds(x), SubmitAdopt] + [WorkerTakes(w), WorkerEnds(w), Acknowledge];
  }

  /** Waking a parked session: the worker gives it up and acknowledges, and a dedicated reader starts. */
  lemma WakeCompletes(states: seq<State>, steps: seq<Step>, i: nat, x: nat) returns (t: State)
    requires IsRun(states, steps) && i < |states| && Parked(states[i], x) && states[i].coordinator == Free
    ensures var w := Home(states[i], x);
            Leads(states[i], [BeginWake(x), WorkerTakes(w), WorkerEnds(w), Acknowledge], t)
    ensures Shaped(t) && x < |t.threads| && t.threads[x] == Running(Resting, false)
    ensures x !in t.workers[Home(t, x)].owned
    ensures t.coordinator == Free && t.streams == states[i].streams
  {
    var s := states[i];
    var w := Home(s, x);
    RunOk(states, steps, i);
    IdleIsDone(s, w);
    hide Inv;
    assert Commanded(Next(s, BeginWake(x)), x, false);
    hide Leads;
    t := CommandCompletes(Next(s, BeginWake(x)), x, false);
    LeadsFirst(s, BeginWake(x), [WorkerTakes(w), WorkerEnds(w), Acknowledge], t);
  }
}
