/** Status endpoints that send each kind of frame at most once, and what a peer
    therefore receives (helpers/guardian/src/links.rs). */
module Endpoints {
  import opened Wrappers
  import opened Protocol
  import opened Channels

  type Values = (Int32, Int32, Int32, Int32)

  const SLOTS: nat := 19

  /** Successor and Finish can carry a new handoff; every other kind is said once. */
  predicate Repeatable(kind: Kind) {
    kind == Successor || kind == Kind.Finish
  }

  function Count(frames: seq<Frame>, kind: Kind): nat {
    if frames == [] then 0
    else Count(frames[..|frames| - 1], kind) + if frames[|frames| - 1].kind == kind then 1 else 0
  }

  lemma {:induction false} CountPrefix(frames: seq<Frame>, n: nat, kind: Kind)
    requires n <= |frames|
    ensures Count(frames[..n], kind) <= Count(frames, kind)
    decreases |frames| - n
  {
    if n == |frames| {
      assert frames[..n] == frames;
    } else {
      CountPrefix(frames, n + 1, kind);
      assert frames[..n + 1][..n] == frames[..n];
    }
  }

  lemma CountSnoc(frames: seq<Frame>, f: Frame, kind: Kind)
    ensures Count(frames + [f], kind) == Count(frames, kind) + if f.kind == kind then 1 else 0
  {
    assert (frames + [f])[..|frames|] == frames;
  }

  lemma CodeInjective(a: Kind, b: Kind)
    requires Code(a) == Code(b)
    ensures a == b
  {
  }

  /** Each slot waits for a frame of its own kind, already recorded as sent. */
  ghost predicate Slotted(pending: seq<Option<Frame>>, sent: seq<Option<Values>>) {
    && |pending| == |sent| == SLOTS
    && forall i :: 0 <= i < SLOTS && pending[i].Some? ==>
         Code(pending[i].value.kind) == i && sent[i] == Some(pending[i].value.values)
  }

  function Weight<T>(o: Option<T>): nat {
    if o.Some? then 1 else 0
  }

  /** No kind but the repeatable ones was ever taken twice. */
  ghost predicate Once(accepted: seq<Frame>, pending: seq<Option<Frame>>, sent: seq<Option<Values>>) {
    && |pending| == |sent| == SLOTS
    && forall kind :: !Repeatable(kind) ==>
         Count(accepted, kind) + Weight(pending[Code(kind)]) <= Weight(sent[Code(kind)])
  }

  lemma SendKeepsOnce(accepted: seq<Frame>, pending: seq<Option<Frame>>, sent: seq<Option<Values>>, f: Frame)
    requires Slotted(pending, sent) && Once(accepted, pending, sent)
    requires sent[Code(f.kind)].None? || Repeatable(f.kind)
    ensures Slotted(pending[Code(f.kind) := Some(f)], sent[Code(f.kind) := Some(f.values)])
    ensures Once(accepted, pending[Code(f.kind) := Some(f)], sent[Code(f.kind) := Some(f.values)])
  {
    hide Count;
    forall kind | !Repeatable(kind)
      ensures Count(accepted, kind) + Weight(pending[Code(f.kind) := Some(f)][Code(kind)])
           <= Weight(sent[Code(f.kind) := Some(f.values)][Code(kind)])
    {
      assert Count(accepted, kind) + Weight(pending[Code(kind)]) <= Weight(sent[Code(kind)]);
      if Code(kind) == Code(f.kind) {
        CodeInjective(kind, f.kind);
      }
    }
  }

  /** Handing a waiting frame to the channel moves its count, or drops it. */
  lemma HandOverKeepsOnce(accepted: seq<Frame>, more: seq<Frame>, pending: seq<Option<Frame>>,
                          sent: seq<Option<Values>>, i: nat)
    requires Slotted(pending, sent) && Once(accepted, pending, sent) && i < SLOTS && pending[i].Some?
    requires more == accepted || more == accepted + [pending[i].value]
    ensures Slotted(pending[i := None], sent) && Once(more, pending[i := None], sent)
  {
    hide Count;
    var f := pending[i].value;
    forall kind | !Repeatable(kind)
      ensures Count(more, kind) + Weight(pending[i := None][Code(kind)]) <= Weight(sent[Code(kind)])
    {
      assert Count(accepted, kind) + Weight(pending[Code(kind)]) <= Weight(sent[Code(kind)]);
      CountSnoc(accepted, f, kind);
      if Code(kind) == i {
        CodeInjective(kind, f.kind);
      }
    }
  }

  /** How the system answers one read of the bytes `ahead`. */
  datatype Chop = Take(count: nat) | Interrupt | Break | HangUp

  function Answer(chop: Chop, ahead: seq<Byte>, closed: bool, room: nat): Read {
    match chop
    case Interrupt => ReadInterrupted
    case Break => ReadFails
    case HangUp => Reset
    case Take(count) =>
      var n := if count <= room then count else room;
      var n := if n <= |ahead| then n else |ahead|;
      if n > 0 then Data(ahead[..n]) else if ahead == [] && closed then End else ReadBlocks
  }

  /** Some read fails. */
  predicate AnyBreak(chops: seq<Chop>) {
    exists i :: 0 <= i < |chops| && chops[i].Break?
  }

  /** Every read gives a whole record, if that much has arrived. */
  predicate Ample(chops: seq<Chop>) {
    forall i :: 0 <= i < |chops| ==> chops[i].Take? && chops[i].count >= FRAME_BYTES
  }

  /** How many whole records of `ahead` one call reads at most. */
  function Records(ahead: seq<Byte>): (n: nat)
    ensures n <= 8 && FRAME_BYTES * n <= |ahead|
    ensures n < 8 ==> |ahead| < FRAME_BYTES * (n + 1)
  {
    if |ahead| / FRAME_BYTES <= 8 then |ahead| / FRAME_BYTES else 8
  }

  function RecordAt(ahead: seq<Byte>, j: nat): seq<Byte>
    requires FRAME_BYTES * (j + 1) <= |ahead|
  {
    ahead[FRAME_BYTES * j..FRAME_BYTES * (j + 1)]
  }

  /** The messages are the first whole records of `ahead`, eight at most, decoded, up to the first
      that does not decode. */
  ghost predicate FirstRecords(messages: seq<Frame>, ahead: seq<Byte>, generation: Word64) {
    && |messages| <= Records(ahead)
    && (forall j: nat :: j < |messages| ==> Means(RecordAt(ahead, j), generation, messages[j]))
    && (|messages| < Records(ahead) ==>
          forall f :: !Means(RecordAt(ahead, |messages|), generation, f))
  }

  /** A slot is as it was, or its frame was taken by the channel. */
  ghost predicate HandedOver(before: seq<Option<Frame>>, after: seq<Option<Frame>>, accepted: seq<Frame>) {
    && |before| == |after|
    && forall i :: 0 <= i < |before| ==>
         after[i] == before[i] || (after[i].None? && before[i].value in accepted)
  }

  /** Every frame taken since was waiting in some slot. */
  ghost predicate Waited(before: seq<Frame>, after: seq<Frame>, pending: seq<Option<Frame>>) {
    && before <= after
    && forall i :: |before| <= i < |after| ==> Some(after[i]) in pending
  }

  /** Nothing waits in the first slots. */
  predicate Idle(pending: seq<Option<Frame>>, n: nat)
    requires n <= |pending|
  {
    forall k :: 0 <= k < n ==> pending[k].None?
  }

  predicate FirstWaiting(pending: seq<Option<Frame>>, i: nat)
    requires i < |pending|
  {
    pending[i].Some? && Idle(pending, i)
  }

  ghost predicate FirstTaken(before: seq<Option<Frame>>, after: seq<Option<Frame>>, generation: Word64) {
    && |before| == |after|
    && forall i :: 0 <= i < |before| && FirstWaiting(before, i) && before[i].value.generation == generation ==>
        after[i].None?
  }

  /** How many slots wait. */
  function Waiting(pending: seq<Option<Frame>>): nat {
    if pending == [] then 0 else Waiting(pending[..|pending| - 1]) + Weight(pending[|pending| - 1])
  }

  /** Every waiting frame is of this generation. */
  ghost predicate Ours(pending: seq<Option<Frame>>, generation: Word64) {
    forall k :: 0 <= k < |pending| && pending[k].Some? ==> pending[k].value.generation == generation
  }

  lemma OursAt(pending: seq<Option<Frame>>, generation: Word64, i: nat)
    requires i < |pending| && pending[i].Some?
    ensures Ours(pending, generation) ==> pending[i].value.generation == generation
  {
  }

  lemma {:induction false} OneFewer(pending: seq<Option<Frame>>, i: nat)
    requires i < |pending| && pending[i].Some?
    ensures Waiting(pending[i := None]) + 1 == Waiting(pending)
  {
    var n := |pending| - 1;
    if i == n {
      assert pending[i := None][..n] == pending[..n];
    } else {
      OneFewer(pending[..n], i);
      assert pending[i := None][..n] == pending[..n][i := None];
    }
  }

  lemma {:induction false} IdleWaits(pending: seq<Option<Frame>>)
    ensures Idle(pending, |pending|) <==> Waiting(pending) == 0
  {
    if pending == [] {
    } else {
      var init := pending[..|pending| - 1];
      IdleWaits(init);
      assert forall k :: 0 <= k < |init| ==> init[k] == pending[k];
    }
  }

  lemma NothingTaken(accepted: seq<Frame>, pending: seq<Option<Frame>>)
    ensures HandedOver(pending, pending, accepted) && Waited(accepted, accepted, pending)
  {
  }

  /** One more waiting frame is taken. */
  lemma OneTaken(start: seq<Option<Frame>>, was: seq<Option<Frame>>, i: nat, before: seq<Frame>, accepted: seq<Frame>,
                 more: seq<Frame>, generation: Word64)
    requires i < |was| == |start| && was[i] == start[i] && was[i].Some? && was[i].value in more
    requires HandedOver(start, was, accepted) && Waited(before, accepted, start)
    requires more == accepted || more == accepted + [was[i].value]
    ensures HandedOver(start, was[i := None], more) && Waited(before, more, start)
    ensures Waiting(was[i := None]) + 1 == Waiting(was)
    ensures FirstTaken(start, was, generation) || FirstWaiting(start, i) ==>
              FirstTaken(start, was[i := None], generation)
  {
    OneFewer(was, i);
    hide Waiting;
    assert accepted <= more;
  }

  lemma ForeignFirst(pending: seq<Option<Frame>>, i: nat, generation: Word64)
    requires i < |pending| && Idle(pending, i) && pending[i].Some? && pending[i].value.generation != generation
    ensures FirstTaken(pending, pending, generation)
  {
    SlotsWait(pending, i);
  }

  lemma NoneFirst(pending: seq<Option<Frame>>, generation: Word64)
    requires Idle(pending, |pending|)
    ensures FirstTaken(pending, pending, generation)
  {
  }

  lemma SlotsWait(pending: seq<Option<Frame>>, i: nat)
    requires i < |pending|
    ensures Idle(pending, i + 1) <==> Idle(pending, i) && pending[i].None?
    ensures Idle(pending, i) && pending[i].Some? ==> forall k :: 0 <= k < |pending| ==>
              (FirstWaiting(pending, k) <==> k == i)
  {
  }

  class Endpoint {
    const channel: Channel
    var healthy: bool
    var writable: bool
    var sent: seq<Option<Values>>
    var pending: seq<Option<Frame>>

    ghost predicate Valid()
      reads this, channel
    {
      && channel.Valid() && Slotted(pending, sent) && Once(channel.accepted, pending, sent)
      && (healthy ==> !channel.eof)
    }

    constructor (generation: Word64)
      ensures Valid() && fresh(channel) && healthy && writable && channel.generation == generation
      ensures channel.accepted == [] && channel.wire == [] && channel.read == [] && channel.blocks == []
      ensures channel.outgoing == []
      ensures |pending| == |sent| == SLOTS && forall k :: 0 <= k < SLOTS ==> pending[k].None? && sent[k].None?
    {
      channel := new Channel(generation);
      healthy, writable := true, true;
      sent, pending := seq(SLOTS, _ => None), seq(SLOTS, _ => None);
    }

    /** Remember a frame to send, unless its kind was already said. */
    method Send(frame: Frame)
      requires Valid()
      modifies this`pending, this`sent
      ensures Valid()
      ensures var i := Code(frame.kind);
              if healthy && writable && old(sent)[i] != Some(frame.values)
                 && (old(sent)[i].None? || frame.kind == Successor || frame.kind == Kind.Finish)
              then pending == old(pending)[i := Some(frame)] && sent == old(sent)[i := Some(frame.values)]
              else pending == old(pending) && sent == old(sent)
    {
      hide SenderOk, ReceiverOk;
      var index := Code(frame.kind);
      if !healthy || !writable || sent[index] == Some(frame.values) {
        return;
      }
      if sent[index].Some? && !Repeatable(frame.kind) {
        return;
      }
      SendKeepsOnce(channel.accepted, pending, sent, frame);
      pending := pending[index := Some(frame)];
      sent := sent[index := Some(frame.values)];
    }

    /** Hand waiting frames to the channel, lowest kind first, until it takes no more. */
    method HandOver()
      requires Valid()
      modifies this`pending, channel`outgoing, channel`accepted
      ensures Valid() && old(channel.accepted) <= channel.accepted
      ensures HandedOver(old(pending), pending, channel.accepted)
      ensures Waited(old(channel.accepted), channel.accepted, old(pending))
      ensures |old(channel.outgoing)| < QUEUE_RECORDS ==> FirstTaken(old(pending), pending, channel.generation)
      ensures |old(channel.outgoing)| <= |channel.outgoing|
      ensures |channel.accepted| + Waiting(pending) <= |old(channel.accepted)| + Waiting(old(pending))
      ensures Ours(old(pending), channel.generation) ==>
                Waiting(pending) == 0 || Waiting(pending) + 8 <= Waiting(old(pending)) + |old(channel.outgoing)|
    {
      hide Channel.Valid, Slotted, Once, Encode, FirstWaiting, HandedOver, Waited, FirstTaken, Ours, Waiting;
      PendingSlots(channel.accepted, pending, sent);
      ghost var before := channel.accepted;
      NothingTaken(before, pending);
      ghost var taken: nat := 0;
      for i := 0 to SLOTS
        invariant Valid() && |pending| == SLOTS && before <= channel.accepted
        invariant HandedOver(old(pending), pending, channel.accepted) && Waited(before, channel.accepted, old(pending))
        invariant Idle(pending, i) && forall k :: i <= k < SLOTS ==> pending[k] == old(pending)[k]
        invariant if Idle(old(pending), i) then channel.outgoing == old(channel.outgoing) && pending == old(pending)
                  else FirstTaken(old(pending), pending, channel.generation)
        invariant Waiting(pending) + taken == Waiting(old(pending))
        invariant |channel.accepted| <= |before| + taken
        invariant |old(channel.outgoing)| <= |channel.outgoing| <= |old(channel.outgoing)| + taken
      {
        SlotsWait(old(pending), i);
        if pending[i].Some? {
          ghost var accepted, was := channel.accepted, pending;
          OursAt(old(pending), channel.generation, i);
          var r := channel.Enqueue(pending[i].value);
          if r.Failed? {
            if Idle(old(pending), i) && pending[i].value.generation != channel.generation {
              ForeignFirst(old(pending), i, channel.generation);
            }
            return;
          }
          HandOverKeepsOnce(accepted, channel.accepted, pending, sent, i);
          pending := pending[i := None];
          taken := taken + 1;
          OneTaken(old(pending), was, i, before, accepted, channel.accepted, channel.generation);
        }
      }
      IdleWaits(pending);
      NoneFirst(pending, channel.generation);
    }

    /** Hand waiting frames to the channel and write. */
    method Flush(answers: seq<Write>)
      requires Valid() && |answers| == QUEUE_RECORDS
      modifies this`pending, this`writable, channel`outgoing, channel`accepted, channel`sent, channel`wire
      ensures Valid() && old(channel.wire) <= channel.wire && old(channel.accepted) <= channel.accepted
      ensures !healthy || !old(writable) ==>
                channel.wire == old(channel.wire) && channel.accepted == old(channel.accepted) &&
                    pending == old(pending)
      ensures writable ==> old(writable)
      ensures old(writable) && Willing(answers) ==> writable
      // No frame is lost: what no longer waits was taken by the channel.
      ensures HandedOver(old(pending), pending, channel.accepted)
      // What the channel took had been waiting.
      ensures Waited(old(channel.accepted), channel.accepted, old(pending))
      ensures |channel.accepted| + Waiting(pending) <= |old(channel.accepted)| + Waiting(old(pending))
      // The first waiting frame is taken whenever the channel can take it, and eight frames at least,
      // or all, when nothing was left to send.
      ensures healthy && old(writable) && |old(channel.outgoing)| < QUEUE_RECORDS ==>
                FirstTaken(old(pending), pending, channel.generation)
      ensures healthy && old(writable) && Ours(old(pending), channel.generation) ==>
                Waiting(pending) == 0 || Waiting(pending) + 8 <= Waiting(old(pending)) + |old(channel.outgoing)|
      // What is queued is written: some of it by a write that is accepted, all of it by eight whole ones.
      ensures healthy && old(writable) && old(channel.outgoing) != [] && answers[0].Accepts? && answers[0].count > 0 ==>
                |channel.wire| > |old(channel.wire)|
      ensures healthy && old(writable) && Generous(answers) ==> writable && channel.outgoing == []
    {
      hide Valid, Channel.Valid, HandedOver, Waited, FirstTaken, Ours, Waiting, Generous, Willing;
      NothingTaken(channel.accepted, pending);
      if !healthy || !writable {
        return;
      }
      HandOver();
      WriteOut(answers);
    }

    /** Write what is queued; a refusal is the last attempt. */
    method WriteOut(answers: seq<Write>)
      requires Valid() && writable && |answers| == QUEUE_RECORDS
      modifies this`writable, channel`outgoing, channel`sent, channel`wire
      ensures Valid() && old(channel.wire) <= channel.wire
      ensures Willing(answers) ==> writable
      ensures old(channel.outgoing) != [] && answers[0].Accepts? && answers[0].count > 0 ==>
                |channel.wire| > |old(channel.wire)|
      ensures Generous(answers) ==> writable && channel.outgoing == []
    {
      hide SenderOk, ReceiverOk, Slotted, Once, Generous, Willing, Stops, Accepting;
      var r := channel.Flush(answers);
      if r.Failed? {
        writable := false;
      }
    }

    /** One read of what has arrived. */
    method ReceiveOnce(rest: seq<Byte>, chop: Chop, closed: bool) returns (r: Outcome<Option<Frame>>, used: nat)
      requires channel.Valid() && !channel.eof
      modifies channel`incoming, channel`received, channel`eof, channel`read, channel`blocks
      ensures channel.Valid()
      ensures OneRead(Position(old(channel.read), old(channel.blocks), false),
                      Position(channel.read, channel.blocks, channel.eof),
                      rest, chop, closed, channel.generation, r, used)
    {
      hide SenderOk, ReceiverOk, Slotted, Once, Decode;
      PartialRecord(channel.read, channel.blocks, channel.incoming, channel.received);
      RoomLeft(channel.read, channel.blocks, channel.incoming, channel.received);
      var answer := Answer(chop, rest, closed, FRAME_BYTES - channel.received);
      r := channel.Receive(answer);
      used := if answer.Data? then |answer.bytes| else 0;
    }

    /** Read until a read gives no frame, fails, or eight were made. */
    method ReadAll(ahead: seq<Byte>, chops: seq<Chop>, closed: bool) returns (messages: seq<Frame>, failed: bool)
      requires channel.Valid() && !channel.eof && |chops| == 8
      modifies channel`incoming, channel`received, channel`eof, channel`read, channel`blocks
      ensures channel.Valid()
      ensures Ended(Position(old(channel.read), old(channel.blocks), false),
                    Position(channel.read, channel.blocks, channel.eof),
                    ahead, chops, closed, channel.generation, messages, failed)
    {
      hide Channel.Valid, Standing, Ended, OneRead;
      ghost var start := Position(channel.read, channel.blocks, false);
      Starting(start, ahead, chops, channel.generation);
      messages, failed := [], false;
      var i: nat, used: nat := 0, 0;
      while i < 8 && !failed
        invariant i <= 8 && channel.Valid()
        invariant Standing(start, Position(channel.read, channel.blocks, channel.eof), ahead, chops, channel.generation,
                           messages, used, i, failed)
        decreases 8 - i, !failed
      {
        ghost var was := Position(channel.read, channel.blocks, channel.eof);
        StandingRest(start, was, ahead, chops, channel.generation, messages, used, i);
        var r, count := ReceiveOnce(ahead[used..], chops[i], closed);
        Stands(start, was, Position(channel.read, channel.blocks, channel.eof), ahead, chops, closed,
               channel.generation, messages, used, i, r, count);
        used := used + count;
        match r {
          case Done(Some(frame)) =>
            messages := messages + [frame];
          case Done(None) => return;
          case Failed(_) =>
            failed := true;
        }
        i := i + 1;
      }
      StandingEnds(start, Position(channel.read, channel.blocks, channel.eof), ahead, chops, closed,
                   channel.generation, messages, used, i, failed);
    }

    /** Read up to eight frames of what has arrived. */
    method Receive(ahead: seq<Byte>, chops: seq<Chop>, closed: bool) returns (messages: seq<Frame>)
      requires Valid() && |chops| == 8
      modifies this`healthy, channel`incoming, channel`received, channel`eof, channel`read, channel`blocks
      ensures Valid() && |messages| <= 8
      ensures !old(healthy) ==>
                messages == [] && channel.read == old(channel.read) && channel.blocks == old(channel.blocks)
      ensures Follows(old(channel.read), channel.read, ahead)
      ensures old(channel.blocks) <= channel.blocks
      ensures Decoded(channel.blocks, |old(channel.blocks)|, messages, channel.generation)
      ensures healthy ==> old(healthy) && !channel.eof && |channel.blocks| == |old(channel.blocks)| + |messages|
      // Health is lost only to the end of the stream, a read that failed, or a record that does not decode.
      ensures old(healthy) && !healthy ==>
                channel.eof || AnyBreak(chops) || |channel.blocks| > |old(channel.blocks)| + |messages|
      // What has arrived is read.
      ensures old(healthy) && ahead != [] && chops[0].Take? && chops[0].count > 0 ==>
                |channel.read| > |old(channel.read)|
      ensures old(healthy) && |old(channel.read)| % FRAME_BYTES == 0 && Ample(chops) ==>
                && FirstRecords(messages, ahead, channel.generation)
                && (|messages| == Records(ahead) ==>
                      channel.read == old(channel.read) + ahead[..if |messages| < 8 then |ahead| else 8 * FRAME_BYTES])
                && (!closed ==> (healthy <==> |messages| == Records(ahead)))
    {
      messages := [];
      if !healthy {
        return;
      }
      hide Channel.Valid, Slotted, Once, Ended;
      var failed;
      ghost var start := Position(channel.read, channel.blocks, false);
      messages, failed := ReadAll(ahead, chops, closed);
      EndedMeans(start, Position(channel.read, channel.blocks, channel.eof), ahead, chops, closed, channel.generation,
                 messages, failed);
      if failed || channel.eof {
        healthy := false;
      }
    }
  }

  /** How far a channel has read. */
  datatype Position = Position(read: seq<Byte>, blocks: seq<seq<Byte>>, eof: bool)

  /** What one read does. */
  ghost predicate OneRead(was: Position, now: Position, rest: seq<Byte>, chop: Chop, closed: bool, generation: Word64,
                          r: Outcome<Option<Frame>>, used: nat) {
    && used <= |rest| && now.read == was.read + rest[..used] && was.blocks <= now.blocks
    && (r.Done? ==> |now.blocks| == |was.blocks| + if r.value.Some? then 1 else 0)
    && (r.Done? && r.value.Some? ==> Means(now.blocks[|was.blocks|], generation, r.value.value) && !now.eof)
    && (r.Failed? ==> now.eof || chop.Break? || |now.blocks| > |was.blocks|)
    && (now.eof ==> chop.HangUp? || closed)
    && (rest != [] && chop.Take? && chop.count > 0 ==> used > 0)
    // Between records, a whole record or all that is left.
    && (|was.read| % FRAME_BYTES == 0 && chop.Take? && chop.count >= FRAME_BYTES ==>
          if |rest| >= FRAME_BYTES
          then used == FRAME_BYTES && r == Answered(Decode(rest[..FRAME_BYTES], generation))
          else used == |rest| && r == Done(None))
  }

  predicate Eager(ahead: seq<Byte>, chops: seq<Chop>) {
    ahead != [] && chops != [] && chops[0].Take? && chops[0].count > 0
  }

  /** After `i` reads, the last of which may have failed. */
  ghost predicate Standing(start: Position, now: Position, ahead: seq<Byte>, chops: seq<Chop>, generation: Word64,
                           messages: seq<Frame>, used: nat, i: nat, failed: bool) {
    && |messages| <= i <= 8 && |chops| == 8 && (failed ==> i > 0)
    && Reading(start.read, now.read, ahead, used) && Progress(start.blocks, now.blocks, messages, generation)
    && (if failed then now.eof || AnyBreak(chops) || |now.blocks| > |start.blocks| + |messages|
        else !now.eof && |now.blocks| == |start.blocks| + |messages|)
    && (if i == 0 then used == 0 else Eager(ahead, chops) ==> used > 0)
    && (|start.read| % FRAME_BYTES == 0 && Ample(chops) ==> Coming(messages, ahead, used, i, failed, generation))
  }

  /** After the last read. */
  ghost predicate Ended(start: Position, now: Position, ahead: seq<Byte>, chops: seq<Chop>, closed: bool,
                        generation: Word64, messages: seq<Frame>, failed: bool) {
    && |messages| <= 8 && Follows(start.read, now.read, ahead)
    && Progress(start.blocks, now.blocks, messages, generation)
    && (if failed then now.eof || AnyBreak(chops) || |now.blocks| > |start.blocks| + |messages|
        else |now.blocks| == |start.blocks| + |messages|)
    && (Eager(ahead, chops) ==> |now.read| > |start.read|)
    && (|start.read| % FRAME_BYTES == 0 && Ample(chops) ==>
          && FirstRecords(messages, ahead, generation)
          && (failed <==> |messages| < Records(ahead))
          && (now.eof && !failed ==> closed)
          && (!failed ==> now.read == start.read + ahead[..if |messages| < 8 then |ahead| else 8 * FRAME_BYTES]))
  }

  /** The first `i` records of `ahead` gave these messages. */
  ghost predicate Smooth(messages: seq<Frame>, ahead: seq<Byte>, i: nat, generation: Word64) {
    && |messages| == i <= Records(ahead)
    && forall j: nat :: j < i ==> Means(RecordAt(ahead, j), generation, messages[j])
  }

  /** Record by record: `i` of them so far, or the last one did not decode. */
  ghost predicate Coming(messages: seq<Frame>, ahead: seq<Byte>, used: nat, i: nat, failed: bool, generation: Word64) {
    if failed then FirstRecords(messages, ahead, generation) && |messages| < Records(ahead)
    else used == FRAME_BYTES * i <= |ahead| && Smooth(messages, ahead, i, generation)
  }

  lemma Starting(start: Position, ahead: seq<Byte>, chops: seq<Chop>, generation: Word64)
    requires |chops| == 8 && !start.eof
    ensures Standing(start, start, ahead, chops, generation, [], 0, 0, false)
  {
    hide Decode, Means, Records;
  }

  lemma StandingRest(start: Position, now: Position, ahead: seq<Byte>, chops: seq<Chop>, generation: Word64,
                     messages: seq<Frame>, used: nat, i: nat)
    requires Standing(start, now, ahead, chops, generation, messages, used, i, false)
    ensures used <= |ahead| && !now.eof
  {
    hide Progress, Coming;
  }

  lemma ComingBetween(messages: seq<Frame>, ahead: seq<Byte>, used: nat, i: nat, before: seq<Byte>, read: seq<Byte>,
                      generation: Word64)
    requires |before| % FRAME_BYTES == 0 && Reading(before, read, ahead, used)
    requires Coming(messages, ahead, used, i, false, generation)
    ensures |read| % FRAME_BYTES == 0
  {
  }

  /** The next record, if there is a whole one, is decoded; the rest of `ahead` is not a record. */
  lemma ComingMore(messages: seq<Frame>, ahead: seq<Byte>, used: nat, i: nat, generation: Word64,
                   r: Outcome<Option<Frame>>)
    requires Coming(messages, ahead, used, i, false, generation) && i < 8 && used <= |ahead|
    requires if |ahead[used..]| >= FRAME_BYTES then r == Answered(Decode(ahead[used..][..FRAME_BYTES], generation))
             else r == Done(None)
    ensures r.Done? && r.value.Some? ==>
              Coming(messages + [r.value.value], ahead, used + FRAME_BYTES, i + 1, false, generation)
    ensures r.Done? && r.value.None? ==>
              |messages| == Records(ahead) < 8 && FirstRecords(messages, ahead, generation)
              && |ahead[used..]| < FRAME_BYTES
    ensures r.Failed? ==> Coming(messages, ahead, used + FRAME_BYTES, i + 1, true, generation)
  {
    hide Decode, Records;
    if |ahead[used..]| >= FRAME_BYTES {
      assert i < Records(ahead) by {
        assert FRAME_BYTES * (i + 1) <= |ahead|;
      }
      assert RecordAt(ahead, i) == ahead[used..][..FRAME_BYTES];
    }
  }

  /** One more read. */
  lemma Stands(start: Position, was: Position, now: Position, ahead: seq<Byte>, chops: seq<Chop>, closed: bool,
               generation: Word64, messages: seq<Frame>, used: nat, i: nat, r: Outcome<Option<Frame>>, count: nat)
    requires Standing(start, was, ahead, chops, generation, messages, used, i, false) && i < 8 && used <= |ahead|
    requires OneRead(was, now, ahead[used..], chops[i], closed, generation, r, count)
    ensures r.Done? && r.value.Some? ==>
              Standing(start, now, ahead, chops, generation, messages + [r.value.value], used + count, i + 1, false)
    ensures r.Done? && r.value.None? ==> Ended(start, now, ahead, chops, closed, generation, messages, false)
    ensures r.Failed? ==> Standing(start, now, ahead, chops, generation, messages, used + count, i + 1, true)
  {
    hide Decode, Means, Records, Progress, Coming, FirstRecords;
    ReadingMore(start.read, was.read, now.read, ahead, used, count);
    ReadingRest(start.read, now.read, ahead, used + count);
    ProgressKept(start.blocks, was.blocks, now.blocks, messages, generation, r);
    if |start.read| % FRAME_BYTES == 0 && Ample(chops) {
      ComingBetween(messages, ahead, used, i, start.read, was.read, generation);
      ComingMore(messages, ahead, used, i, generation, r);
    }
  }

  lemma StandingEnds(start: Position, now: Position, ahead: seq<Byte>, chops: seq<Chop>, closed: bool,
                     generation: Word64, messages: seq<Frame>, used: nat, i: nat, failed: bool)
    requires Standing(start, now, ahead, chops, generation, messages, used, i, failed) && (i == 8 || failed)
    ensures Ended(start, now, ahead, chops, closed, generation, messages, failed)
  {
    hide Decode, Means, Records, Progress;
    ReadingRest(start.read, now.read, ahead, used);
    if |start.read| % FRAME_BYTES == 0 && Ample(chops) && !failed {
      ComingEnds(messages, ahead, used, generation);
    }
  }

  lemma EndedMeans(start: Position, now: Position, ahead: seq<Byte>, chops: seq<Chop>, closed: bool,
                   generation: Word64, messages: seq<Frame>, failed: bool)
    requires Ended(start, now, ahead, chops, closed, generation, messages, failed)
    ensures |messages| <= 8 && Follows(start.read, now.read, ahead) && start.blocks <= now.blocks
    ensures Decoded(now.blocks, |start.blocks|, messages, generation)
    ensures !failed ==> |now.blocks| == |start.blocks| + |messages|
    ensures failed ==> now.eof || AnyBreak(chops) || |now.blocks| > |start.blocks| + |messages|
    ensures ahead != [] && |chops| == 8 && chops[0].Take? && chops[0].count > 0 ==> |now.read| > |start.read|
    ensures |start.read| % FRAME_BYTES == 0 && Ample(chops) ==>
              && FirstRecords(messages, ahead, generation)
              && (|messages| == Records(ahead) ==>
                    now.read == start.read + ahead[..if |messages| < 8 then |ahead| else 8 * FRAME_BYTES])
              && (!closed ==> (!failed && !now.eof <==> |messages| == Records(ahead)))
  {
    hide Decode, Means, Records, Decoded;
  }

  lemma ComingEnds(messages: seq<Frame>, ahead: seq<Byte>, used: nat, generation: Word64)
    requires Coming(messages, ahead, used, 8, false, generation)
    ensures |messages| == Records(ahead) == 8 && used == 8 * FRAME_BYTES && FirstRecords(messages, ahead, generation)
  {
    hide Decode, Records;
  }

  /** What was read since is a prefix of what had arrived. */
  ghost predicate Follows(before: seq<Byte>, after: seq<Byte>, ahead: seq<Byte>) {
    before <= after && after[|before|..] <= ahead
  }

  ghost predicate Reading(before: seq<Byte>, after: seq<Byte>, ahead: seq<Byte>, used: nat) {
    used <= |ahead| && after == before + ahead[..used]
  }

  lemma ReadingMore(before: seq<Byte>, was: seq<Byte>, after: seq<Byte>, ahead: seq<Byte>, used: nat, count: nat)
    requires Reading(before, was, ahead, used) && used + count <= |ahead| && after == was + ahead[used..][..count]
    ensures Reading(before, after, ahead, used + count)
  {
    assert ahead[..used + count] == ahead[..used] + ahead[used..][..count];
  }

  lemma ReadingRest(before: seq<Byte>, after: seq<Byte>, ahead: seq<Byte>, used: nat)
    requires Reading(before, after, ahead, used)
    ensures used <= |ahead| && after == before + ahead[..used] && Follows(before, after, ahead)
  {
  }

  ghost predicate Progress(start: seq<seq<Byte>>, blocks: seq<seq<Byte>>, messages: seq<Frame>, generation: Word64) {
    start <= blocks && Decoded(blocks, |start|, messages, generation)
  }

  lemma ProgressKept(start: seq<seq<Byte>>, blocks: seq<seq<Byte>>, more: seq<seq<Byte>>,
                     messages: seq<Frame>, generation: Word64, r: Outcome<Option<Frame>>)
    requires Progress(start, blocks, messages, generation) && blocks <= more
    ensures Progress(start, more, messages, generation)
    ensures r.Done? && r.value.Some? && |blocks| == |start| + |messages| < |more|
            && Means(more[|blocks|], generation, r.value.value) ==>
              Progress(start, more, messages + [r.value.value], generation)
  {
    hide Means;
    forall j | 0 <= j < |messages| ensures Means(more[|start| + j], generation, messages[j]) {
      assert more[|start| + j] == blocks[|start| + j];
    }
  }

  predicate Means(block: seq<Byte>, generation: Word64, frame: Frame) {
    |block| == FRAME_BYTES && Decode(block, generation) == Ok(frame)
  }

  /** The messages are the records from `start` on, decoded. */
  ghost predicate Decoded(blocks: seq<seq<Byte>>, start: nat, messages: seq<Frame>, generation: Word64) {
    && start + |messages| <= |blocks|
    && forall j :: 0 <= j < |messages| ==> Means(blocks[start + j], generation, messages[j])
  }

  lemma RoomLeft(read: seq<Byte>, blocks: seq<seq<Byte>>, incoming: seq<Byte>, received: nat)
    requires ReceiverOk(read, blocks, incoming, received)
    ensures received < FRAME_BYTES
  {
  }

  lemma PendingSlots(accepted: seq<Frame>, pending: seq<Option<Frame>>, sent: seq<Option<Values>>)
    requires Slotted(pending, sent)
    ensures |pending| == |sent| == SLOTS
  {
  }

  // ----- one endpoint talking to another

  datatype Step =
    | Say(frame: Frame)
    | Push(answers: seq<Write>)
    | Hear(chops: seq<Chop>, closed: bool)

  predicate WellPosed(step: Step) {
    match step
    case Say(_) => true
    case Push(answers) => |answers| == QUEUE_RECORDS
    case Hear(chops, _) => |chops| == 8
  }

  /** Frames heard so far: the decoded records, in order. */
  ghost predicate Heard(blocks: seq<seq<Byte>>, heard: seq<Frame>, generation: Word64) {
    Decoded(blocks, 0, heard, generation)
  }

  lemma HeardMore(start: seq<seq<Byte>>, blocks: seq<seq<Byte>>, heard: seq<Frame>, messages: seq<Frame>,
                  generation: Word64)
    requires Heard(start, heard, generation) && |heard| == |start|
    requires start <= blocks && Decoded(blocks, |start|, messages, generation)
    ensures Heard(blocks, heard + messages, generation)
  {
    forall j | 0 <= j < |heard + messages| ensures Means(blocks[j], generation, (heard + messages)[j]) {
      if j < |heard| {
        assert Means(start[0 + j], generation, heard[j]);
      } else {
        assert Means(blocks[|start| + (j - |heard|)], generation, messages[j - |heard|]);
      }
    }
    assert forall j :: 0 <= j < |heard + messages| ==> Means(blocks[0 + j], generation, (heard + messages)[j]);
  }

  lemma ReadMore(read: seq<Byte>, more: seq<Byte>, wire: seq<Byte>)
    requires read <= wire && Follows(read, more, wire[|read|..])
    ensures more <= wire
  {
    assert more == read + more[|read|..];
    assert wire == read + wire[|read|..];
  }

  /** Everything heard was said first, in that order, and no kind but Successor and Finish twice. */
  lemma HeardOnce(speaker: Endpoint, listener: Endpoint, heard: seq<Frame>)
    requires speaker.Valid() && listener.Valid() && speaker.channel.generation == listener.channel.generation
    requires listener.channel.read <= speaker.channel.wire
    requires Heard(listener.channel.blocks, heard, listener.channel.generation)
    ensures heard <= speaker.channel.accepted
    ensures forall kind :: !Repeatable(kind) ==> Count(heard, kind) <= 1
  {
    var c, d := speaker.channel, listener.channel;
    ReceivedIsPrefix(c.accepted, c.wire, c.outgoing, c.sent, d.read, d.blocks, d.incoming, d.received, d.generation);
    hide SenderOk, ReceiverOk;
    forall j | 0 <= j < |heard| ensures heard[j] == c.accepted[j] {
      assert Means(d.blocks[0 + j], d.generation, heard[j]);
    }
    hide Decode, Means;
    forall kind | !Repeatable(kind) ensures Count(heard, kind) <= 1 {
      assert heard == c.accepted[..|heard|];
      CountPrefix(c.accepted, |heard|, kind);
      assert Weight(speaker.sent[Code(kind)]) <= 1;
    }
  }

  // ----- where a frame comes from

  predicate SaysKind(step: Step, kind: Kind) {
    step.Say? && step.frame.kind == kind
  }

  /** The frame was said; of a kind that is not repeatable, it was the first of its kind. */
  ghost predicate Said(steps: seq<Step>, f: Frame) {
    exists i :: 0 <= i < |steps| && steps[i] == Say(f)
                && (!Repeatable(f.kind) ==> forall j :: 0 <= j < i ==> !SaysKind(steps[j], f.kind))
  }

  /** Everything taken or waiting was said. */
  ghost predicate AllSaid(steps: seq<Step>, accepted: seq<Frame>, pending: seq<Option<Frame>>) {
    && (forall i :: 0 <= i < |accepted| ==> Said(steps, accepted[i]))
    && (forall k :: 0 <= k < |pending| && pending[k].Some? ==> Said(steps, pending[k].value))
  }

  /** A kind without a record of being sent has not been said. */
  ghost predicate Unsaid(steps: seq<Step>, sent: seq<Option<Values>>) {
    && |sent| == SLOTS
    && forall kind, i :: 0 <= i < |steps| && !Repeatable(kind) && sent[Code(kind)].None? ==> !SaysKind(steps[i], kind)
  }

  lemma SaidStays(steps: seq<Step>, step: Step, f: Frame)
    requires Said(steps, f)
    ensures Said(steps + [step], f)
  {
    var i :| 0 <= i < |steps| && steps[i] == Say(f)
             && (!Repeatable(f.kind) ==> forall j :: 0 <= j < i ==> !SaysKind(steps[j], f.kind));
    assert (steps + [step])[i] == Say(f);
    assert forall j :: 0 <= j < i ==> (steps + [step])[j] == steps[j];
  }

  lemma AllSaidStays(steps: seq<Step>, step: Step, accepted: seq<Frame>, pending: seq<Option<Frame>>)
    requires AllSaid(steps, accepted, pending)
    ensures AllSaid(steps + [step], accepted, pending)
  {
    forall i | 0 <= i < |accepted| ensures Said(steps + [step], accepted[i]) {
      SaidStays(steps, step, accepted[i]);
    }
    forall k | 0 <= k < |pending| && pending[k].Some? ensures Said(steps + [step], pending[k].value) {
      SaidStays(steps, step, pending[k].value);
    }
  }

  /** Handing frames over moves what was said. */
  lemma AllSaidMoves(steps: seq<Step>, before: seq<Frame>, after: seq<Frame>,
                     pending: seq<Option<Frame>>, rest: seq<Option<Frame>>)
    requires AllSaid(steps, before, pending) && Waited(before, after, pending) && HandedOver(pending, rest, after)
    ensures AllSaid(steps, after, rest)
  {
    hide Said;
    forall i | 0 <= i < |after| ensures Said(steps, after[i]) {
      if i >= |before| {
        var k :| 0 <= k < |pending| && pending[k] == Some(after[i]);
      }
    }
  }

  /** A frame that is taken for sending was said now, for the first time if that matters. */
  lemma SaidNow(steps: seq<Step>, f: Frame, sent: seq<Option<Values>>)
    requires Unsaid(steps, sent) && (sent[Code(f.kind)].None? || Repeatable(f.kind))
    ensures Said(steps + [Say(f)], f)
    ensures Unsaid(steps + [Say(f)], sent[Code(f.kind) := Some(f.values)])
  {
    var more := steps + [Say(f)];
    assert more[|steps|] == Say(f);
    assert forall j :: 0 <= j < |steps| ==> more[j] == steps[j];
    forall kind, i | 0 <= i < |more| && !Repeatable(kind) && sent[Code(f.kind) := Some(f.values)][Code(kind)].None?
      ensures !SaysKind(more[i], kind)
    {
      if i < |steps| {
        assert !SaysKind(steps[i], kind);
      }
    }
  }

  /** Anything else that is said, or done, changes nothing. */
  lemma UnsaidStays(steps: seq<Step>, step: Step, sent: seq<Option<Values>>)
    requires Unsaid(steps, sent) && (step.Say? ==> sent[Code(step.frame.kind)].Some?)
    ensures Unsaid(steps + [step], sent)
  {
    var more := steps + [step];
    forall kind, i | 0 <= i < |more| && !Repeatable(kind) && sent[Code(kind)].None? ensures !SaysKind(more[i], kind) {
      if i < |steps| {
        assert !SaysKind(steps[i], kind);
      }
    }
  }

  // ----- where a frame goes

  /** Step `i` is the first to say its kind, which is not repeatable. */
  ghost predicate FirstSaid(steps: seq<Step>, i: nat) {
    && i < |steps| && steps[i].Say? && !Repeatable(steps[i].frame.kind)
    && forall j :: 0 <= j < i ==> !SaysKind(steps[j], steps[i].frame.kind)
  }

  /** Every such frame was taken by the channel or is still waiting. */
  ghost predicate NoneLost(steps: seq<Step>, accepted: seq<Frame>, pending: seq<Option<Frame>>) {
    && |pending| == SLOTS
    && forall i: nat :: FirstSaid(steps, i) ==>
         steps[i].frame in accepted || pending[Code(steps[i].frame.kind)] == Some(steps[i].frame)
  }

  /** Every such frame is among these. */
  ghost predicate AllFirst(steps: seq<Step>, heard: seq<Frame>) {
    forall i: nat :: FirstSaid(steps, i) ==> steps[i].frame in heard
  }

  /** A kind with a record of being sent was said. */
  ghost predicate SentWasSaid(steps: seq<Step>, sent: seq<Option<Values>>) {
    && |sent| == SLOTS
    && forall kind :: !Repeatable(kind) && sent[Code(kind)].Some? ==>
         exists i :: 0 <= i < |steps| && SaysKind(steps[i], kind)
  }

  lemma FirstSaidBefore(steps: seq<Step>, step: Step, i: nat)
    requires i < |steps|
    ensures FirstSaid(steps + [step], i) <==> FirstSaid(steps, i)
  {
    assert forall j :: 0 <= j <= i ==> (steps + [step])[j] == steps[j];
  }

  /** A step that says nothing loses nothing. */
  lemma NoneLostStays(steps: seq<Step>, step: Step, accepted: seq<Frame>, pending: seq<Option<Frame>>,
                      sent: seq<Option<Values>>)
    requires NoneLost(steps, accepted, pending) && SentWasSaid(steps, sent) && !step.Say?
    ensures NoneLost(steps + [step], accepted, pending) && SentWasSaid(steps + [step], sent)
  {
    var more := steps + [step];
    forall i: nat | FirstSaid(more, i)
      ensures more[i].frame in accepted || pending[Code(more[i].frame.kind)] == Some(more[i].frame)
    {
      LastSays(steps, step, i);
      FirstSaidBefore(steps, step, i);
    }
    SentStays(steps, step, sent);
  }

  lemma LastSays(steps: seq<Step>, step: Step, i: nat)
    requires FirstSaid(steps + [step], i)
    ensures i < |steps| || (i == |steps| && step.Say?)
    ensures i < |steps| ==> (steps + [step])[i] == steps[i]
  {
  }

  lemma SentStays(steps: seq<Step>, step: Step, sent: seq<Option<Values>>)
    requires SentWasSaid(steps, sent)
    ensures SentWasSaid(steps + [step], sent)
  {
    var more := steps + [step];
    forall kind | !Repeatable(kind) && sent[Code(kind)].Some?
      ensures exists i :: 0 <= i < |more| && SaysKind(more[i], kind)
    {
      var i :| 0 <= i < |steps| && SaysKind(steps[i], kind);
      assert more[i] == steps[i];
    }
  }

  /** Saying a frame keeps it, if it is the first of its kind, and displaces none that is. */
  lemma SayLosesNone(steps: seq<Step>, f: Frame, accepted: seq<Frame>, pending: seq<Option<Frame>>,
                     sent: seq<Option<Values>>, pending': seq<Option<Frame>>, sent': seq<Option<Values>>)
    requires NoneLost(steps, accepted, pending) && SentWasSaid(steps, sent) && Unsaid(steps, sent)
    requires var i := Code(f.kind);
             if sent[i] != Some(f.values) && (sent[i].None? || Repeatable(f.kind))
             then pending' == pending[i := Some(f)] && sent' == sent[i := Some(f.values)]
             else pending' == pending && sent' == sent
    ensures NoneLost(steps + [Say(f)], accepted, pending') && SentWasSaid(steps + [Say(f)], sent')
  {
    var more := steps + [Say(f)];
    forall i: nat | FirstSaid(more, i)
      ensures more[i].frame in accepted || pending'[Code(more[i].frame.kind)] == Some(more[i].frame)
    {
      LastSays(steps, Say(f), i);
      if i < |steps| {
        FirstSaidBefore(steps, Say(f), i);
        var g := steps[i].frame;
        assert SaysKind(steps[i], g.kind);
        if Code(g.kind) == Code(f.kind) {
          CodeInjective(g.kind, f.kind);
        }
      } else {
        FirstIsUnsent(steps, f, sent);
      }
    }
    SentStays(steps, Say(f), sent);
    forall kind | !Repeatable(kind) && sent'[Code(kind)].Some?
      ensures exists i :: 0 <= i < |more| && SaysKind(more[i], kind)
    {
      if Code(kind) == Code(f.kind) {
        CodeInjective(kind, f.kind);
        assert SaysKind(more[|steps|], kind);
      }
    }
  }

  lemma FirstIsUnsent(steps: seq<Step>, f: Frame, sent: seq<Option<Values>>)
    requires SentWasSaid(steps, sent) && FirstSaid(steps + [Say(f)], |steps|)
    ensures sent[Code(f.kind)].None?
  {
    var more := steps + [Say(f)];
    assert more[|steps|] == Say(f);
    assert forall j :: 0 <= j < |steps| ==> more[j] == steps[j];
  }

  lemma PushLosesNone(steps: seq<Step>, before: seq<Frame>, after: seq<Frame>,
                      pending: seq<Option<Frame>>, rest: seq<Option<Frame>>)
    requires NoneLost(steps, before, pending) && before <= after && HandedOver(pending, rest, after)
    ensures NoneLost(steps, after, rest)
  {
    hide FirstSaid;
  }

  /** No write is ever refused. */
  predicate AllWilling(steps: seq<Step>) {
    forall i :: 0 <= i < |steps| && steps[i].Push? ==> Willing(steps[i].answers)
  }

  lemma WillingBefore(steps: seq<Step>, step: Step)
    requires AllWilling(steps + [step])
    ensures AllWilling(steps) && (step.Push? ==> Willing(step.answers))
  {
    var more := steps + [step];
    assert more[|steps|] == step;
    forall i | 0 <= i < |steps| && steps[i].Push? ensures Willing(steps[i].answers) {
      assert more[i] == steps[i];
    }
  }

  /** How the speaker stands after these steps; while it can write, it has lost nothing. */
  ghost predicate Spoken(steps: seq<Step>, speaker: Endpoint)
    reads speaker, speaker.channel
  {
    && AllSaid(steps, speaker.channel.accepted, speaker.pending)
    && (AllWilling(steps) ==> speaker.healthy && speaker.writable)
    && (speaker.healthy && speaker.writable ==>
          && Unsaid(steps, speaker.sent) && SentWasSaid(steps, speaker.sent)
          && NoneLost(steps, speaker.channel.accepted, speaker.pending))
  }

  /** The two ends of one stream. */
  ghost predicate Connected(speaker: Endpoint, listener: Endpoint, heard: seq<Frame>)
    reads speaker, listener, speaker.channel, listener.channel
  {
    && speaker.Valid() && listener.Valid() && speaker.channel.generation == listener.channel.generation
    && listener.channel.read <= speaker.channel.wire
    && Heard(listener.channel.blocks, heard, listener.channel.generation)
    && (listener.healthy ==> |heard| == |listener.channel.blocks|)
  }

  method SayOne(frame: Frame, speaker: Endpoint, ghost past: seq<Step>)
    requires speaker.Valid() && Spoken(past, speaker)
    modifies speaker`pending, speaker`sent
    ensures speaker.Valid() && Spoken(past + [Say(frame)], speaker)
    ensures speaker.pending == old(speaker.pending)
            || speaker.pending == old(speaker.pending)[Code(frame.kind) := Some(frame)]
  {
    hide SenderOk, ReceiverOk, Slotted, Once, Said, Unsaid, SentWasSaid, NoneLost;
    PendingSlots(speaker.channel.accepted, speaker.pending, speaker.sent);
    ghost var pending, sent := speaker.pending, speaker.sent;
    ghost var i := Code(frame.kind);
    if AllWilling(past + [Say(frame)]) {
      WillingBefore(past, Say(frame));
    }
    hide AllWilling;
    speaker.Send(frame);
    AllSaidStays(past, Say(frame), speaker.channel.accepted, pending);
    if speaker.healthy && speaker.writable {
      if sent[i].None? || Repeatable(frame.kind) {
        SaidNow(past, frame, sent);
      }
      if sent[i].Some? {
        UnsaidStays(past, Say(frame), sent);
      }
      SayLosesNone(past, frame, speaker.channel.accepted, pending, sent, speaker.pending, speaker.sent);
    }
  }

  method PushAll(answers: seq<Write>, speaker: Endpoint, ghost past: seq<Step>)
    requires speaker.Valid() && |answers| == QUEUE_RECORDS && Spoken(past, speaker)
    modifies speaker`pending, speaker`writable, speaker.channel`outgoing, speaker.channel`accepted,
             speaker.channel`sent, speaker.channel`wire
    ensures speaker.Valid() && Spoken(past + [Push(answers)], speaker) &&
              old(speaker.channel.wire) <= speaker.channel.wire
    ensures HandedOver(old(speaker.pending), speaker.pending, speaker.channel.accepted)
    ensures |speaker.channel.accepted| + Waiting(speaker.pending) <=
              |old(speaker.channel.accepted)| + Waiting(old(speaker.pending))
    ensures speaker.healthy && old(speaker.writable) && Ours(old(speaker.pending), speaker.channel.generation) ==>
              Waiting(speaker.pending) == 0 ||
              Waiting(speaker.pending) + 8 <= Waiting(old(speaker.pending)) + |old(speaker.channel.outgoing)|
    ensures speaker.healthy && old(speaker.writable) && Generous(answers) ==>
              speaker.writable && speaker.channel.outgoing == []
  {
    hide SenderOk, ReceiverOk, Slotted, Once, Said, Unsaid, AllSaid, HandedOver, Waited, FirstTaken;
    hide SentWasSaid, NoneLost, Waiting, Ours, Generous;
    ghost var accepted, pending := speaker.channel.accepted, speaker.pending;
    if AllWilling(past + [Push(answers)]) {
      WillingBefore(past, Push(answers));
    }
    hide AllWilling, Willing;
    if speaker.healthy && speaker.writable {
      UnsaidStays(past, Push(answers), speaker.sent);
    }
    speaker.Flush(answers);
    if speaker.healthy && speaker.writable {
      PushLosesNone(past, accepted, speaker.channel.accepted, pending, speaker.pending);
      NoneLostStays(past, Push(answers), speaker.channel.accepted, speaker.pending, speaker.sent);
    }
    AllSaidMoves(past, accepted, speaker.channel.accepted, pending, speaker.pending);
    AllSaidStays(past, Push(answers), speaker.channel.accepted, speaker.pending);
  }

  function Lesser(a: nat, b: nat): nat {
    if a <= b then a else b
  }

  ghost predicate AllDecode(ahead: seq<Byte>, generation: Word64) {
    forall j: nat :: j < Records(ahead) ==> Decodes(RecordAt(ahead, j), generation)
  }

  ghost predicate Decodes(block: seq<Byte>, generation: Word64) {
    exists f :: Means(block, generation, f)
  }

  lemma AllRecords(messages: seq<Frame>, ahead: seq<Byte>, generation: Word64)
    requires FirstRecords(messages, ahead, generation) && AllDecode(ahead, generation)
    ensures |messages| == Records(ahead)
  {
    hide Means, Records;
    assert |messages| < Records(ahead) ==> Decodes(RecordAt(ahead, |messages|), generation);
  }

  /** Every whole record that was written and not read yet decodes. */
  lemma WrittenDecodes(speaker: Endpoint, listener: Endpoint, heard: seq<Frame>)
    requires Connected(speaker, listener, heard) && listener.healthy
    requires |listener.channel.read| % FRAME_BYTES == 0
    ensures AllDecode(speaker.channel.wire[|listener.channel.read|..], listener.channel.generation)
  {
    var c, d := speaker.channel, listener.channel;
    var ahead := c.wire[|d.read|..];
    hide Encode, Decode, Slotted, Once;
    WireIsPrefix(c.accepted, c.wire, c.outgoing, c.sent);
    hide SenderOk, ReceiverOk;
    forall j: nat | j < Records(ahead) ensures Decodes(RecordAt(ahead, j), d.generation) {
      RecordIsFrame(c.accepted, c.wire, |d.read|, j, d.generation);
    }
  }

  lemma RecordIsFrame(accepted: seq<Frame>, wire: seq<Byte>, read: nat, j: nat, generation: Word64)
    requires wire <= Flat(accepted) && read <= |wire| && read % FRAME_BYTES == 0 && j < Records(wire[read..])
    requires forall f :: f in accepted ==> f.generation == generation
    ensures Decodes(RecordAt(wire[read..], j), generation)
  {
    hide Encode, Decode;
    var n := read / FRAME_BYTES + j;
    assert FRAME_BYTES * (j + 1) <= FRAME_BYTES * Records(wire[read..]);
    FlatLength(accepted);
    FlatAt(accepted, n);
    assert RecordAt(wire[read..], j) == Flat(accepted)[FRAME_BYTES * n..FRAME_BYTES * (n + 1)];
    DecodeIffEncoded(Encode(accepted[n]), generation, accepted[n]);
    assert accepted[n] in accepted;
    assert Means(RecordAt(wire[read..], j), generation, accepted[n]);
  }

  method HearSome(chops: seq<Chop>, closed: bool, speaker: Endpoint, listener: Endpoint, heard: seq<Frame>)
    returns (all: seq<Frame>)
    requires |chops| == 8 && speaker != listener && speaker.channel != listener.channel
    requires Connected(speaker, listener, heard)
    modifies listener`healthy, listener.channel`incoming, listener.channel`received, listener.channel`eof,
             listener.channel`read, listener.channel`blocks
    ensures Connected(speaker, listener, all) && heard <= all
    ensures old(listener.healthy) && |old(listener.channel.read)| < |speaker.channel.wire|
            && chops[0].Take? && chops[0].count > 0 ==>
              |listener.channel.read| > |old(listener.channel.read)|
    // Between records, ample reads give every whole record that was written, up to eight.
    ensures old(listener.healthy) && |old(listener.channel.read)| % FRAME_BYTES == 0 && Ample(chops) ==>
              && |old(listener.channel.read)| <= |speaker.channel.wire|
              && |all| == |heard| + Records(speaker.channel.wire[|old(listener.channel.read)|..])
              && |listener.channel.read| == Lesser(|old(listener.channel.read)| + 8 * FRAME_BYTES,
                                                   |speaker.channel.wire|)
              && (!closed ==> listener.healthy)
  {
    hide Channel.Valid, Slotted, Once, Means, Decode, FirstRecords, Ample;
    all := heard;
    ghost var blocks, read := listener.channel.blocks, listener.channel.read;
    var ahead := speaker.channel.wire[|listener.channel.read|..];
    var was := listener.healthy;
    if was && |read| % FRAME_BYTES == 0 {
      WrittenDecodes(speaker, listener, heard);
    }
    var messages := listener.Receive(ahead, chops, closed);
    if was && |read| % FRAME_BYTES == 0 && Ample(chops) {
      AllRecords(messages, ahead, listener.channel.generation);
    }
    ReadMore(read, listener.channel.read, speaker.channel.wire);
    if was {
      HeardMore(blocks, listener.channel.blocks, heard, messages, listener.channel.generation);
      all := heard + messages;
    }
  }

  // ----- conversations in which every write and read goes through

  predicate Easy(step: Step, generation: Word64) {
    match step
    case Say(frame) => frame.generation == generation
    case Push(answers) => Generous(answers)
    case Hear(chops, closed) => Ample(chops) && !closed
  }

  predicate AllEasy(steps: seq<Step>, generation: Word64) {
    forall i :: 0 <= i < |steps| ==> Easy(steps[i], generation)
  }

  function Says(steps: seq<Step>): nat {
    if steps == [] then 0 else Says(steps[..|steps| - 1]) + if steps[|steps| - 1].Say? then 1 else 0
  }

  /** Pushes since something was last said, and hearings since the last step that was none. */
  function Pushes(steps: seq<Step>): nat {
    if steps == [] || steps[|steps| - 1].Say? then 0
    else Pushes(steps[..|steps| - 1]) + if steps[|steps| - 1].Push? then 1 else 0
  }

  function Hears(steps: seq<Step>): nat {
    if steps == [] || !steps[|steps| - 1].Hear? then 0 else Hears(steps[..|steps| - 1]) + 1
  }

  lemma OneMore(steps: seq<Step>, step: Step, generation: Word64)
    ensures Says(steps + [step]) == Says(steps) + if step.Say? then 1 else 0
    ensures Pushes(steps + [step]) == if step.Say? then 0 else Pushes(steps) + if step.Push? then 1 else 0
    ensures Hears(steps + [step]) == if step.Hear? then Hears(steps) + 1 else 0
    ensures AllEasy(steps + [step], generation) ==> AllEasy(steps, generation) && Easy(step, generation)
  {
    var more := steps + [step];
    assert more[..|steps|] == steps && more[|steps|] == step;
    assert forall i :: 0 <= i < |steps| ==> more[i] == steps[i];
    hide Easy;
  }

  /** Where an easy conversation stands: nothing is left to send, two pushes leave nothing waiting,
      and every hearing takes in eight frames or all there are. */
  ghost predicate Flow(steps: seq<Step>, generation: Word64, accepted: seq<Frame>, pending: seq<Option<Frame>>,
                       outgoing: seq<seq<Byte>>, read: seq<Byte>, heard: seq<Frame>, fit: bool) {
    AllEasy(steps, generation) ==>
      && fit && outgoing == [] && |read| % FRAME_BYTES == 0 && Ours(pending, generation)
      && (Pushes(steps) >= 1 ==> Waiting(pending) <= 8) && (Pushes(steps) >= 2 ==> Waiting(pending) == 0)
      && (8 * Hears(steps) <= |heard| || |heard| == |accepted|)
      && |accepted| + Waiting(pending) <= Says(steps)
  }

  ghost predicate Flowing(steps: seq<Step>, speaker: Endpoint, listener: Endpoint, heard: seq<Frame>)
    reads speaker, listener, speaker.channel, listener.channel
  {
    Flow(steps, speaker.channel.generation, speaker.channel.accepted, speaker.pending, speaker.channel.outgoing,
         listener.channel.read, heard, speaker.healthy && speaker.writable && listener.healthy)
  }

  lemma {:induction false} AtMostOneMore(pending: seq<Option<Frame>>, i: nat, f: Frame)
    requires i < |pending|
    ensures Waiting(pending[i := Some(f)]) <= Waiting(pending) + 1
  {
    var n := |pending| - 1;
    if i == n {
      assert pending[i := Some(f)][..n] == pending[..n];
    } else {
      AtMostOneMore(pending[..n], i, f);
      assert pending[i := Some(f)][..n] == pending[..n][i := Some(f)];
    }
  }

  lemma {:induction false} WaitingBound(pending: seq<Option<Frame>>, n: nat)
    requires n <= |pending|
    ensures Waiting(pending) <= Waiting(pending[..n]) + |pending| - n
  {
    if n == |pending| {
      assert pending[..n] == pending;
    } else {
      var init := pending[..|pending| - 1];
      WaitingBound(init, n);
      assert init[..n] == pending[..n];
    }
  }

  /** There are sixteen kinds. */
  lemma AtMostSixteen(pending: seq<Option<Frame>>, sent: seq<Option<Values>>)
    requires Slotted(pending, sent)
    ensures Waiting(pending) <= 16
  {
    assert pending[0].None? && pending[8].None? && pending[9].None?;
    hide Slotted;
    WaitingBound(pending, 10);
    assert pending[..10][..9] == pending[..9] && pending[..9][..8] == pending[..8];
    assert Waiting(pending[..10]) == Waiting(pending[..8]);
    WaitingBound(pending[..8], 1);
    assert pending[..8][..1] == [pending[0]];
    assert Waiting([pending[0]]) == Waiting([]) + 0 by {
      assert [pending[0]][..0] == [];
    }
  }

  lemma FlowSay(steps: seq<Step>, f: Frame, generation: Word64, accepted: seq<Frame>, pending: seq<Option<Frame>>,
                now: seq<Option<Frame>>, outgoing: seq<seq<Byte>>, read: seq<Byte>, heard: seq<Frame>, fit: bool)
    requires Flow(steps, generation, accepted, pending, outgoing, read, heard, fit) && |pending| == SLOTS
    requires now == pending || now == pending[Code(f.kind) := Some(f)]
    ensures Flow(steps + [Say(f)], generation, accepted, now, outgoing, read, heard, fit)
  {
    hide AllEasy;
    OneMore(steps, Say(f), generation);
    AtMostOneMore(pending, Code(f.kind), f);
    hide Waiting, Says, Pushes, Hears;
  }

  lemma OursLess(before: seq<Option<Frame>>, after: seq<Option<Frame>>, accepted: seq<Frame>, generation: Word64)
    requires Ours(before, generation) && HandedOver(before, after, accepted)
    ensures Ours(after, generation)
  {
  }

  lemma FlowPush(steps: seq<Step>, answers: seq<Write>, generation: Word64, accepted: seq<Frame>, more: seq<Frame>,
                 pending: seq<Option<Frame>>, now: seq<Option<Frame>>, outgoing: seq<seq<Byte>>, rest: seq<seq<Byte>>,
                 read: seq<Byte>, heard: seq<Frame>, fit: bool, still: bool)
    requires Flow(steps, generation, accepted, pending, outgoing, read, heard, fit) && Waiting(pending) <= 16
    requires HandedOver(pending, now, more) && |more| + Waiting(now) <= |accepted| + Waiting(pending)
    requires fit && Ours(pending, generation) ==>
               Waiting(now) == 0 || Waiting(now) + QUEUE_RECORDS <= Waiting(pending) + |outgoing|
    requires fit && Generous(answers) ==> still && rest == []
    ensures Flow(steps + [Push(answers)], generation, more, now, rest, read, heard, still)
  {
    hide AllEasy, Waiting, Says, Pushes, Hears, Generous;
    OneMore(steps, Push(answers), generation);
    if AllEasy(steps, generation) {
      OursLess(pending, now, more, generation);
    }
  }

  lemma FlowHear(steps: seq<Step>, step: Step, generation: Word64, accepted: seq<Frame>, pending: seq<Option<Frame>>,
                 outgoing: seq<seq<Byte>>, was: seq<Byte>, now: seq<Byte>, heard: seq<Frame>, all: seq<Frame>,
                 fit: bool, still: bool, wire: seq<Byte>)
    requires Flow(steps, generation, accepted, pending, outgoing, was, heard, fit) && step.Hear?
    requires fit && outgoing == [] ==> |wire| == FRAME_BYTES * |accepted|
    requires fit && |was| % FRAME_BYTES == 0 ==> |was| == FRAME_BYTES * |heard|
    requires fit && |was| % FRAME_BYTES == 0 && Ample(step.chops) ==>
               && |was| <= |wire| && |all| == |heard| + Records(wire[|was|..])
               && |now| == Lesser(|was| + 8 * FRAME_BYTES, |wire|) && (!step.closed ==> still)
    ensures Flow(steps + [step], generation, accepted, pending, outgoing, now, all, still)
  {
    hide AllEasy, Waiting, Says, Pushes, Hears, Ample, Ours;
    OneMore(steps, step, generation);
  }

  lemma SpeakerSlots(speaker: Endpoint)
    requires speaker.Valid()
    ensures |speaker.pending| == SLOTS && Waiting(speaker.pending) <= 16
  {
    AtMostSixteen(speaker.pending, speaker.sent);
  }

  /** How much was written and read, in whole frames. */
  lemma Lengths(speaker: Endpoint, listener: Endpoint, heard: seq<Frame>)
    requires Connected(speaker, listener, heard)
    ensures speaker.channel.outgoing == [] ==> |speaker.channel.wire| == FRAME_BYTES * |speaker.channel.accepted|
    ensures listener.healthy && |listener.channel.read| % FRAME_BYTES == 0 ==>
              |listener.channel.read| == FRAME_BYTES * |heard|
  {
    hide Slotted, Once, Means, Encode, Decode;
    var c, d := speaker.channel, listener.channel;
    if c.outgoing == [] {
      WireIsWhole(c.accepted, c.wire, c.sent);
    }
    ConcatLength(d.blocks);
    PartialRecord(d.read, d.blocks, d.incoming, d.received);
  }

  /** One step of a conversation over the stream between two endpoints. */
  method Take(step: Step, speaker: Endpoint, listener: Endpoint, heard: seq<Frame>, ghost past: seq<Step>)
    returns (all: seq<Frame>)
    requires WellPosed(step) && speaker != listener && speaker.channel != listener.channel
    requires Connected(speaker, listener, heard) && Spoken(past, speaker) && Flowing(past, speaker, listener, heard)
    modifies speaker, listener, speaker.channel, listener.channel
    ensures Connected(speaker, listener, all) && Spoken(past + [step], speaker) && heard <= all
    ensures Flowing(past + [step], speaker, listener, all)
  {
    hide Channel.Valid, Slotted, Once, Said, Unsaid, AllSaid, Heard, SentWasSaid, NoneLost, Flow, AllWilling;
    hide HandedOver, Waiting, Ours, Generous, Ample, Records;
    all := heard;
    SpeakerSlots(speaker);
    Lengths(speaker, listener, heard);
    ghost var c, d := speaker.channel, listener.channel;
    ghost var accepted, pending, outgoing, read := c.accepted, speaker.pending, c.outgoing, d.read;
    ghost var fit := speaker.healthy && speaker.writable && listener.healthy;
    match step {
      case Say(frame) =>
        SayOne(frame, speaker, past);
        FlowSay(past, frame, c.generation, accepted, pending, speaker.pending, outgoing, read, heard, fit);
      case Push(answers) =>
        PushAll(answers, speaker, past);
        FlowPush(past, answers, c.generation, accepted, c.accepted, pending, speaker.pending, outgoing, c.outgoing,
                 read, heard, fit, speaker.healthy && speaker.writable && listener.healthy);
      case Hear(chops, closed) =>
        all := HearSome(chops, closed, speaker, listener, heard);
        FlowHear(past, step, c.generation, accepted, pending, outgoing, read, d.read, heard, all, fit,
                 speaker.healthy && speaker.writable && listener.healthy, c.wire);
        AllSaidStays(past, step, speaker.channel.accepted, speaker.pending);
        if AllWilling(past + [step]) {
          WillingBefore(past, step);
        }
        if speaker.healthy && speaker.writable {
          UnsaidStays(past, step, speaker.sent);
          NoneLostStays(past, step, speaker.channel.accepted, speaker.pending, speaker.sent);
        }
    }
  }

  /** Nothing is under way: no frame waits, and everything was written and read, unrefused. */
  ghost predicate Drained(speaker: Endpoint, listener: Endpoint)
    reads speaker, listener, speaker.channel, listener.channel
  {
    && speaker.healthy && speaker.writable && listener.healthy
    && (forall k :: 0 <= k < |speaker.pending| ==> speaker.pending[k].None?)
    && speaker.channel.outgoing == [] && listener.channel.read == speaker.channel.wire
  }

  lemma WillingLosesNone(steps: seq<Step>, speaker: Endpoint)
    requires Spoken(steps, speaker) && AllWilling(steps)
    ensures NoneLost(steps, speaker.channel.accepted, speaker.pending)
  {
  }

  /** Any conversation at all: whatever is written and read in whatever pieces and order, the
      listener has heard a prefix of what the speaker queued, all of which was said, and of
      each kind but the repeatable ones it is the first that was said. Unless a write is refused,
      every such first frame is queued or waiting; once nothing is under way, everything queued
      has been heard and every such frame is among it. */
  method Converse(steps: seq<Step>, generation: Word64)
    returns (speaker: Endpoint, listener: Endpoint, heard: seq<Frame>)
    requires forall s :: s in steps ==> WellPosed(s)
    ensures heard <= speaker.channel.accepted
    ensures forall i :: 0 <= i < |heard| ==> Said(steps, heard[i])
    ensures forall kind :: kind != Successor && kind != Kind.Finish ==> Count(heard, kind) <= 1
    ensures AllWilling(steps) ==> NoneLost(steps, speaker.channel.accepted, speaker.pending)
    ensures Drained(speaker, listener) ==> heard == speaker.channel.accepted && AllFirst(steps, heard)
    ensures AllEasy(steps, generation) && Pushes(steps) >= 2 && 8 * Hears(steps) >= Says(steps) ==>
              Drained(speaker, listener)
  {
    hide Said, FirstSaid, Count, Connected, Spoken, Drained, AllWilling, NoneLost;
    hide Flowing, AllEasy, Pushes, Hears, Says;
    speaker, listener := Meet(generation);
    heard := [];
    for i := 0 to |steps|
      invariant fresh(speaker) && fresh(listener) && fresh(speaker.channel) && fresh(listener.channel)
      invariant speaker != listener && speaker.channel != listener.channel
      invariant Connected(speaker, listener, heard) && Spoken(steps[..i], speaker)
      invariant Flowing(steps[..i], speaker, listener, heard) && speaker.channel.generation == generation
    {
      heard := Take(steps[i], speaker, listener, heard, steps[..i]);
      assert steps[..i + 1] == steps[..i] + [steps[i]];
    }
    assert steps[..|steps|] == steps;
    HeardWasSaid(steps, speaker, listener, heard);
    if AllWilling(steps) {
      WillingLosesNone(steps, speaker);
    }
    if AllEasy(steps, generation) && Pushes(steps) >= 2 && 8 * Hears(steps) >= Says(steps) {
      EasyDrains(steps, speaker, listener, heard);
    }
    if Drained(speaker, listener) {
      DrainedIsHeard(steps, speaker, listener, heard);
    }
  }

  /** Two pushes and enough hearings after the last frame was said leave nothing under way. */
  lemma EasyDrains(steps: seq<Step>, speaker: Endpoint, listener: Endpoint, heard: seq<Frame>)
    requires Connected(speaker, listener, heard) && Flowing(steps, speaker, listener, heard)
    requires AllEasy(steps, speaker.channel.generation)
    requires Pushes(steps) >= 2 && 8 * Hears(steps) >= Says(steps)
    ensures Drained(speaker, listener)
  {
    hide AllEasy, Pushes, Hears, Says, Waiting, Ours, Count;
    Lengths(speaker, listener, heard);
    HeardOnce(speaker, listener, heard);
    IdleWaits(speaker.pending);
    hide Channel.Valid, Slotted, Once, Heard;
  }

  lemma DrainedIsHeard(steps: seq<Step>, speaker: Endpoint, listener: Endpoint, heard: seq<Frame>)
    requires Connected(speaker, listener, heard) && Spoken(steps, speaker) && Drained(speaker, listener)
    ensures heard == speaker.channel.accepted && AllFirst(steps, heard)
  {
    hide Said, FirstSaid, Count;
    HeardOnce(speaker, listener, heard);
    var c, d := speaker.channel, listener.channel;
    ReceivedIsPrefix(c.accepted, c.wire, c.outgoing, c.sent, d.read, d.blocks, d.incoming, d.received, d.generation);
    hide SenderOk, ReceiverOk, Decode;
    assert |heard| == |c.accepted|;
  }

  /** The two ends of a new stream. */
  method Meet(generation: Word64) returns (speaker: Endpoint, listener: Endpoint)
    ensures fresh(speaker) && fresh(listener) && fresh(speaker.channel) && fresh(listener.channel)
    ensures speaker != listener && speaker.channel != listener.channel
    ensures Connected(speaker, listener, []) && Spoken([], speaker)
    ensures Flowing([], speaker, listener, []) && speaker.channel.generation == generation
  {
    hide SenderOk, ReceiverOk, Slotted, Once, Waiting;
    speaker := new Endpoint(generation);
    listener := new Endpoint(generation);
    NothingSaid(speaker.pending, speaker.sent);
    hide AllSaid, Unsaid, SentWasSaid, NoneLost;
    IdleWaits(speaker.pending);
    NothingHeard(listener.channel.blocks, generation);
  }

  lemma HeardWasSaid(steps: seq<Step>, speaker: Endpoint, listener: Endpoint, heard: seq<Frame>)
    requires Connected(speaker, listener, heard) && Spoken(steps, speaker)
    ensures heard <= speaker.channel.accepted
    ensures forall i :: 0 <= i < |speaker.channel.accepted| ==> Said(steps, speaker.channel.accepted[i])
    ensures forall kind :: !Repeatable(kind) ==> Count(heard, kind) <= 1
  {
    hide Said, Count;
    HeardOnce(speaker, listener, heard);
  }

  lemma NothingSaid(pending: seq<Option<Frame>>, sent: seq<Option<Values>>)
    requires |pending| == |sent| == SLOTS && forall k :: 0 <= k < SLOTS ==> pending[k].None?
    requires forall k :: 0 <= k < SLOTS ==> sent[k].None?
    ensures AllSaid([], [], pending) && Unsaid([], sent) && SentWasSaid([], sent) && NoneLost([], [], pending)
  {
  }

  lemma NothingHeard(blocks: seq<seq<Byte>>, generation: Word64)
    ensures Heard(blocks, [], generation)
  {
  }
}
