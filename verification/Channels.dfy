/** Bounded, nonblocking record delivery over a byte stream (scripts/guardian/protocol.rs). */
module Channels {
  import opened Wrappers
  import opened Protocol

  datatype Fault = Invalid | WouldBlock | WriteZero | Broken
  datatype Outcome<T> = Done(value: T) | Failed(fault: Fault)

  /** What the system answers to one write or one read. */
  datatype Write = Accepts(count: nat) | WriteInterrupted | WriteBlocks | WriteFails
  datatype Read = Data(bytes: seq<Byte>) | End | Reset | ReadInterrupted | ReadBlocks | ReadFails

  // ----- streams of records

  function Flat(frames: seq<Frame>): seq<Byte> {
    if frames == [] then [] else Flat(frames[..|frames| - 1]) + Encode(frames[|frames| - 1])
  }

  function Concat(blocks: seq<seq<Byte>>): seq<Byte> {
    if blocks == [] then [] else Concat(blocks[..|blocks| - 1]) + blocks[|blocks| - 1]
  }

  ghost predicate Whole(blocks: seq<seq<Byte>>) {
    forall i :: 0 <= i < |blocks| ==> |blocks[i]| == FRAME_BYTES
  }

  lemma {:induction false} FlatLength(frames: seq<Frame>)
    ensures |Flat(frames)| == FRAME_BYTES * |frames|
  {
    if frames == [] {
    } else {
      FlatLength(frames[..|frames| - 1]);
    }
  }

  lemma {:induction false} ConcatLength(blocks: seq<seq<Byte>>)
    requires Whole(blocks)
    ensures |Concat(blocks)| == FRAME_BYTES * |blocks|
  {
    if blocks == [] {
    } else {
      ConcatLength(blocks[..|blocks| - 1]);
    }
  }

  lemma {:induction false} FlatPrefix(frames: seq<Frame>, n: nat)
    requires n <= |frames|
    ensures Flat(frames[..n]) <= Flat(frames)
    decreases |frames| - n
  {
    if n == |frames| {
      assert frames[..n] == frames;
    } else {
      FlatPrefix(frames, n + 1);
      assert frames[..n + 1][..n] == frames[..n];
    }
  }

  lemma FlatAt(frames: seq<Frame>, n: nat)
    requires n < |frames|
    ensures |Flat(frames)| >= FRAME_BYTES * (n + 1)
    ensures Flat(frames)[FRAME_BYTES * n..FRAME_BYTES * (n + 1)] == Encode(frames[n])
  {
    hide Encode;
    FlatPrefix(frames, n + 1);
    FlatLength(frames[..n + 1]);
    FlatLength(frames[..n]);
    assert frames[..n + 1][..n] == frames[..n];
    assert Flat(frames[..n + 1])[FRAME_BYTES * n..] == Encode(frames[n]);
  }

  /** Whole records that start a stream of encoded frames are the first frames, untorn. */
  lemma {:induction false} BlocksAreFrames(blocks: seq<seq<Byte>>, frames: seq<Frame>)
    requires Whole(blocks) && Concat(blocks) <= Flat(frames)
    ensures |blocks| <= |frames|
    ensures forall i :: 0 <= i < |blocks| ==> blocks[i] == Encode(frames[i])
  {
    hide Encode;
    ConcatLength(blocks);
    FlatLength(frames);
    if blocks == [] {
    } else {
      var n := |blocks| - 1;
      var init := blocks[..n];
      ConcatLength(init);
      BlocksAreFrames(init, frames);
      FlatPrefix(frames, n);
      FlatPrefix(frames, n + 1);
      FlatLength(frames[..n]);
      assert frames[..n + 1][..n] == frames[..n];
      LastBlock(Concat(init), blocks[n], Flat(frames[..n]), Encode(frames[n]), Flat(frames));
      forall i | 0 <= i < |blocks| ensures blocks[i] == Encode(frames[i]) {
        if i < n {
          assert init[i] == blocks[i];
        }
      }
    }
  }

  lemma LastBlock(a: seq<Byte>, x: seq<Byte>, b: seq<Byte>, y: seq<Byte>, whole: seq<Byte>)
    requires |a| == |b| && |x| == |y| && a + x <= whole && b + y <= whole
    ensures x == y
  {
    assert x == whole[|a|..|a| + |x|];
    assert y == whole[|b|..|b| + |y|];
  }

  // ----- the two ends as values

  /** The unsent records are the newest accepted frames, and the stream has taken
      everything before them plus `sent` bytes of the first. */
  ghost predicate SenderOk(accepted: seq<Frame>, wire: seq<Byte>, outgoing: seq<seq<Byte>>, sent: nat) {
    && |outgoing| <= QUEUE_RECORDS && |outgoing| <= |accepted| && sent < FRAME_BYTES
    && (outgoing == [] ==> sent == 0)
    && (forall i :: 0 <= i < |outgoing| ==> outgoing[i] == Encode(accepted[|accepted| - |outgoing| + i]))
    && wire == Flat(accepted[..|accepted| - |outgoing|]) + (if outgoing == [] then [] else outgoing[0][..sent])
  }

  /** What was read is whole records plus the part of one that is still incoming. */
  ghost predicate ReceiverOk(read: seq<Byte>, blocks: seq<seq<Byte>>, incoming: seq<Byte>, received: nat) {
    && |incoming| == FRAME_BYTES && received < FRAME_BYTES && Whole(blocks)
    && read == Concat(blocks) + incoming[..received]
  }

  lemma WireIsPrefix(accepted: seq<Frame>, wire: seq<Byte>, outgoing: seq<seq<Byte>>, sent: nat)
    requires SenderOk(accepted, wire, outgoing, sent)
    ensures wire <= Flat(accepted)
  {
    var n := |accepted| - |outgoing|;
    FlatPrefix(accepted, n);
    if outgoing != [] {
      FlatPrefix(accepted, n + 1);
      assert accepted[..n + 1][..n] == accepted[..n];
      assert outgoing[0] == Encode(accepted[n]);
    }
  }

  /** Whatever was written and read in whatever pieces, the records read so far decode
      to the first frames queued, in order; and a partial record is a torn frame. */
  lemma ReceivedIsPrefix(accepted: seq<Frame>, wire: seq<Byte>, outgoing: seq<seq<Byte>>, sent: nat,
                         read: seq<Byte>, blocks: seq<seq<Byte>>, incoming: seq<Byte>, received: nat,
                         generation: Word64)
    requires SenderOk(accepted, wire, outgoing, sent) && ReceiverOk(read, blocks, incoming, received)
    requires read <= wire && forall f :: f in accepted ==> f.generation == generation
    ensures |blocks| <= |accepted|
    ensures forall i :: 0 <= i < |blocks| ==>
              |blocks[i]| == FRAME_BYTES && Decode(blocks[i], generation) == Ok(accepted[i])
    ensures received != 0 <==> |read| % FRAME_BYTES != 0
    ensures read == wire && outgoing == [] ==> received == 0 && |blocks| == |accepted|
  {
    hide Encode, Decode;
    WireIsPrefix(accepted, wire, outgoing, sent);
    assert Concat(blocks) <= read;
    BlocksAreFrames(blocks, accepted);
    forall i | 0 <= i < |blocks| ensures Decode(blocks[i], generation) == Ok(accepted[i]) {
      assert accepted[i] in accepted;
      DecodeIffEncoded(blocks[i], generation, accepted[i]);
    }
    ConcatLength(blocks);
    if outgoing == [] {
      assert accepted[..|accepted|] == accepted;
      FlatLength(accepted);
    }
  }

  lemma EncodeInjective(f: Frame, g: Frame)
    requires Encode(f) == Encode(g)
    ensures f == g
  {
    hide Encode, Decode;
    DecodeIffEncoded(Encode(f), f.generation, f);
    DecodeIffEncoded(Encode(f), g.generation, g);
    DecodeIffEncoded(Encode(f), f.generation, g);
    SameGeneration(f, g);
  }

  lemma SameGeneration(f: Frame, g: Frame)
    requires Encode(f) == Encode(g)
    ensures f.generation == g.generation
  {
    EncodedFields(f);
    EncodedFields(g);
    hide Encode;
    Powers();
    FromToLe(f.generation, 8);
    FromToLe(g.generation, 8);
  }

  /** A record that is still waiting is that of an accepted frame. */
  lemma QueuedWasAccepted(accepted: seq<Frame>, wire: seq<Byte>, outgoing: seq<seq<Byte>>, sent: nat, f: Frame)
    requires SenderOk(accepted, wire, outgoing, sent) && Encode(f) in outgoing
    ensures f in accepted
  {
    hide Encode;
    var i :| 0 <= i < |outgoing| && outgoing[i] == Encode(f);
    EncodeInjective(f, accepted[|accepted| - |outgoing| + i]);
  }

  lemma SenderQueues(accepted: seq<Frame>, wire: seq<Byte>, outgoing: seq<seq<Byte>>, sent: nat, f: Frame)
    requires SenderOk(accepted, wire, outgoing, sent) && |outgoing| < QUEUE_RECORDS
    ensures SenderOk(accepted + [f], wire, outgoing + [Encode(f)], sent)
  {
    hide Encode;
    var n := |accepted| - |outgoing|;
    assert (accepted + [f])[..n] == accepted[..n];
  }

  /** The stream takes `count` more bytes of the first unsent record. */
  lemma SenderWrites(accepted: seq<Frame>, wire: seq<Byte>, outgoing: seq<seq<Byte>>, sent: nat, count: nat)
    requires SenderOk(accepted, wire, outgoing, sent) && outgoing != [] && sent + count <= FRAME_BYTES
    ensures |outgoing[0]| == FRAME_BYTES
    ensures sent + count < FRAME_BYTES ==>
              SenderOk(accepted, wire + outgoing[0][sent..sent + count], outgoing, sent + count)
    ensures sent + count == FRAME_BYTES ==>
              SenderOk(accepted, wire + outgoing[0][sent..sent + count], outgoing[1..], 0)
  {
    hide Encode;
    var n := |accepted| - |outgoing|;
    assert outgoing[0] == Encode(accepted[n]);
    assert outgoing[0][..sent] + outgoing[0][sent..sent + count] == outgoing[0][..sent + count];
    assert accepted[..n + 1][..n] == accepted[..n];
    assert outgoing[0][..FRAME_BYTES] == outgoing[0];
  }

  /** One read fills the incoming record further, and completes it at its full length. */
  lemma ReceiverTakes(read: seq<Byte>, blocks: seq<seq<Byte>>, incoming: seq<Byte>, received: nat, bytes: seq<Byte>)
    requires ReceiverOk(read, blocks, incoming, received) && |bytes| <= FRAME_BYTES - received
    ensures var filled := incoming[..received] + bytes + incoming[received + |bytes|..];
            && |filled| == FRAME_BYTES
            && (received + |bytes| < FRAME_BYTES ==> ReceiverOk(read + bytes, blocks, filled, received + |bytes|))
            && (received + |bytes| == FRAME_BYTES ==> ReceiverOk(read + bytes, blocks + [filled], filled, 0))
  {
    var filled := incoming[..received] + bytes + incoming[received + |bytes|..];
    assert filled[..received + |bytes|] == incoming[..received] + bytes;
    assert (blocks + [filled])[..|blocks|] == blocks;
    if received + |bytes| == FRAME_BYTES {
      assert filled == incoming[..received] + bytes;
      assert Concat(blocks + [filled]) == Concat(blocks) + filled;
    }
  }

  /** An answer that fails a flush, and one that ends it. */
  predicate Refuses(a: Write) {
    a.WriteFails? || (a.Accepts? && a.count == 0)
  }

  predicate Willing(answers: seq<Write>) {
    forall i :: 0 <= i < |answers| ==> !Refuses(answers[i])
  }

  predicate Stops(a: Write) {
    a.WriteBlocks? || Refuses(a)
  }

  /** How many answers take something. */
  function Accepting(answers: seq<Write>): nat {
    if answers == [] then 0
    else Accepting(answers[..|answers| - 1])
         + var last := answers[|answers| - 1]; if last.Accepts? && last.count > 0 then 1 else 0
  }

  /** Every write is accepted for a whole record at least. */
  predicate Generous(answers: seq<Write>) {
    forall i :: 0 <= i < |answers| ==> answers[i].Accepts? && answers[i].count >= FRAME_BYTES
  }

  /** With nothing left to send, the stream has taken every frame whole. */
  lemma WireIsWhole(accepted: seq<Frame>, wire: seq<Byte>, sent: nat)
    requires SenderOk(accepted, wire, [], sent)
    ensures wire == Flat(accepted) && |wire| == FRAME_BYTES * |accepted|
  {
    assert accepted[..|accepted|] == accepted;
    FlatLength(accepted);
  }

  /** What is incoming is what was read beyond whole records. */
  lemma PartialRecord(read: seq<Byte>, blocks: seq<seq<Byte>>, incoming: seq<Byte>, received: nat)
    requires ReceiverOk(read, blocks, incoming, received)
    ensures received == |read| % FRAME_BYTES
  {
    ConcatLength(blocks);
  }

  function Answered(decoded: Result<Frame>): Outcome<Option<Frame>> {
    match decoded
    case Ok(f) => Done(Some(f))
    case Err => Failed(Invalid)
  }

  class Channel {
    const generation: Word64
    var incoming: seq<Byte>
    var received: nat
    var outgoing: seq<seq<Byte>>
    var sent: nat
    var eof: bool
    /** The stream: every byte it took from this end, and every byte it gave to it. */
    var wire: seq<Byte>
    var read: seq<Byte>
    /** Frames taken for sending and records completed. */
    ghost var accepted: seq<Frame>
    ghost var blocks: seq<seq<Byte>>

    ghost predicate Valid()
      reads this
    {
      && SenderOk(accepted, wire, outgoing, sent)
      && ReceiverOk(read, blocks, incoming, received)
      && forall f :: f in accepted ==> f.generation == generation
    }

    constructor (generation: Word64)
      ensures Valid() && this.generation == generation && !eof
      ensures accepted == [] && outgoing == [] && wire == [] && read == [] && blocks == []
    {
      this.generation := generation;
      incoming, received := seq(FRAME_BYTES, _ => 0), 0;
      outgoing, sent, eof := [], 0, false;
      accepted, wire, read, blocks := [], [], [], [];
    }

    /** Queue a frame, unless it is foreign, already waiting, or there is no room. */
    method Enqueue(frame: Frame) returns (r: Outcome<()>)
      requires Valid()
      modifies this`outgoing, this`accepted
      ensures Valid()
      ensures frame.generation != generation ==> r == Failed(Invalid)
      ensures frame.generation == generation && Encode(frame) in old(outgoing) ==> r == Done(())
      ensures frame.generation == generation && Encode(frame) !in old(outgoing) ==>
                r == if |old(outgoing)| == 8 then Failed(Fault.WouldBlock) else Done(())
      ensures if r.Done? && Encode(frame) !in old(outgoing)
              then accepted == old(accepted) + [frame] && outgoing == old(outgoing) + [Encode(frame)]
              else accepted == old(accepted) && outgoing == old(outgoing)
      ensures r.Done? ==> frame in accepted
    {
      hide Encode;
      if frame.generation != generation {
        return Failed(Invalid);
      }
      var bytes := Encode(frame);
      if bytes in outgoing {
        QueuedWasAccepted(accepted, wire, outgoing, sent, frame);
        return Done(());
      }
      if |outgoing| == QUEUE_RECORDS {
        return Failed(Fault.WouldBlock);
      }
      SenderQueues(accepted, wire, outgoing, sent, frame);
      outgoing := outgoing + [bytes];
      accepted := accepted + [frame];
      return Done(());
    }

    /** One write of the rest of the first record. */
    method WriteOnce(count: nat)
      requires Valid() && outgoing != [] && sent + count <= FRAME_BYTES
      modifies this`outgoing, this`sent, this`wire
      ensures Valid() && old(wire) <= wire && |wire| == |old(wire)| + count
      ensures outgoing == if old(sent) + count == FRAME_BYTES then old(outgoing)[1..] else old(outgoing)
    {
      hide Encode, Decode, ReceiverOk;
      SenderWrites(accepted, wire, outgoing, sent, count);
      wire := wire + outgoing[0][sent..sent + count];
      sent := sent + count;
      if sent == FRAME_BYTES {
        outgoing := outgoing[1..];
        sent := 0;
      }
    }

    /** Write until the queue is empty, the stream blocks, or eight attempts were made. */
    method Flush(answers: seq<Write>) returns (r: Outcome<()>)
      requires Valid() && |answers| == QUEUE_RECORDS
      modifies this`outgoing, this`sent, this`wire
      ensures Valid() && old(wire) <= wire
      ensures old(outgoing) != [] && answers[0].Accepts? && answers[0].count > 0 ==> |old(wire)| < |wire|
      // An empty queue, a blocked stream, a refusal and a failure are told apart.
      ensures outgoing == [] ==> r == Done(())
      ensures old(outgoing) != [] && !answers[0].WriteInterrupted? && Stops(answers[0]) ==>
                && wire == old(wire) && outgoing == old(outgoing)
                && r == (if answers[0].Accepts? then Failed(WriteZero)
                         else if answers[0].WriteBlocks? then Done(()) else Failed(Broken))
      ensures Willing(answers) ==> r == Done(())
      ensures (forall a :: a in answers ==> !Stops(a)) ==>
                r == Done(()) && (outgoing == [] || |wire| >= |old(wire)| + Accepting(answers))
      // Eight whole writes send all that can wait.
      ensures Generous(answers) ==> r == Done(()) && outgoing == []
    {
      hide Encode, ReceiverOk, Flat;
      for i := 0 to QUEUE_RECORDS
        invariant Valid() && old(wire) <= wire
        invariant i == 0 ==> outgoing == old(outgoing) && wire == old(wire)
        invariant i > 0 && old(outgoing) != [] ==> !Stops(answers[0])
        invariant |wire| >= |old(wire)| + Accepting(answers[..i])
        invariant Generous(answers) ==> |outgoing| + i <= QUEUE_RECORDS
        invariant i > 0 && answers[0].Accepts? && answers[0].count > 0 ==> |old(wire)| < |wire|
      {
        if outgoing == [] {
          break;
        }
        assert answers[..i + 1][..i] == answers[..i] && answers[i] in answers;
        match answers[i] {
          case Accepts(offered) =>
            var count := if offered <= FRAME_BYTES - sent then offered else FRAME_BYTES - sent;
            if count == 0 {
              return Failed(WriteZero);
            }
            WriteOnce(count);
          case WriteInterrupted =>
          case WriteBlocks => break;
          case WriteFails => return Failed(Broken);
        }
      }
      assert answers[..QUEUE_RECORDS] == answers;
      return Done(());
    }

    /** One read. A complete record is decoded; the end of the stream inside a record is an error. */
    method Receive(answer: Read) returns (r: Outcome<Option<Frame>>)
      requires Valid()
      requires answer.Data? ==> 0 < |answer.bytes| <= FRAME_BYTES - received
      modifies this`incoming, this`received, this`eof, this`read, this`blocks
      ensures Valid()
      ensures old(eof) ==> r == Done(None) && eof && read == old(read) && blocks == old(blocks)
      ensures !old(eof) ==> eof == (answer.End? || answer.Reset?)
      ensures !old(eof) ==> read == old(read) + (if answer.Data? then answer.bytes else [])
      ensures !old(eof) && (answer.End? || answer.Reset?) ==>
                r == if |read| % FRAME_BYTES == 0 then Done(None) else Failed(Invalid)
      ensures !old(eof) && answer.ReadFails? ==> r == Failed(Broken)
      ensures !answer.Data? ==> blocks == old(blocks)
      ensures old(blocks) <= blocks && |blocks| <= |old(blocks)| + 1
      // A frame is answered exactly for a record that was completed and decodes.
      ensures |blocks| > |old(blocks)| ==>
                |blocks[|old(blocks)|]| == FRAME_BYTES && r == Answered(Decode(blocks[|old(blocks)|], generation))
      ensures |blocks| == |old(blocks)| && r.Done? ==> r == Done(None)
      ensures r.Done? && r.value.None? ==> |blocks| == |old(blocks)|
      ensures !old(eof) && answer.Data? ==>
                |blocks| == |old(blocks)| + (if |old(read)| % FRAME_BYTES + |answer.bytes| == FRAME_BYTES then 1 else 0)
      ensures !old(eof) && answer.Data? && |answer.bytes| == FRAME_BYTES ==> blocks == old(blocks) + [answer.bytes]
      ensures r.Failed? ==> answer.ReadFails? || eof || |blocks| > |old(blocks)|
    {
      hide Decode, Encode, SenderOk;
      if eof {
        return Done(None);
      }
      match answer {
        case End => r := FinishReceive();
        case Reset => r := FinishReceive();
        case ReadInterrupted => r := Done(None);
        case ReadBlocks => r := Done(None);
        case ReadFails => r := Failed(Broken);
        case Data(bytes) => r := TakeBytes(bytes);
      }
    }

    /** Store the bytes of one read; a complete record is decoded. */
    method TakeBytes(bytes: seq<Byte>) returns (r: Outcome<Option<Frame>>)
      requires Valid() && 0 < |bytes| <= FRAME_BYTES - received
      modifies this`incoming, this`received, this`read, this`blocks
      ensures Valid() && read == old(read) + bytes
      ensures old(blocks) <= blocks && |blocks| <= |old(blocks)| + 1
      ensures |blocks| > |old(blocks)| ==>
                |blocks[|old(blocks)|]| == FRAME_BYTES && r == Answered(Decode(blocks[|old(blocks)|], generation))
      ensures |blocks| == |old(blocks)| ==> r == Done(None)
      ensures |blocks| == |old(blocks)| + (if |old(read)| % FRAME_BYTES + |bytes| == FRAME_BYTES then 1 else 0)
      ensures |bytes| == FRAME_BYTES ==> blocks == old(blocks) + [bytes]
    {
      hide Decode, Encode, SenderOk, Concat;
      PartialRecord(read, blocks, incoming, received);
      ReceiverTakes(read, blocks, incoming, received, bytes);
      incoming := incoming[..received] + bytes + incoming[received + |bytes|..];
      assert |bytes| == FRAME_BYTES ==> incoming == bytes;
      received := received + |bytes|;
      read := read + bytes;
      if received < FRAME_BYTES {
        return Done(None);
      }
      received := 0;
      blocks := blocks + [incoming];
      r := Answered(Decode(incoming, generation));
    }

    /** The end of the stream: clean exactly when it comes between two records. */
    method FinishReceive() returns (r: Outcome<Option<Frame>>)
      requires Valid()
      modifies this`eof
      ensures Valid() && eof
      ensures r == if |read| % FRAME_BYTES == 0 then Done(None) else Failed(Invalid)
    {
      hide SenderOk, Encode, Decode;
      PartialRecord(read, blocks, incoming, received);
      eof := true;
      if received == 0 {
        return Done(None);
      } else {
        return Failed(Invalid);
      }
    }
  }
}
