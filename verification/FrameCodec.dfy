/**
 Length-prefixed launcher frames: the encoder and the chunk-by-chunk decoder.
 */
module FrameCodec {
  import opened Basics

  newtype Byte = x: int | 0 <= x < 256

  const MAX_MESSAGE_BYTES := 2097152

  datatype Refusal = MessageCeiling | BadSize | TrailingBytes

  // ---------------------------------------------------------------- the length prefix

  /** `writeUInt32BE`. */
  function WriteLength(n: nat): (r: seq<Byte>)
    requires n < 0x1_0000_0000
    ensures |r| == 4 && ReadLength(r) == n
  {
    var a, low24 := n / 0x100_0000, n % 0x100_0000;
    var b, low16 := low24 / 0x1_0000, low24 % 0x1_0000;
    var c, d := low16 / 0x100, low16 % 0x100;
    [a as Byte, b as Byte, c as Byte, d as Byte]
  }

  /** `readUInt32BE`. */
  function ReadLength(header: seq<Byte>): nat
    requires |header| == 4
  {
    header[0] as int * 0x100_0000 + header[1] as int * 0x1_0000 + header[2] as int * 0x100 + header[3] as int
  }

  /** `encodeFrame`. */
  function Encode(payload: seq<Byte>): Result<seq<Byte>, Refusal> {
    if |payload| == 0 || |payload| > MAX_MESSAGE_BYTES then Err(MessageCeiling)
    else Ok(WriteLength(|payload|) + payload)
  }

  // ---------------------------------------------------------------- what the decoder has been told

  datatype Decoder = Waiting(fed: seq<Byte>) | Settled(outcome: Result<seq<Byte>, Refusal>)

  /** What all bytes so far amount to, when the last of them arrived just now. */
  function Judge(all: seq<Byte>): Decoder {
    if |all| < 4 then Waiting(all)
    else
      var length := ReadLength(all[..4]);
      if length == 0 || length > MAX_MESSAGE_BYTES then Settled(Err(BadSize))
      else if |all| - 4 > length then Settled(Err(TrailingBytes))
      else if |all| - 4 == length then Settled(Ok(all[4..]))
      else Waiting(all)
  }

  /** One chunk; nothing reaches a settled decoder. */
  function Feed(d: Decoder, chunk: seq<Byte>): Decoder {
    if d.Settled? then d else Judge(d.fed + chunk)
  }

  function FeedAll(d: Decoder, chunks: seq<seq<Byte>>): Decoder {
    if chunks == [] then d else Feed(FeedAll(d, chunks[..|chunks| - 1]), chunks[|chunks| - 1])
  }

  function Concat(chunks: seq<seq<Byte>>): seq<Byte> {
    if chunks == [] then [] else Concat(chunks[..|chunks| - 1]) + chunks[|chunks| - 1]
  }

  const START := Waiting([])

  // ---------------------------------------------------------------- every split

  /** Every proper prefix of a frame leaves the decoder waiting. */
  lemma PrefixWaits(payload: seq<Byte>, n: nat)
    requires 0 < |payload| <= MAX_MESSAGE_BYTES && n < |payload| + 4
    ensures Judge(Encode(payload).value[..n]) == Waiting(Encode(payload).value[..n])
  {
    var frame := Encode(payload).value;
    if n >= 4 { assert frame[..n][..4] == WriteLength(|payload|); }
  }

  lemma WholeSettles(payload: seq<Byte>)
    requires 0 < |payload| <= MAX_MESSAGE_BYTES
    ensures Judge(Encode(payload).value) == Settled(Ok(payload))
  {
    var frame := Encode(payload).value;
    assert frame[..4] == WriteLength(|payload|) && frame[4..] == payload;
  }

  lemma OverrunRefused(payload: seq<Byte>, extra: seq<Byte>)
    requires 0 < |payload| <= MAX_MESSAGE_BYTES && extra != []
    ensures Judge(Encode(payload).value + extra) == Settled(Err(TrailingBytes))
  {
    var frame := Encode(payload).value;
    assert (frame + extra)[..4] == WriteLength(|payload|);
  }

  /** Chunks that add up to a proper prefix of a frame leave the decoder holding exactly them. */
  lemma {:induction false} PartialFrameWaits(payload: seq<Byte>, chunks: seq<seq<Byte>>)
    requires 0 < |payload| <= MAX_MESSAGE_BYTES
    requires Concat(chunks) <= Encode(payload).value && Concat(chunks) != Encode(payload).value
    ensures FeedAll(START, chunks) == Waiting(Concat(chunks))
  {
    var frame := Encode(payload).value;
    var total := Concat(chunks);
    if chunks != [] {
      var front := chunks[..|chunks| - 1];
      assert Concat(front) == total[..|Concat(front)|] == frame[..|Concat(front)|];
      assert |total| < |frame|;
      PartialFrameWaits(payload, front);
      assert total == frame[..|total|];
      PrefixWaits(payload, |total|);
    }
  }

  /** Every payload within the ceiling, however its frame is split into chunks, is decoded exactly. */
  lemma {:induction false} AnySplitDecodes(payload: seq<Byte>, chunks: seq<seq<Byte>>)
    requires 0 < |payload| <= MAX_MESSAGE_BYTES && Concat(chunks) == Encode(payload).value
    ensures FeedAll(START, chunks) == Settled(Ok(payload))
  {
    var frame := Encode(payload).value;
    assert chunks != [];
    var front, last := chunks[..|chunks| - 1], chunks[|chunks| - 1];
    if last == [] {
      assert Concat(front) == frame;
      AnySplitDecodes(payload, front);
    } else {
      assert Concat(front) == frame[..|Concat(front)|];
      PartialFrameWaits(payload, front);
      WholeSettles(payload);
    }
  }

  /** Extra bytes in the chunk that completes the frame are refused; in a later chunk they are not seen. */
  lemma TrailingRefused(payload: seq<Byte>, chunks: seq<seq<Byte>>, last: seq<Byte>, extra: seq<Byte>)
    requires 0 < |payload| <= MAX_MESSAGE_BYTES && last != [] && extra != []
    requires Concat(chunks) + last == Encode(payload).value
    ensures FeedAll(START, chunks + [last + extra]) == Settled(Err(TrailingBytes))
    ensures FeedAll(START, chunks + [last] + [extra]) == Settled(Ok(payload))
  {
    var frame := Encode(payload).value;
    assert Concat(chunks) == frame[..|Concat(chunks)|];
    PartialFrameWaits(payload, chunks);
    OverrunRefused(payload, extra);
    assert (chunks + [last + extra])[..|chunks|] == chunks;
    assert Concat(chunks) + (last + extra) == frame + extra;
    WholeSettles(payload);
    assert (chunks + [last])[..|chunks|] == chunks;
    assert (chunks + [last] + [extra])[..|chunks| + 1] == chunks + [last];
  }

  /** A header that announces nothing, or more than the ceiling, is refused as soon as it is complete,
      however it arrives and whatever follows. */
  lemma {:induction false} BadSizeRefused(chunks: seq<seq<Byte>>)
    requires |Concat(chunks)| >= 4
    requires ReadLength(Concat(chunks)[..4]) == 0 || ReadLength(Concat(chunks)[..4]) > MAX_MESSAGE_BYTES
    ensures FeedAll(START, chunks) == Settled(Err(BadSize))
  {
    var front := chunks[..|chunks| - 1];
    if |Concat(front)| >= 4 {
      assert Concat(front)[..4] == Concat(chunks)[..4];
      BadSizeRefused(front);
    } else {
      HeaderWaits(front);
    }
  }

  lemma {:induction false} HeaderWaits(chunks: seq<seq<Byte>>)
    requires |Concat(chunks)| < 4
    ensures FeedAll(START, chunks) == Waiting(Concat(chunks))
  {
    if chunks != [] { HeaderWaits(chunks[..|chunks| - 1]); }
  }

  lemma {:induction false} WaitingHoldsAll(chunks: seq<seq<Byte>>)
    requires FeedAll(START, chunks).Waiting?
    ensures FeedAll(START, chunks) == Waiting(Concat(chunks))
  {
    if chunks != [] { WaitingHoldsAll(chunks[..|chunks| - 1]); }
  }

  /** Nothing else is ever decoded: a decoded payload's own frame is exactly what the chunks up to some
      point add up to. */
  lemma {:induction false} DecodedWasSent(chunks: seq<seq<Byte>>, payload: seq<Byte>) returns (n: nat)
    requires FeedAll(START, chunks) == Settled(Ok(payload))
    ensures n <= |chunks| && Encode(payload) == Ok(Concat(chunks[..n]))
  {
    var front := chunks[..|chunks| - 1];
    if FeedAll(START, front).Settled? {
      n := DecodedWasSent(front, payload);
      assert front[..n] == chunks[..n];
    } else {
      WaitingHoldsAll(front);
      n := |chunks|;
      assert chunks[..n] == chunks;
      var all := Concat(chunks);
      assert all == all[..4] + all[4..];
      LengthReadsBack(all[..4]);
    }
  }

  lemma LengthReadsBack(header: seq<Byte>)
    requires |header| == 4
    ensures ReadLength(header) <= 0xFFFF_FFFF && WriteLength(ReadLength(header)) == header
  {
    hide WriteLength;
    SameLength(WriteLength(ReadLength(header)), header);
  }

  /** No two headers announce the same length. */
  lemma SameLength(x: seq<Byte>, y: seq<Byte>)
    requires |x| == |y| == 4 && ReadLength(x) == ReadLength(y)
    ensures x == y
  {
    assert x[0] == y[0];
    assert x[1] == y[1];
    assert x[2] == y[2];
  }

  // ---------------------------------------------------------------- the data handler

  class FrameReader {
    var settled: Option<Result<seq<Byte>, Refusal>>
    var header: seq<Byte>
    var payload: array?<Byte>
    var received: nat

    /** Header first, then a buffer of exactly the announced length. */
    ghost predicate Valid()
      reads this, payload
    {
      settled.None? ==>
        && |header| <= 4
        && (|header| < 4 ==> payload == null && received == 0)
        && (|header| == 4 ==>
              && payload != null && payload.Length == ReadLength(header)
              && 0 < payload.Length <= MAX_MESSAGE_BYTES && received < payload.Length)
    }

    ghost function State(): Decoder
      requires Valid()
      reads this, payload
    {
      if settled.Some? then Settled(settled.value)
      else Waiting(header + if payload == null then [] else payload[..received])
    }

    constructor ()
      ensures Valid() && State() == START
    {
      settled, header, payload, received := None, [], null, 0;
    }

    /** The socket's `data` event. */
    method OnData(chunk: seq<Byte>)
      requires Valid()
      modifies this, payload
      ensures Valid() && State() == Feed(old(State()), chunk)
    {
      if settled.Some? { return; }
      ghost var before := State().fed;
      var input := chunk;
      if |header| < 4 {
        var needed := 4 - |header|;
        var taken := if needed < |input| then needed else |input|;
        header := header + input[..taken];
        input := input[taken..];
        assert header + input == before + chunk;
        if |header| < 4 { return; }
        var length := ReadLength(header);
        if length == 0 || length > MAX_MESSAGE_BYTES {
          settled := Some(Err(BadSize));
          assert (before + chunk)[..4] == header;
          return;
        }
        payload := new Byte[length];
      }
      assert before + chunk == header + payload[..received] + input;
      Fill(input);
    }

    /** Bytes beyond the header go into the buffer. */
    method Fill(input: seq<Byte>)
      requires Valid() && settled.None? && |header| == 4
      modifies this`settled, this`received, payload
      ensures Valid() && State() == Judge(header + old(payload[..received]) + input)
    {
      ghost var kept := payload[..received];
      ghost var all := header + kept + input;
      assert all[..4] == header && |all| == 4 + received + |input|;
      if |input| > payload.Length - received {
        settled := Some(Err(TrailingBytes));
        return;
      }
      Copy(payload, received, input);
      assert payload[..received + |input|] == kept + input;
      received := received + |input|;
      if received == payload.Length {
        assert all[4..] == payload[..];
        settled := Some(Ok(payload[..]));
      } else {
        assert header + payload[..received] == all;
      }
    }
  }

  /** `input.copy(payload, at)`. */
  method Copy(a: array<Byte>, at: nat, input: seq<Byte>)
    requires at + |input| <= a.Length
    modifies a
    ensures a[..at] == old(a[..at]) && a[at..at + |input|] == input
    ensures a[at + |input|..] == old(a[at + |input|..])
  {
    for k := 0 to |input|
      invariant forall j :: 0 <= j < at ==> a[j] == old(a[j])
      invariant forall j :: at <= j < at + k ==> a[j] == input[j - at]
      invariant forall j :: at + k <= j < a.Length ==> a[j] == old(a[j])
    {
      a[at + k] := input[k];
    }
  }
}
