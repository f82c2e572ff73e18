/** Length-framed messages: four big-endian length bytes, then exactly that many payload bytes. */
module Framing {
  import opened Text

  type byte = x: int | 0 <= x < 256

  const MAX_FRAME := 16 * 1024 * 1024

  const HEADER := 4

  // ---------------------------------------------------------------------------
  // The encoding
  // ---------------------------------------------------------------------------

  function Header(n: nat): (h: seq<byte>)
    requires n <= MAX_FRAME
    ensures |h| == HEADER
  {
    [n / 0x100_0000, n / 0x1_0000 % 0x100, n / 0x100 % 0x100, n % 0x100]
  }

  function HeaderValue(h: seq<byte>): nat
    requires |h| == HEADER
  {
    (h[0] as int) * 0x100_0000 + (h[1] as int) * 0x1_0000 + (h[2] as int) * 0x100 + (h[3] as int)
  }

  predicate Fits(msg: seq<byte>) {
    |msg| <= MAX_FRAME
  }

  function Frame(msg: seq<byte>): (f: seq<byte>)
    requires Fits(msg)
    ensures |f| == HEADER + |msg|
  {
    Header(|msg|) + msg
  }

  function Frames(msgs: seq<seq<byte>>): seq<byte>
    requires forall i :: 0 <= i < |msgs| ==> Fits(msgs[i])
  {
    if msgs == [] then [] else Frame(msgs[0]) + Frames(msgs[1..])
  }

  /** What the bytes at the front of a connection amount to. */
  datatype Front = More | Oversize | Message(msg: seq<byte>)

  function FrontOf(bytes: seq<byte>): Front {
    if |bytes| < HEADER then More
    else
      var n := HeaderValue(bytes[..HEADER]);
      if n > MAX_FRAME then Oversize
      else if |bytes| < HEADER + n then More
      else Message(bytes[HEADER..HEADER + n])
  }

  lemma HeaderRoundTrip(n: nat)
    requires n <= MAX_FRAME
    ensures HeaderValue(Header(n)) == n
  {
  }

  /** A header is accepted exactly when it announces at most 16 MiB, whatever follows it. */
  lemma OversizeIsSeenInTheHeader(bytes: seq<byte>)
    requires |bytes| >= HEADER
    ensures FrontOf(bytes) == Oversize <==> HeaderValue(bytes[..HEADER]) > MAX_FRAME
    ensures FrontOf(bytes) == Oversize <==> FrontOf(bytes[..HEADER]) == Oversize
  {
    assert bytes[..HEADER][..HEADER] == bytes[..HEADER];
  }

  /** Bytes that begin with a frame decode to its message; a proper prefix of a frame, to nothing. */
  lemma FrontOfFrame(msg: seq<byte>, bytes: seq<byte>)
    requires Fits(msg)
    ensures Frame(msg) <= bytes ==> FrontOf(bytes) == Message(msg)
    ensures bytes < Frame(msg) ==> FrontOf(bytes) == More
  {
    HeaderRoundTrip(|msg|);
    if Frame(msg) <= bytes || (bytes < Frame(msg) && |bytes| >= HEADER) {
      assert bytes[..HEADER] == Frame(msg)[..HEADER] == Header(|msg|);
    }
    if Frame(msg) <= bytes {
      assert bytes[HEADER..HEADER + |msg|] == Frame(msg)[HEADER..] == msg;
    }
  }

  lemma ValueRoundTrip(h: seq<byte>)
    requires |h| == HEADER && HeaderValue(h) <= MAX_FRAME
    ensures Header(HeaderValue(h)) == h
  {
    var n := HeaderValue(h);
    var a: int, b: int, c: int, d: int := h[0], h[1], h[2], h[3];
    assert n % 0x100 == d && n / 0x100 == a * 0x1_0000 + b * 0x100 + c;
    assert n / 0x1_0000 == a * 0x100 + b && n / 0x100_0000 == a;
  }

  /** Only a frame decodes to a message: decoding is injective on what it consumes. */
  lemma MessageComesFromItsFrame(bytes: seq<byte>)
    requires FrontOf(bytes).Message?
    ensures Fits(FrontOf(bytes).msg) && Frame(FrontOf(bytes).msg) <= bytes
  {
    var msg := FrontOf(bytes).msg;
    var h := bytes[..HEADER];
    ValueRoundTrip(h);
    assert bytes[..HEADER + |msg|] == h + msg;
  }

  // ---------------------------------------------------------------------------
  // Many messages
  // ---------------------------------------------------------------------------

  /** Every complete message at the front of the bytes, in order, and what is left over. */
  function Decoded(bytes: seq<byte>): (seq<seq<byte>>, seq<byte>) {
    match FrontOf(bytes)
    case Message(msg) =>
      var (rest, left) := Decoded(bytes[HEADER + |msg|..]);
      ([msg] + rest, left)
    case _ => ([], bytes)
  }

  /** A stream of frames cut anywhere decodes to exactly the messages that are whole before
      the cut, and what is left over decodes to nothing. */
  lemma {:induction false} CutStreamDecodes(msgs: seq<seq<byte>>, tail: seq<byte>, last: seq<byte>)
    requires forall i :: 0 <= i < |msgs| ==> Fits(msgs[i])
    requires Fits(last) && tail < Frame(last)
    ensures Decoded(Frames(msgs) + tail) == (msgs, tail)
  {
    if msgs == [] {
      FrontOfFrame(last, tail);
      assert Frames(msgs) + tail == tail;
    } else {
      var bytes := Frames(msgs) + tail;
      assert bytes == Frame(msgs[0]) + (Frames(msgs[1..]) + tail);
      FrontOfFrame(msgs[0], bytes);
      assert bytes[HEADER + |msgs[0]|..] == Frames(msgs[1..]) + tail;
      CutStreamDecodes(msgs[1..], tail, last);
      assert [msgs[0]] + msgs[1..] == msgs;
    }
  }

  lemma {:induction false} FramesOfConcat(a: seq<seq<byte>>, b: seq<seq<byte>>)
    requires forall i :: 0 <= i < |a| ==> Fits(a[i])
    requires forall i :: 0 <= i < |b| ==> Fits(b[i])
    ensures forall i :: 0 <= i < |a + b| ==> Fits((a + b)[i])
    ensures Frames(a + b) == Frames(a) + Frames(b)
  {
    if a == [] {
      assert a + b == b;
    } else {
      assert (a + b)[1..] == a[1..] + b;
      FramesOfConcat(a[1..], b);
    }
  }

  // ---------------------------------------------------------------------------
  // Reading and writing a connection
  // ---------------------------------------------------------------------------

  /** The two directions of a byte stream as one end sees them: bytes not yet read, bytes
      written; `closed` says that the peer will send no more. */
  class Stream {
    var incoming: seq<byte>
    var outgoing: seq<byte>

    constructor (bytes: seq<byte>)
      ensures incoming == bytes && outgoing == []
    {
      incoming, outgoing := bytes, [];
    }

    /** Push bytes; `accepted` is how many the transport takes before it fails. */
    method Write(b: seq<byte>, accepted: nat) returns (ok: bool)
      modifies this`outgoing
      ensures ok <==> |b| <= accepted
      ensures outgoing == old(outgoing) + if ok then b else b[..accepted]
    {
      if |b| <= accepted {
        outgoing := outgoing + b;
        return true;
      }
      outgoing := outgoing + b[..accepted];
      return false;
    }

    /** Fill a buffer of length `n`, or take all there is and fail. */
    method ReadFull(n: nat) returns (buf: seq<byte>, ok: bool)
      modifies this`incoming
      ensures ok <==> n <= |old(incoming)|
      ensures ok ==> buf == old(incoming)[..n] && incoming == old(incoming)[n..]
      ensures !ok ==> buf == old(incoming) && incoming == []
    {
      if n <= |incoming| {
        buf, ok := incoming[..n], true;
        incoming := incoming[n..];
      } else {
        buf, ok := incoming, false;
        incoming := [];
      }
    }

    /** Write one message. What reaches the wire is a prefix of its frame, all of it on
        success; a message that is too long leaves the wire untouched. */
    method WriteFrame(msg: seq<byte>, accepted: nat) returns (ok: bool)
      modifies this`outgoing
      ensures ok <==> Fits(msg) && |Frame(msg)| <= accepted
      ensures !Fits(msg) ==> outgoing == old(outgoing)
      ensures Fits(msg) ==> outgoing == old(outgoing) + if ok then Frame(msg) else Frame(msg)[..accepted]
    {
      if |msg| > MAX_FRAME {
        return false;
      }
      var hdr := Header(|msg|);
      ok := Write(hdr, accepted);
      if !ok {
        assert Frame(msg)[..accepted] == hdr[..accepted];
        return;
      }
      ok := Write(msg, accepted - HEADER);
      if !ok {
        assert Frame(msg)[..accepted] == hdr + msg[..accepted - HEADER];
      }
    }

    /** Read one message. A complete frame is consumed exactly; an oversize one only its header. */
    method ReadFrame() returns (front: Front)
      modifies this`incoming
      ensures front == FrontOf(old(incoming))
      ensures front.Message? ==> |old(incoming)| >= HEADER + |front.msg| && incoming == old(incoming)[HEADER + |front.msg|..]
      ensures front.Oversize? ==> |old(incoming)| >= HEADER && incoming == old(incoming)[HEADER..]
      ensures front.More? ==> incoming == []
    {
      var hdr, ok := ReadFull(HEADER);
      if !ok {
        return More;
      }
      var n := HeaderValue(hdr);
      if n > MAX_FRAME {
        return Oversize;
      }
      var buf: seq<byte>;
      buf, ok := ReadFull(n);
      if !ok {
        return More;
      }
      return Message(buf);
    }
  }
}
