/**
  Length-prefixed messages over a channel of plaintext records
  (AnimusCore_v1/animus_transport.hpp:709-725,823-848,852-928). Encryption is abstracted: what one
  side seals as a record, the other side opens as the same plaintext, in order. Encryption, decryption or the
  socket may fail at any record.
 */
module Framing {
  import opened Bytes
  import opened Wire

  /** The largest length prefix `recv_message` accepts: 64 MiB. */
  const LIMIT: nat := 64 * 1024 * 1024

  function Concat(records: seq<seq<Byte>>): seq<Byte> {
    if records == [] then [] else records[0] + Concat(records[1..])
  }

  // ------------------------------------------------------- specification

  /** What `send_message` puts on the stream; the length is truncated to 32 bits. */
  function Frame(payload: seq<Byte>): seq<Byte> { ToBytes(|payload|, 4) + payload }

  datatype Outcome = Received(payload: seq<Byte>, rest: seq<Byte>) | Failed(rest: seq<Byte>)

  /** What `recv_message` makes of the bytes ahead of it. */
  function TakeMessage(stream: seq<Byte>): Outcome {
    if |stream| < 4 then Failed(stream)
    else
      var len, rest := FromBytes(stream[..4]), stream[4..];
      if len > LIMIT || |rest| < len then Failed(rest) else Received(rest[..len], rest[len..])
  }

  /** A message comes back with the rest of the stream untouched exactly when it is no longer than the limit. */
  lemma FrameRoundTrip(payload: seq<Byte>, rest: seq<Byte>)
    ensures TakeMessage(Frame(payload) + rest) == Received(payload, rest) <==> |payload| <= LIMIT
  {
    var stream := Frame(payload) + rest;
    assert stream[..4] == ToBytes(|payload|, 4) && stream[4..] == payload + rest;
    NumberRoundTrip(|payload|, 4);
    FourBytes();
    if |payload| <= LIMIT {
      assert (payload + rest)[..|payload|] == payload && (payload + rest)[|payload|..] == rest;
    }
  }

  /** A message is received exactly if the stream begins with its frame; a failure takes the length prefix at most. */
  lemma ReceivedIff(stream: seq<Byte>, payload: seq<Byte>, rest: seq<Byte>)
    ensures TakeMessage(stream) == Received(payload, rest) <==> |payload| <= LIMIT && stream == Frame(payload) + rest
    ensures TakeMessage(stream).Failed? ==>
              TakeMessage(stream).rest == stream || (|stream| >= 4 && TakeMessage(stream).rest == stream[4..])
  {
    if |payload| <= LIMIT && stream == Frame(payload) + rest { FrameRoundTrip(payload, rest); }
    if TakeMessage(stream) == Received(payload, rest) {
      BytesRoundTrip(stream[..4]);
      hide FromBytes, ToBytes;
      assert stream == stream[..4] + (payload + rest) == Frame(payload) + rest;
    }
  }

  lemma FourBytes()
    ensures Pow256(4) == 0x1_0000_0000
  {
    assert Pow256(1) == 256 && Pow256(2) == 65536 && Pow256(3) == 16777216;
  }

  function Frames(payloads: seq<seq<Byte>>): seq<Byte> {
    if payloads == [] then [] else Frame(payloads[0]) + Frames(payloads[1..])
  }

  /** `n` receives in a row: the payloads, and what is left of the stream. */
  function TakeMessages(stream: seq<Byte>, n: nat): (seq<seq<Byte>>, seq<Byte>) {
    if n == 0 then ([], stream)
    else
      match TakeMessage(stream)
      case Failed(rest) => ([], rest)
      case Received(payload, rest) =>
        var (more, left) := TakeMessages(rest, n - 1);
        ([payload] + more, left)
  }

  lemma {:induction false} FramesRoundTrip(payloads: seq<seq<Byte>>, rest: seq<Byte>)
    requires forall i :: 0 <= i < |payloads| ==> |payloads[i]| <= LIMIT
    ensures TakeMessages(Frames(payloads) + rest, |payloads|) == (payloads, rest)
    decreases |payloads|
  {
    if payloads == [] {
      assert [] + rest == rest;
    } else {
      assert Frames(payloads) + rest == Frame(payloads[0]) + (Frames(payloads[1..]) + rest);
      FrameRoundTrip(payloads[0], Frames(payloads[1..]) + rest);
      FramesRoundTrip(payloads[1..], rest);
      assert [payloads[0]] + payloads[1..] == payloads;
    }
  }

  // ---------------------------------------------------------- the channel

  lemma {:induction false} ConcatAppend(a: seq<seq<Byte>>, b: seq<seq<Byte>>)
    ensures Concat(a + b) == Concat(a) + Concat(b)
    decreases |a|
  {
    if a == [] {
      assert a + b == b;
    } else {
      ConcatAppend(a[1..], b);
      assert (a + b)[1..] == a[1..] + b;
    }
  }

  lemma ConcatOne(r: seq<Byte>)
    ensures Concat([r]) == r
  {
    assert [r][1..] == [];
  }

  /** A frame cut short by a failing link is never taken for a message. */
  lemma TornFrameFails(payload: seq<Byte>, k: nat)
    requires |payload| <= LIMIT && k < |Frame(payload)|
    ensures TakeMessage(Frame(payload)[..k]).Failed?
  {
    var stream := Frame(payload)[..k];
    if k >= 4 {
      assert stream[..4] == ToBytes(|payload|, 4);
      NumberRoundTrip(|payload|, 4);
      FourBytes();
    }
  }

  /** What a failed send leaves behind: part of the data. */
  ghost predicate Torn(before: seq<Byte>, after: seq<Byte>, data: seq<Byte>) {
    exists k: nat :: k < |data| && after == before + data[..k]
  }

  /** How many records of at most `max` bytes `len` bytes need. */
  function Pieces(len: nat, max: nat): nat {
    if len == 0 || max == 0 then 0 else 1 + Pieces(if len < max then 0 else len - max, max)
  }

  /** One record as it arrives: its plaintext, or whatever makes opening it fail. */
  datatype Arrival = Sealed(plaintext: seq<Byte>) | Broken

  /** The plaintext that can be had before the first failure. */
  function Readable(incoming: seq<Arrival>): seq<Byte> {
    if incoming == [] || incoming[0].Broken? then [] else incoming[0].plaintext + Readable(incoming[1..])
  }

  class SecureChannel {
    /** Largest plaintext per record; 0 means no limit is known. */
    const maxMessage: nat
    var handshakeDone: bool
    var plaintextBuf: seq<Byte>
    /** Records on their way in, and records sent. */
    var incoming: seq<Arrival>
    var outgoing: seq<seq<Byte>>
    /** How many more records the connection carries before sending fails. */
    var room: nat

    constructor (maxMessage: nat, room: nat)
      ensures this.maxMessage == maxMessage && this.room == room
      ensures !handshakeDone && plaintextBuf == [] && incoming == [] && outgoing == []
    {
      this.maxMessage := maxMessage;
      this.room := room;
      handshakeDone, plaintextBuf, incoming, outgoing := false, [], [], [];
    }

    /** All plaintext that is still to be read. */
    ghost function Stream(): seq<Byte>
      reads this
    {
      plaintextBuf + Readable(incoming)
    }

    function Largest(len: nat): nat {
      if maxMessage != 0 then maxMessage else if len != 0 then len else 1
    }

    method SendRaw(data: seq<Byte>) returns (ok: bool)
      modifies `outgoing, `room
      ensures ok == (handshakeDone && Pieces(|data|, Largest(|data|)) <= old(room))
      ensures room == (if ok then old(room) - Pieces(|data|, Largest(|data|)) else if handshakeDone then 0 else old(room))
      ensures old(outgoing) <= outgoing
      ensures ok ==> Concat(outgoing) == Concat(old(outgoing)) + data
      ensures !ok && handshakeDone ==> Torn(Concat(old(outgoing)), Concat(outgoing), data)
      ensures !handshakeDone ==> outgoing == old(outgoing)
      ensures maxMessage > 0 ==> forall i :: |old(outgoing)| <= i < |outgoing| ==> |outgoing[i]| <= maxMessage
    {
      if !handshakeDone {
        return false;
      }
      var max := if maxMessage != 0 then maxMessage else |data|;
      if max == 0 {
        max := if data != [] then |data| else 1;
      }
      var offset := 0;
      assert data[..0] == [];
      while offset < |data|
        invariant offset <= |data| && max == Largest(|data|) && old(outgoing) <= outgoing && room <= old(room)
        invariant Pieces(|data|, max) == old(room) - room + Pieces(|data| - offset, max)
        invariant Concat(outgoing) == Concat(old(outgoing)) + data[..offset]
        invariant maxMessage > 0 ==> forall i :: |old(outgoing)| <= i < |outgoing| ==> |outgoing[i]| <= maxMessage
      {
        var chunk := if |data| - offset < max then |data| - offset else max;
        if room == 0 {
          return false;
        }
        Append(data[offset..offset + chunk]);
        assert data[..offset] + data[offset..offset + chunk] == data[..offset + chunk];
        offset := offset + chunk;
      }
      assert data[..|data|] == data;
      return true;
    }

    /** One record goes out. */
    method Append(piece: seq<Byte>)
      requires room > 0
      modifies `outgoing, `room
      ensures outgoing == old(outgoing) + [piece] && room == old(room) - 1
      ensures Concat(outgoing) == Concat(old(outgoing)) + piece
    {
      ConcatAppend(outgoing, [piece]);
      ConcatOne(piece);
      outgoing := outgoing + [piece];
      room := room - 1;
    }

    method SendMessage(payload: seq<Byte>) returns (ok: bool)
      modifies `outgoing, `room
      ensures ok ==> handshakeDone && Concat(outgoing) == Concat(old(outgoing)) + Frame(payload)
      ensures !ok ==> Torn(Concat(old(outgoing)), Concat(outgoing), Frame(payload))
      ensures old(outgoing) <= outgoing
      ensures handshakeDone && old(room) >= Pieces(4, Largest(4)) + Pieces(|payload|, Largest(|payload|)) ==> ok
    {
      var len := |payload| % 0x1_0000_0000;
      ghost var before, frame := Concat(outgoing), Frame(payload);
      TruncatedLength(|payload|);
      ok := SendRaw(ToBytes(len, 4));
      if !ok {
        TornHeader(before, Concat(outgoing), payload);
        return;
      }
      if payload == [] {
        assert frame == ToBytes(0, 4) + [];
        return;
      }
      ghost var middle := Concat(outgoing);
      ok := SendRaw(payload);
      if ok {
        assert before + ToBytes(len, 4) + payload == before + frame;
      } else {
        TornPayload(before, middle, Concat(outgoing), payload);
      }
    }

    /** Opens one record; fails when it cannot be opened or the peer has closed the connection. */
    method DecryptOneRecord() returns (ok: bool)
      modifies `plaintextBuf, `incoming
      ensures ok == (old(incoming) != [] && old(incoming)[0].Sealed?) && Stream() == old(Stream())
      ensures if ok then incoming == old(incoming)[1..] else incoming == old(incoming) && plaintextBuf == old(plaintextBuf)
    {
      if incoming == [] || incoming[0].Broken? {
        return false;
      }
      var record := incoming[0].plaintext;
      if |record| > 0 {
        plaintextBuf := plaintextBuf + record;
      }
      incoming := incoming[1..];
      return true;
    }

    /** Exactly `n` bytes, whatever the record boundaries; the remainder stays buffered. */
    method RecvExact(n: nat) returns (ok: bool, out: seq<Byte>)
      modifies `plaintextBuf, `incoming
      ensures ok == (|old(Stream())| >= n)
      ensures ok ==> out == old(Stream())[..n] && Stream() == old(Stream())[n..]
      ensures !ok ==> Stream() == old(Stream())
    {
      out := [];
      while |plaintextBuf| < n
        invariant Stream() == old(Stream())
        decreases |incoming|
      {
        var more := DecryptOneRecord();
        if !more {
          return false, out;
        }
      }
      assert Stream() == plaintextBuf[..n] + (plaintextBuf[n..] + Readable(incoming));
      out := plaintextBuf[..n];
      plaintextBuf := plaintextBuf[n..];
      return true, out;
    }

    method RecvMessage() returns (ok: bool, payload: seq<Byte>)
      modifies `plaintextBuf, `incoming
      ensures match TakeMessage(old(Stream()))
              case Received(p, rest) => ok && payload == p && Stream() == rest
              case Failed(rest) => !ok && Stream() == rest
    {
      payload := [];
      var header;
      ok, header := RecvExact(4);
      if !ok {
        return;
      }
      var len := FromBytes(header);
      if len > 64 * 1024 * 1024 {
        return false, payload;
      }
      ok, payload := RecvExact(len);
    }
  }

  lemma TornHeader(before: seq<Byte>, after: seq<Byte>, payload: seq<Byte>)
    requires after == before || Torn(before, after, ToBytes(|payload|, 4))
    ensures Torn(before, after, Frame(payload))
  {
    var frame := Frame(payload);
    if after == before {
      assert after == before + frame[..0];
    } else {
      var k: nat :| k < 4 && after == before + ToBytes(|payload|, 4)[..k];
      assert ToBytes(|payload|, 4)[..k] == frame[..k];
    }
  }

  lemma TornPayload(before: seq<Byte>, middle: seq<Byte>, after: seq<Byte>, payload: seq<Byte>)
    requires middle == before + ToBytes(|payload|, 4) && Torn(middle, after, payload)
    ensures Torn(before, after, Frame(payload))
  {
    hide ToBytes;
    var k: nat :| k < |payload| && after == middle + payload[..k];
    assert Frame(payload)[..4 + k] == ToBytes(|payload|, 4) + payload[..k];
    assert after == before + Frame(payload)[..4 + k];
  }

  lemma TruncatedLength(x: nat)
    ensures ToBytes(x % 0x1_0000_0000, 4) == ToBytes(x, 4)
  {
    FourBytes();
    NumberRoundTrip(x, 4);
    NumberRoundTrip(x % 0x1_0000_0000, 4);
    BytesRoundTrip(ToBytes(x, 4));
    BytesRoundTrip(ToBytes(x % 0x1_0000_0000, 4));
  }

  // ------------------------------------------------------ requests end to end

  function EncodeAll(requests: seq<Request>): seq<seq<Byte>> {
    seq(|requests|, i requires 0 <= i < |requests| => Encode(requests[i]))
  }

  function DecodeAll(payloads: seq<seq<Byte>>): seq<Option<Request>> {
    seq(|payloads|, i requires 0 <= i < |payloads| => Decode(payloads[i]))
  }

  /**
    Requests that are packed, framed and then cut into records anywhere are received and decoded to the
    same requests, and the bytes after them are kept.
   */
  lemma RequestsRoundTrip(requests: seq<Request>, records: seq<seq<Byte>>, rest: seq<Byte>)
    requires forall i :: 0 <= i < |requests| ==> Valid(requests[i]) && |Encode(requests[i])| <= LIMIT
    requires Concat(records) == Frames(EncodeAll(requests)) + rest
    ensures var (payloads, left) := TakeMessages(Concat(records), |requests|);
            && left == rest && |payloads| == |requests|
            && forall i :: 0 <= i < |requests| ==> DecodeAll(payloads)[i] == Some(requests[i])
  {
    hide Valid, Encode, Decode, Frames, TakeMessages;
    FramesRoundTrip(EncodeAll(requests), rest);
    forall i | 0 <= i < |requests| ensures Decode(Encode(requests[i])) == Some(requests[i]) {
      DecodeEncode(requests[i]);
    }
  }
}
