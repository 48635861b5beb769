/**
  The AppendEntries and RequestVote requests on the wire (AnimusCore_v1/animus_cluster.hpp:117-160,349-374).
 */
module Wire {
  import opened Bytes

  // ------------------------------------------------------------- requests

  datatype Header = Header(term: nat, leaderId: nat, prevIndex: nat, prevTerm: nat, commit: nat, count: nat)
  datatype LogEntry = LogEntry(term: nat, noop: nat, ruleId: nat, eventId: nat, threshold: nat, comparator: nat, severity: nat)
  datatype Vote = Vote(term: nat, candidateId: nat, lastIndex: nat, lastTerm: nat)

  const VOTE_REQUEST: Byte := 1
  const APPEND_REQUEST: Byte := 3

  const HEADER_WIDTHS := [8, 4, 8, 8, 8, 4]
  const ENTRY_WIDTHS := [8, 1, 4, 4, 8, 1, 4]
  const VOTE_WIDTHS := [8, 4, 8, 8]

  const HEADER_SIZE: nat := 40
  const ENTRY_SIZE: nat := 30
  const VOTE_SIZE: nat := 28

  lemma Sizes()
    ensures Total(HEADER_WIDTHS) == HEADER_SIZE && Total(ENTRY_WIDTHS) == ENTRY_SIZE && Total(VOTE_WIDTHS) == VOTE_SIZE
  {
    assert Total([8, 4]) == 12 && Total([8, 8, 4]) == 20 && Total([8, 8, 8, 4]) == 28;
    assert Total([1, 4]) == 5 && Total([8, 1, 4]) == 13 && Total([4, 8, 1, 4]) == 17 && Total([4, 4, 8, 1, 4]) == 21;
    assert HEADER_WIDTHS[1..] == [4, 8, 8, 8, 4] && HEADER_WIDTHS[1..][1..] == [8, 8, 8, 4];
    assert ENTRY_WIDTHS[1..] == [1, 4, 4, 8, 1, 4] && ENTRY_WIDTHS[1..][1..] == [4, 4, 8, 1, 4];
    assert VOTE_WIDTHS[1..] == [4, 8, 8] && VOTE_WIDTHS[1..][1..] == [8, 8];
  }

  function HeaderFields(h: Header): seq<nat> { [h.term, h.leaderId, h.prevIndex, h.prevTerm, h.commit, h.count] }
  function EntryFields(e: LogEntry): seq<nat> {
    [e.term, e.noop, e.ruleId, e.eventId, e.threshold, e.comparator, e.severity]
  }
  function VoteFields(v: Vote): seq<nat> { [v.term, v.candidateId, v.lastIndex, v.lastTerm] }

  function HeaderOf(f: seq<nat>): Header requires |f| == 6 { Header(f[0], f[1], f[2], f[3], f[4], f[5]) }
  function EntryOf(f: seq<nat>): LogEntry requires |f| == 7 { LogEntry(f[0], f[1], f[2], f[3], f[4], f[5], f[6]) }
  function VoteOf(f: seq<nat>): Vote requires |f| == 4 { Vote(f[0], f[1], f[2], f[3]) }

  datatype Request = VoteRequest(vote: Vote) | AppendRequest(header: Header, entries: seq<LogEntry>)
  datatype Option<T> = None | Some(value: T)

  function PackHeader(h: Header): (bs: seq<Byte>)
    ensures |bs| == HEADER_SIZE
  {
    Sizes();
    Pack(HEADER_WIDTHS, HeaderFields(h))
  }

  function PackEntry(e: LogEntry): (bs: seq<Byte>)
    ensures |bs| == ENTRY_SIZE
  {
    Sizes();
    Pack(ENTRY_WIDTHS, EntryFields(e))
  }

  function PackVote(v: Vote): (bs: seq<Byte>)
    ensures |bs| == VOTE_SIZE
  {
    Sizes();
    Pack(VOTE_WIDTHS, VoteFields(v))
  }

  function PackEntries(entries: seq<LogEntry>): (bs: seq<Byte>)
    ensures |bs| == |entries| * ENTRY_SIZE
    decreases |entries|
  {
    if entries == [] then [] else PackEntry(entries[0]) + PackEntries(entries[1..])
  }

  /** `wire::pack` and `wire::pack_append_entries`. */
  function Encode(r: Request): seq<Byte> {
    match r
    case VoteRequest(v) => [VOTE_REQUEST] + PackVote(v)
    case AppendRequest(h, entries) => [APPEND_REQUEST] + PackHeader(h) + PackEntries(entries)
  }

  function UnpackHeader(bs: seq<Byte>): Header
    requires |bs| == HEADER_SIZE
  {
    Sizes();
    HeaderOf(Unpack(HEADER_WIDTHS, bs))
  }

  function UnpackEntry(bs: seq<Byte>): LogEntry
    requires |bs| == ENTRY_SIZE
  {
    Sizes();
    EntryOf(Unpack(ENTRY_WIDTHS, bs))
  }

  function UnpackVote(bs: seq<Byte>): Vote
    requires |bs| == VOTE_SIZE
  {
    Sizes();
    VoteOf(Unpack(VOTE_WIDTHS, bs))
  }

  function UnpackEntries(bs: seq<Byte>, count: nat): (entries: seq<LogEntry>)
    requires |bs| == count * ENTRY_SIZE
    ensures |entries| == count
    decreases count
  {
    if count == 0 then [] else [UnpackEntry(bs[..ENTRY_SIZE])] + UnpackEntries(bs[ENTRY_SIZE..], count - 1)
  }

  /** How `dispatch_request` reads a request; `None` is the empty response that closes the connection. */
  function Decode(bs: seq<Byte>): Option<Request> {
    if bs == [] then None
    else if bs[0] == VOTE_REQUEST && |bs| == 1 + VOTE_SIZE then Some(VoteRequest(UnpackVote(bs[1..])))
    else if bs[0] == APPEND_REQUEST && |bs| >= 1 + HEADER_SIZE then
      var h := UnpackHeader(bs[1..1 + HEADER_SIZE]);
      if |bs| != 1 + HEADER_SIZE + h.count * ENTRY_SIZE then None
      else Some(AppendRequest(h, UnpackEntries(bs[1 + HEADER_SIZE..], h.count)))
    else None
  }

  ghost predicate EntriesFit(entries: seq<LogEntry>) {
    forall i :: 0 <= i < |entries| ==> Fit(ENTRY_WIDTHS, EntryFields(entries[i]))
  }

  /** Every field fits its width, and the header counts the entries. */
  ghost predicate Valid(r: Request) {
    match r
    case VoteRequest(v) => Fit(VOTE_WIDTHS, VoteFields(v))
    case AppendRequest(h, entries) => Fit(HEADER_WIDTHS, HeaderFields(h)) && h.count == |entries| && EntriesFit(entries)
  }

  lemma HeaderCodec(h: Header, bs: seq<Byte>)
    ensures Fit(HEADER_WIDTHS, HeaderFields(h)) ==> UnpackHeader(PackHeader(h)) == h
    ensures |bs| == HEADER_SIZE ==> Fit(HEADER_WIDTHS, HeaderFields(UnpackHeader(bs))) && PackHeader(UnpackHeader(bs)) == bs
  {
    Sizes();
    hide Pack, Unpack, Total;
    if Fit(HEADER_WIDTHS, HeaderFields(h)) { UnpackPack(HEADER_WIDTHS, HeaderFields(h)); }
    if |bs| == HEADER_SIZE {
      PackUnpack(HEADER_WIDTHS, bs);
      assert HeaderFields(UnpackHeader(bs)) == Unpack(HEADER_WIDTHS, bs);
    }
  }

  lemma EntryCodec(e: LogEntry, bs: seq<Byte>)
    ensures Fit(ENTRY_WIDTHS, EntryFields(e)) ==> UnpackEntry(PackEntry(e)) == e
    ensures |bs| == ENTRY_SIZE ==> Fit(ENTRY_WIDTHS, EntryFields(UnpackEntry(bs))) && PackEntry(UnpackEntry(bs)) == bs
  {
    Sizes();
    hide Pack, Unpack, Total;
    if Fit(ENTRY_WIDTHS, EntryFields(e)) { UnpackPack(ENTRY_WIDTHS, EntryFields(e)); }
    if |bs| == ENTRY_SIZE {
      PackUnpack(ENTRY_WIDTHS, bs);
      assert EntryFields(UnpackEntry(bs)) == Unpack(ENTRY_WIDTHS, bs);
    }
  }

  lemma VoteCodec(v: Vote, bs: seq<Byte>)
    ensures Fit(VOTE_WIDTHS, VoteFields(v)) ==> UnpackVote(PackVote(v)) == v
    ensures |bs| == VOTE_SIZE ==> Fit(VOTE_WIDTHS, VoteFields(UnpackVote(bs))) && PackVote(UnpackVote(bs)) == bs
  {
    Sizes();
    hide Pack, Unpack, Total;
    if Fit(VOTE_WIDTHS, VoteFields(v)) { UnpackPack(VOTE_WIDTHS, VoteFields(v)); }
    if |bs| == VOTE_SIZE {
      PackUnpack(VOTE_WIDTHS, bs);
      assert VoteFields(UnpackVote(bs)) == Unpack(VOTE_WIDTHS, bs);
    }
  }

  lemma {:induction false} EntriesRoundTrip(entries: seq<LogEntry>)
    requires EntriesFit(entries)
    ensures UnpackEntries(PackEntries(entries), |entries|) == entries
    decreases |entries|
  {
    hide PackEntry, UnpackEntry, Fit;
    if entries != [] {
      var bs := PackEntries(entries);
      EntryCodec(entries[0], []);
      EntriesRoundTrip(entries[1..]);
      assert bs[..ENTRY_SIZE] == PackEntry(entries[0]) && bs[ENTRY_SIZE..] == PackEntries(entries[1..]);
    }
  }

  lemma {:induction false} EntriesRepack(bs: seq<Byte>, count: nat)
    requires |bs| == count * ENTRY_SIZE
    ensures EntriesFit(UnpackEntries(bs, count)) && PackEntries(UnpackEntries(bs, count)) == bs
    decreases count
  {
    hide PackEntry, UnpackEntry, Fit;
    if count > 0 {
      EntryCodec(LogEntry(0, 0, 0, 0, 0, 0, 0), bs[..ENTRY_SIZE]);
      EntriesRepack(bs[ENTRY_SIZE..], count - 1);
      assert UnpackEntries(bs, count)[1..] == UnpackEntries(bs[ENTRY_SIZE..], count - 1);
      assert bs == bs[..ENTRY_SIZE] + bs[ENTRY_SIZE..];
    }
  }

  /** A request survives the wire. */
  lemma DecodeEncode(r: Request)
    requires Valid(r)
    ensures Decode(Encode(r)) == Some(r)
  {
    hide PackVote, UnpackVote, PackHeader, UnpackHeader, PackEntries, UnpackEntries, Fit;
    var bs := Encode(r);
    match r {
      case VoteRequest(v) =>
        VoteCodec(v, []);
        assert bs[1..] == PackVote(v);
      case AppendRequest(h, entries) =>
        HeaderCodec(h, []);
        EntriesRoundTrip(entries);
        assert bs[1..1 + HEADER_SIZE] == PackHeader(h) && bs[1 + HEADER_SIZE..] == PackEntries(entries);
    }
  }

  /** Nothing else is accepted: what decodes is the encoding of what it decodes to. */
  lemma EncodeDecode(bs: seq<Byte>)
    requires Decode(bs).Some?
    ensures Valid(Decode(bs).value) && Encode(Decode(bs).value) == bs
  {
    hide PackVote, UnpackVote, PackHeader, UnpackHeader, PackEntries, UnpackEntries, Fit;
    if bs[0] == VOTE_REQUEST && |bs| == 1 + VOTE_SIZE {
      VoteCodec(Vote(0, 0, 0, 0), bs[1..]);
    } else {
      HeaderCodec(Header(0, 0, 0, 0, 0, 0), bs[1..1 + HEADER_SIZE]);
      EntriesRepack(bs[1 + HEADER_SIZE..], Decode(bs).value.header.count);
      assert bs == [bs[0]] + bs[1..1 + HEADER_SIZE] + bs[1 + HEADER_SIZE..];
    }
  }

  // ---------------------------------------------------------------- layout

  /** `n` bytes at offset `at` hold `x`. */
  predicate HasAt(bs: seq<Byte>, at: nat, x: nat, n: nat) {
    at + n <= |bs| && bs[at..at + n] == ToBytes(x, n)
  }

  lemma HeaderField(h: Header, i: nat)
    requires i < 6
    ensures HasAt(PackHeader(h), Total(HEADER_WIDTHS[..i]), HeaderFields(h)[i], HEADER_WIDTHS[i])
  {
    Sizes();
    FieldAt(HEADER_WIDTHS, HeaderFields(h), i);
    hide Pack, Total, ToBytes;
  }

  lemma EntryField(e: LogEntry, i: nat)
    requires i < 7
    ensures HasAt(PackEntry(e), Total(ENTRY_WIDTHS[..i]), EntryFields(e)[i], ENTRY_WIDTHS[i])
  {
    Sizes();
    FieldAt(ENTRY_WIDTHS, EntryFields(e), i);
    hide Pack, Total, ToBytes;
  }

  lemma VoteField(v: Vote, i: nat)
    requires i < 4
    ensures HasAt(PackVote(v), Total(VOTE_WIDTHS[..i]), VoteFields(v)[i], VOTE_WIDTHS[i])
  {
    Sizes();
    FieldAt(VOTE_WIDTHS, VoteFields(v), i);
    hide Pack, Total, ToBytes;
  }

  lemma {:induction false} Offsets(widths: seq<nat>, i: nat)
    requires i < |widths|
    ensures forall k :: 0 <= k <= i ==> Total(widths[..k + 1]) == Total(widths[..k]) + widths[k]
    ensures Total(widths[..0]) == 0
    decreases i
  {
    hide Total;
    TotalOneMore(widths, i);
    if i > 0 { Offsets(widths, i - 1); } else { EmptyTotal(widths); }
  }

  lemma EmptyTotal(widths: seq<nat>)
    ensures Total(widths[..0]) == 0
  {
    assert widths[..0] == [];
  }

  /** Where each field of the packed header lies. */
  lemma HeaderLayout(h: Header)
    ensures var bs := PackHeader(h);
            && HasAt(bs, 0, h.term, 8) && HasAt(bs, 8, h.leaderId, 4) && HasAt(bs, 12, h.prevIndex, 8)
            && HasAt(bs, 20, h.prevTerm, 8) && HasAt(bs, 28, h.commit, 8) && HasAt(bs, 36, h.count, 4)
  {
    hide PackHeader, Total, HasAt;
    Offsets(HEADER_WIDTHS, 5);
    var w := HEADER_WIDTHS;
    assert Total(w[..1]) == 8 && Total(w[..2]) == 12 && Total(w[..3]) == 20 && Total(w[..4]) == 28 && Total(w[..5]) == 36;
    HeaderField(h, 0);
    HeaderField(h, 1);
    HeaderField(h, 2);
    HeaderField(h, 3);
    HeaderField(h, 4);
    HeaderField(h, 5);
  }

  /** Where each field of a packed log entry lies. */
  lemma EntryLayout(e: LogEntry)
    ensures var bs := PackEntry(e);
            && HasAt(bs, 0, e.term, 8) && HasAt(bs, 8, e.noop, 1) && HasAt(bs, 9, e.ruleId, 4) && HasAt(bs, 13, e.eventId, 4)
            && HasAt(bs, 17, e.threshold, 8) && HasAt(bs, 25, e.comparator, 1) && HasAt(bs, 26, e.severity, 4)
  {
    hide PackEntry, Total, HasAt;
    Offsets(ENTRY_WIDTHS, 6);
    var w := ENTRY_WIDTHS;
    assert Total(w[..1]) == 8 && Total(w[..2]) == 9 && Total(w[..3]) == 13 && Total(w[..4]) == 17;
    assert Total(w[..5]) == 25 && Total(w[..6]) == 26;
    EntryField(e, 0);
    EntryField(e, 1);
    EntryField(e, 2);
    EntryField(e, 3);
    EntryField(e, 4);
    EntryField(e, 5);
    EntryField(e, 6);
  }

  /** Where each field of a packed vote request lies. */
  lemma VoteLayout(v: Vote)
    ensures var bs := PackVote(v);
            HasAt(bs, 0, v.term, 8) && HasAt(bs, 8, v.candidateId, 4) && HasAt(bs, 12, v.lastIndex, 8) && HasAt(bs, 20, v.lastTerm, 8)
  {
    hide PackVote, Total, HasAt;
    Offsets(VOTE_WIDTHS, 3);
    var w := VOTE_WIDTHS;
    assert Total(w[..1]) == 8 && Total(w[..2]) == 12 && Total(w[..3]) == 20;
    VoteField(v, 0);
    VoteField(v, 1);
    VoteField(v, 2);
    VoteField(v, 3);
  }

  /** The entries follow one another without gaps. */
  lemma {:induction false} EntryPlace(entries: seq<LogEntry>, i: nat)
    requires i < |entries|
    ensures var at := i * ENTRY_SIZE; PackEntries(entries)[at..at + ENTRY_SIZE] == PackEntry(entries[i])
    decreases i
  {
    hide PackEntry;
    var bs := PackEntries(entries);
    if i == 0 {
      assert bs[..ENTRY_SIZE] == PackEntry(entries[0]);
    } else {
      EntryPlace(entries[1..], i - 1);
      assert bs[ENTRY_SIZE..] == PackEntries(entries[1..]);
      var at := (i - 1) * ENTRY_SIZE;
      assert bs[ENTRY_SIZE + at..ENTRY_SIZE + at + ENTRY_SIZE] == bs[ENTRY_SIZE..][at..at + ENTRY_SIZE];
    }
  }
}
