/**
  AppendEntries from the leader's state to the follower's handler: what `replicate_to_peer` builds is what
  `dispatch_request` reads, after packing, framing and any split into records.
 */
module RaftWire {
  import opened Bytes
  import opened Wire
  import opened Framing
  import RaftSpec

  function ToLogEntry(e: RaftSpec.Entry): LogEntry {
    var c := e.command;
    LogEntry(e.term, if e.noop then 1 else 0, c.ruleId, c.eventId, c.threshold, c.comparator, c.severity)
  }

  function FromLogEntry(e: LogEntry): RaftSpec.Entry {
    RaftSpec.Entry(e.term, e.noop != 0, RaftSpec.AddRule(e.ruleId, e.eventId, e.threshold, e.comparator, e.severity))
  }

  function ToRequest(leader: RaftSpec.NodeId, a: RaftSpec.AppendArgs): Request {
    AppendRequest(Header(a.term, leader, a.prevIndex, a.prevTerm, a.commit, |a.entries|),
                  seq(|a.entries|, i requires 0 <= i < |a.entries| => ToLogEntry(a.entries[i])))
  }

  /** What the handler is called with; `None` for a request it is not called for. */
  function FromRequest(r: Request): Option<RaftSpec.AppendArgs> {
    match r
    case VoteRequest(_) => None
    case AppendRequest(h, entries) =>
      Some(RaftSpec.AppendArgs(h.term, h.prevIndex, h.prevTerm, h.commit,
                               seq(|entries|, i requires 0 <= i < |entries| => FromLogEntry(entries[i]))))
  }

  lemma ArgsRoundTrip(leader: RaftSpec.NodeId, a: RaftSpec.AppendArgs)
    ensures FromRequest(ToRequest(leader, a)) == Some(a)
  {
    assert FromRequest(ToRequest(leader, a)).value.entries == a.entries;
  }

  /** A request with at most MAX_ENTRIES entries is far below the frame limit. */
  lemma BuiltFits(s: RaftSpec.Node, leader: RaftSpec.NodeId, peer: RaftSpec.NodeId, commit: nat)
    requires peer in s.next && s.next[peer] > 0
    ensures var r := ToRequest(leader, RaftSpec.BuildAppend(s, peer, commit));
            |Encode(r)| == 1 + HEADER_SIZE + |r.entries| * ENTRY_SIZE <= LIMIT
  {
    hide PackHeader, PackEntries;
  }

  /** One call of `replicate_to_peer`: who leads, in which state, to whom and with which commit snapshot. */
  datatype Call = Call(leader: RaftSpec.NodeId, s: RaftSpec.Node, peer: RaftSpec.NodeId, commit: nat)

  ghost predicate Ready(c: Call) {
    && c.peer in c.s.next && c.s.next[c.peer] > 0
    && Valid(ToRequest(c.leader, RaftSpec.BuildAppend(c.s, c.peer, c.commit)))
  }

  function Built(c: Call): RaftSpec.AppendArgs
    requires c.peer in c.s.next && c.s.next[c.peer] > 0
  {
    RaftSpec.BuildAppend(c.s, c.peer, c.commit)
  }

  ghost function Requests(calls: seq<Call>): seq<Request>
    requires forall i :: 0 <= i < |calls| ==> Ready(calls[i])
  {
    seq(|calls|, i requires 0 <= i < |calls| && Ready(calls[i]) => ToRequest(calls[i].leader, Built(calls[i])))
  }

  /** Whatever the record boundaries, the handler sees the calls' arguments, in order. */
  lemma CallsRoundTrip(calls: seq<Call>, records: seq<seq<Byte>>, rest: seq<Byte>)
    requires forall i :: 0 <= i < |calls| ==> Ready(calls[i])
    requires Concat(records) == Frames(EncodeAll(Requests(calls))) + rest
    ensures var (payloads, left) := TakeMessages(Concat(records), |calls|);
            && left == rest && |payloads| == |calls|
            && forall i :: 0 <= i < |calls| ==>
                 && Decode(payloads[i]).Some?
                 && FromRequest(Decode(payloads[i]).value) == Some(Built(calls[i]))
  {
    hide Decode, Frames, TakeMessages, RaftSpec.BuildAppend, ToRequest, FromRequest;
    var requests := Requests(calls);
    forall i | 0 <= i < |calls| ensures Valid(requests[i]) && |Encode(requests[i])| <= LIMIT {
      BuiltFits(calls[i].s, calls[i].leader, calls[i].peer, calls[i].commit);
    }
    hide Valid, Encode;
    RequestsRoundTrip(requests, records, rest);
    var payloads := TakeMessages(Concat(records), |calls|).0;
    forall i | 0 <= i < |calls|
      ensures Decode(payloads[i]).Some? && FromRequest(Decode(payloads[i]).value) == Some(Built(calls[i]))
    {
      assert DecodeAll(payloads)[i] == Some(requests[i]);
      ArgsRoundTrip(calls[i].leader, Built(calls[i]));
    }
  }

  /** The bytes of one log entry, field by field. */
  lemma EntryOnWire(e: RaftSpec.Entry)
    ensures var bs, c := PackEntry(ToLogEntry(e)), e.command;
            && HasAt(bs, 0, e.term, 8) && HasAt(bs, 8, if e.noop then 1 else 0, 1)
            && HasAt(bs, 9, c.ruleId, 4) && HasAt(bs, 13, c.eventId, 4) && HasAt(bs, 17, c.threshold, 8)
            && HasAt(bs, 25, c.comparator, 1) && HasAt(bs, 26, c.severity, 4)
  {
    hide HasAt, PackEntry;
    EntryLayout(ToLogEntry(e));
  }

  /** The bytes of one AppendEntries request: type, header fields, then the entries at intervals of ENTRY_SIZE. */
  lemma RequestOnWire(leader: RaftSpec.NodeId, a: RaftSpec.AppendArgs, i: nat)
    ensures var bs := Encode(ToRequest(leader, a));
            |bs| == 1 + HEADER_SIZE + |a.entries| * ENTRY_SIZE && bs[0] == APPEND_REQUEST
    ensures var header := Encode(ToRequest(leader, a))[1..1 + HEADER_SIZE];
            && HasAt(header, 0, a.term, 8) && HasAt(header, 8, leader, 4) && HasAt(header, 12, a.prevIndex, 8)
            && HasAt(header, 20, a.prevTerm, 8) && HasAt(header, 28, a.commit, 8) && HasAt(header, 36, |a.entries|, 4)
    ensures var bs, at := Encode(ToRequest(leader, a)), 1 + HEADER_SIZE + i * ENTRY_SIZE;
            i < |a.entries| ==> bs[at..at + ENTRY_SIZE] == PackEntry(ToLogEntry(a.entries[i]))
  {
    hide HasAt, PackEntry, PackHeader, PackEntries;
    var r := ToRequest(leader, a);
    var bs := Encode(r);
    assert bs[1..1 + HEADER_SIZE] == PackHeader(r.header);
    HeaderLayout(r.header);
    if i < |a.entries| {
      EntryPlace(r.entries, i);
      var at, entries := i * ENTRY_SIZE, PackEntries(r.entries);
      assert bs[1 + HEADER_SIZE..] == entries;
      assert bs[1 + HEADER_SIZE + at..1 + HEADER_SIZE + at + ENTRY_SIZE] == entries[at..at + ENTRY_SIZE];
    }
  }
}
