/** The records of the observation log (src/addrlog.rs) and the text each is written as. */
module ObservationRecords {
  import opened Base
  import opened Network
  import opened NodeStore
  import opened Text
  import opened AddrMessages
  import opened ObservationCsv

  /** What the log keeps of a peer's version message; the user agent is any text the peer chose. */
  datatype Peer = Peer(version: int, services: nat, userAgent: string, latestBlock: int, relay: bool)

  datatype Record =
    | Block(id: nat, responder: AddrKey, network: NetworkType, receivedAt: int, messageType: string,
            message: ParsedAddrMessage, peer: Peer)
    | RequestOutcome(id: nat, responder: AddrKey, outcome: CollectionOutcome)
    | MalformedResponse(id: nat, responder: AddrKey, messageType: string, error: string, payloadHash: string)

  const NEW_NODE := "===NEW NODE==="
  const REQUEST_OUTCOME := "===REQUEST OUTCOME==="
  const MALFORMED_RESPONSE := "===MALFORMED RESPONSE==="

  function NetworkName(n: NetworkType): string {
    match n
    case Ipv4 => "ipv4"
    case Ipv6 => "ipv6"
    case Cjdns => "cjdns"
    case OnionV2 => "onion_v2"
    case OnionV3 => "onion_v3"
    case I2p => "i2p"
    case Unknown => "unknown"
  }

  function OutcomeName(o: CollectionOutcome): string {
    match o
    case NotRequested => "not_requested"
    case CompleteQuiet => "complete_quiet"
    case NoResponseTimeout => "no_response_timeout"
    case PartialHardTimeout => "partial_hard_timeout"
    case HardTimeout => "hard_timeout"
    case SendFailed => "send_failed"
    case MalformedResponse => "malformed_response"
    case PartialMalformedResponse => "partial_malformed_response"
    case RemoteDisconnect => "remote_disconnect"
    case PartialRemoteDisconnect => "partial_remote_disconnect"
    case IncompleteEnvelopeTimeout => "incomplete_envelope_timeout"
    case PartialIncompleteEnvelopeTimeout => "partial_incomplete_envelope_timeout"
    case LogFailed => "log_failed"
  }

  function Flag(b: bool): string { if b then "true" else "false" }

  lemma NetworkNamesDiffer(a: NetworkType, b: NetworkType)
    requires NetworkName(a) == NetworkName(b)
    ensures a == b
  {
    assert |NetworkName(a)| == |NetworkName(b)| && NetworkName(a)[0] == NetworkName(b)[0];
    if a.OnionV2? {
      assert NetworkName(a)[7] == NetworkName(b)[7];
    } else if a.OnionV3? {
      assert NetworkName(a)[7] == NetworkName(b)[7];
    } else if a.Ipv4? {
      assert NetworkName(a)[3] == NetworkName(b)[3];
    } else if a.Ipv6? {
      assert NetworkName(a)[3] == NetworkName(b)[3];
    }
  }

  /** All outcome names differ in length. */
  lemma OutcomeNamesDiffer(a: CollectionOutcome, b: CollectionOutcome)
    requires OutcomeName(a) == OutcomeName(b)
    ensures a == b
  {
    assert |OutcomeName(a)| == |OutcomeName(b)|;
  }

  // ---- rows ------------------------------------------------------------------------------------------------

  function NodeFields(id: nat, responder: AddrKey, network: NetworkType, receivedAt: int, messageType: string,
                      message: ParsedAddrMessage, peer: Peer): seq<string>
  {
    [Decimal(id), responder.host, Decimal(responder.port), NetworkName(network), SignedDecimal(receivedAt), messageType,
     "complete", Decimal(message.declaredCount), Decimal(|message.addrs|), Decimal(message.unknownEntries),
     SignedDecimal(peer.version), Decimal(peer.services), peer.userAgent, SignedDecimal(peer.latestBlock),
     Flag(peer.relay)]
  }

  function AddrFields(id: nat, a: AdvertisedAddr): (fields: seq<string>)
    ensures |fields| == 7
  {
    [Decimal(id), a.host, Decimal(a.port), NetworkName(a.network), Decimal(a.timestamp), Decimal(a.services),
     Decimal(a.wireNetworkId as nat)]
  }

  function Marker(r: Record): string {
    match r
    case Block(_, _, _, _, _, _, _) => NEW_NODE
    case RequestOutcome(_, _, _) => REQUEST_OUTCOME
    case MalformedResponse(_, _, _, _, _) => MALFORMED_RESPONSE
  }

  /** What follows the marker on a record's first line. */
  function HeadFields(r: Record): (fields: seq<string>)
    ensures |fields| >= 4
  {
    match r
    case Block(id, responder, network, receivedAt, messageType, message, peer) =>
      NodeFields(id, responder, network, receivedAt, messageType, message, peer)
    case RequestOutcome(id, responder, outcome) =>
      [Decimal(id), responder.host, Decimal(responder.port), OutcomeName(outcome)]
    case MalformedResponse(id, responder, messageType, error, payloadHash) =>
      [Decimal(id), responder.host, Decimal(responder.port), messageType, "malformed", error, payloadHash]
  }

  function Addresses(r: Record): seq<AdvertisedAddr> { if r.Block? then r.message.addrs else [] }

  function AddrRows(id: nat, addrs: seq<AdvertisedAddr>): (rows: seq<seq<string>>)
    ensures |rows| == |addrs| && forall i :: 0 <= i < |rows| ==> rows[i] == AddrFields(id, addrs[i])
  { seq(|addrs|, i requires 0 <= i < |addrs| => AddrFields(id, addrs[i])) }

  /** The table a record is: one row for its head, one for each address. */
  function RowsOf(r: Record): seq<seq<string>> { [[Marker(r)] + HeadFields(r)] + AddrRows(r.id, Addresses(r)) }

  function Rows(records: seq<Record>): seq<seq<string>> {
    if records == [] then [] else RowsOf(records[0]) + Rows(records[1..])
  }

  // ---- text ---------------------------------------------------------------------------------------------------

  function AddrLines(id: nat, addrs: seq<AdvertisedAddr>): string {
    if addrs == [] then ""
    else AddrLines(id, addrs[..|addrs| - 1]) + Line(AddrFields(id, addrs[|addrs| - 1]))
  }

  /** The bytes appended for one record. */
  function Written(r: Record): string { Marker(r) + "," + Line(HeadFields(r)) + AddrLines(r.id, Addresses(r)) }

  method WriteRecord(r: Record) returns (buf: string)
    ensures buf == Written(r)
  {
    hide Line, CsvFields, HeadFields, AddrFields;
    buf := Marker(r) + ",";
    buf := PushLine(buf, HeadFields(r));
    ghost var head := buf;
    var addrs := Addresses(r);
    for i := 0 to |addrs|
      invariant buf == head + AddrLines(r.id, addrs[..i])
    {
      assert addrs[..i + 1][..i] == addrs[..i];
      Assoc(head, AddrLines(r.id, addrs[..i]), Line(AddrFields(r.id, addrs[i])));
      buf := PushLine(buf, AddrFields(r.id, addrs[i]));
    }
    assert addrs[..|addrs|] == addrs;
  }

  method PushLine(out: string, fields: seq<string>) returns (r: string)
    ensures r == out + Line(fields)
  {
    r := PushCsvFields(out, fields);
    Assoc(out, CsvFields(fields), "\n");
    r := r + "\n";
  }

  /** Everything written for a sequence of records. */
  function LogText(records: seq<Record>): string {
    if records == [] then "" else Written(records[0]) + LogText(records[1..])
  }

  // ---- the text is the rows -----------------------------------------------------------------------------------

  predicate Plain(s: string) { forall i :: 0 <= i < |s| ==> s[i] == ' ' || s[i] == '=' || 'A' <= s[i] <= 'Z' }

  lemma PlainUnquoted(s: string)
    requires Plain(s)
    ensures CsvField(s) == s
  {}

  lemma MarkerPlain(r: Record)
    ensures CsvField(Marker(r)) == Marker(r)
  {
    hide CsvField;
    assert Plain(NEW_NODE) && Plain(REQUEST_OUTCOME) && Plain(MALFORMED_RESPONSE);
    PlainUnquoted(Marker(r));
  }

  lemma {:induction false} AddrLinesAreLines(id: nat, addrs: seq<AdvertisedAddr>)
    ensures AddrLines(id, addrs) == Lines(AddrRows(id, addrs))
  {
    hide AddrFields, Line;
    if addrs != [] {
      var n := |addrs| - 1;
      AddrLinesAreLines(id, addrs[..n]);
      assert AddrRows(id, addrs) == AddrRows(id, addrs[..n]) + [AddrFields(id, addrs[n])];
      LinesConcat(AddrRows(id, addrs[..n]), [AddrFields(id, addrs[n])]);
      OneLine(AddrFields(id, addrs[n]));
    }
  }

  lemma OneLine(row: seq<string>)
    ensures Lines([row]) == Line(row)
  {
    hide Line;
    assert Lines([row]) == Line(row) + Lines([row][1..]);
    assert [row][1..] == [];
  }

  lemma TextIsLines(r: Record)
    ensures Written(r) == Lines(RowsOf(r)) && NoEmptyRow(RowsOf(r))
  {
    hide HeadFields, AddrFields, CsvFields, Marker, CsvField;
    var head := [Marker(r)] + HeadFields(r);
    MarkerPlain(r);
    FieldsCons(Marker(r), HeadFields(r));
    AddrLinesAreLines(r.id, Addresses(r));
    OneLine(head);
    LinesConcat([head], AddrRows(r.id, Addresses(r)));
    HeadLine(r, head);
  }

  lemma HeadLine(r: Record, head: seq<string>)
    requires CsvFields(head) == Marker(r) + "," + CsvFields(HeadFields(r))
    ensures Line(head) == Marker(r) + "," + Line(HeadFields(r))
  {
    hide HeadFields, CsvFields, Marker;
  }

  lemma {:induction false} LogIsLines(records: seq<Record>)
    ensures LogText(records) == Lines(Rows(records)) && NoEmptyRow(Rows(records))
  {
    hide RowsOf, Written, Line;
    if records != [] {
      TextIsLines(records[0]);
      LogIsLines(records[1..]);
      LinesConcat(RowsOf(records[0]), Rows(records[1..]));
    }
  }

  // ---- the rows are the records -----------------------------------------------------------------------------------

  lemma MarkersDiffer(a: Record, b: Record)
    requires Marker(a) == Marker(b)
    ensures (a.Block? <==> b.Block?) && (a.RequestOutcome? <==> b.RequestOutcome?)
  {
    assert Marker(a)[3] == Marker(b)[3];
  }

  lemma NodeFieldsTell(a: Record, b: Record)
    requires a.Block? && b.Block? && HeadFields(a) == HeadFields(b)
    ensures |a.message.addrs| == |b.message.addrs|
    ensures a.message.addrs == b.message.addrs ==> a == b
    ensures a.id == b.id
  {
    hide Decimal, SignedDecimal, NetworkName;
    var f, g := HeadFields(a), HeadFields(b);
    assert forall i :: 0 <= i < 15 ==> f[i] == g[i];
    DecimalInjective(a.id, b.id);
    DecimalInjective(a.responder.port, b.responder.port);
    NetworkNamesDiffer(a.network, b.network);
    SignedDecimalInjective(a.receivedAt, b.receivedAt);
    DecimalInjective(a.message.declaredCount, b.message.declaredCount);
    DecimalInjective(|a.message.addrs|, |b.message.addrs|);
    DecimalInjective(a.message.unknownEntries, b.message.unknownEntries);
    SignedDecimalInjective(a.peer.version, b.peer.version);
    DecimalInjective(a.peer.services, b.peer.services);
    SignedDecimalInjective(a.peer.latestBlock, b.peer.latestBlock);
    assert Flag(a.peer.relay)[0] == Flag(b.peer.relay)[0];
  }

  lemma OthersTell(a: Record, b: Record)
    requires !a.Block? && !b.Block? && Marker(a) == Marker(b) && HeadFields(a) == HeadFields(b)
    ensures a == b
  {
    hide Decimal, OutcomeName;
    MarkersDiffer(a, b);
    var f, g := HeadFields(a), HeadFields(b);
    assert forall i :: 0 <= i < |f| ==> f[i] == g[i];
    DecimalInjective(a.id, b.id);
    DecimalInjective(a.responder.port, b.responder.port);
    if a.RequestOutcome? {
      OutcomeNamesDiffer(a.outcome, b.outcome);
    }
  }

  lemma AddrFieldsTell(id: nat, a: AdvertisedAddr, b: AdvertisedAddr)
    requires AddrFields(id, a) == AddrFields(id, b)
    ensures a == b
  {
    hide Decimal, NetworkName;
    var f, g := AddrFields(id, a), AddrFields(id, b);
    assert forall i :: 0 <= i < 7 ==> f[i] == g[i];
    DecimalInjective(a.port, b.port);
    NetworkNamesDiffer(a.network, b.network);
    DecimalInjective(a.timestamp, b.timestamp);
    DecimalInjective(a.services, b.services);
    DecimalInjective(a.wireNetworkId as nat, b.wireNetworkId as nat);
  }

  /** A record's first row tells how many rows it has, and its rows tell the record. */
  lemma RowsTell(a: Record, b: Record)
    requires RowsOf(a)[0] == RowsOf(b)[0]
    ensures |RowsOf(a)| == |RowsOf(b)|
    ensures RowsOf(a) == RowsOf(b) ==> a == b
  {
    hide HeadFields, AddrFields, Marker;
    assert RowsOf(a)[0][0] == RowsOf(b)[0][0];
    assert RowsOf(a)[0][1..] == HeadFields(a) && RowsOf(b)[0][1..] == HeadFields(b);
    MarkersDiffer(a, b);
    if a.Block? {
      NodeFieldsTell(a, b);
      if RowsOf(a) == RowsOf(b) {
        forall i | 0 <= i < |a.message.addrs| ensures a.message.addrs[i] == b.message.addrs[i] {
          assert RowsOf(a)[i + 1] == RowsOf(b)[i + 1];
          AddrFieldsTell(a.id, a.message.addrs[i], b.message.addrs[i]);
        }
      }
    } else {
      OthersTell(a, b);
    }
  }

  lemma {:induction false} RowsPrefix(a: seq<Record>, b: seq<Record>)
    requires Rows(a) <= Rows(b)
    ensures a <= b
  {
    hide HeadFields, AddrRows, Marker;
    if a != [] {
      assert |RowsOf(a[0])| > 0;
      assert Rows(a)[0] == Rows(b)[0];
      RowsTell(a[0], b[0]);
      SamePieces(RowsOf(a[0]), Rows(a[1..]), RowsOf(b[0]), Rows(b[1..]));
      RowsPrefix(a[1..], b[1..]);
      assert a == [a[0]] + a[1..] && b == [b[0]] + b[1..];
    }
  }

  lemma SamePieces<T>(a: seq<T>, a': seq<T>, b: seq<T>, b': seq<T>)
    requires |a| == |b| && a + a' <= b + b'
    ensures a == b && a' <= b'
  {
    assert a == (a + a')[..|a|] && b == (b + b')[..|a|];
    assert a' == (a + a')[|a|..] && b' == (b + b')[|a|..];
  }

  lemma {:induction false} RowsConcat(a: seq<Record>, b: seq<Record>)
    ensures Rows(a + b) == Rows(a) + Rows(b)
  {
    hide RowsOf;
    if a == [] {
      assert a + b == b;
    } else {
      RowsConcat(a[1..], b);
      assert (a + b)[1..] == a[1..] + b;
      Assoc(RowsOf(a[0]), Rows(a[1..]), Rows(b));
    }
  }

  // ---- the main results -------------------------------------------------------------------------------------------

  /** A plain CSV reader recovers every row of the log, whatever text the peers chose. */
  lemma ReadBack(records: seq<Record>)
    ensures ReadRows(LogText(records)) == Some(Rows(records))
  {
    LogIsLines(records);
    RowsThere(Rows(records));
  }

  /** And the text determines the records: one log's text begins with another's exactly when its records do,
      so no two logs share a text and a log cut short after a record reads as the records before the cut. */
  lemma UniquelyDecodable(a: seq<Record>, b: seq<Record>)
    ensures LogText(a) <= LogText(b) <==> a <= b
  {
    hide RowsOf, Written, Line, Lines;
    LogIsLines(a);
    LogIsLines(b);
    if LogText(a) <= LogText(b) {
      LinesPrefix(Rows(a), Rows(b));
      RowsPrefix(a, b);
    }
    if a <= b {
      var more := b[|a|..];
      assert b == a + more;
      RowsConcat(a, more);
      LinesConcat(Rows(a), Rows(more));
    }
  }
}
