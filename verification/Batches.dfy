/** Batches that come off the wire: the shuffle results of `Frontier`, for every address message there is. */
module Batches {
  import opened Base
  import opened Network
  import opened NodeStore
  import opened Addresses
  import opened AddrMessages
  import opened Frontier
  import opened Gathering

  /** The network a message of this format gives to a host: the classifier's, except that legacy messages
      know no CJDNS. */
  function LabelOf(lib: Lib, f: Format, host: string): NetworkType {
    var network := Classify(lib, host);
    if f == Legacy && network == Cjdns then Ipv6 else network
  }

  function Labels(lib: Lib, f: Format): AddrKey -> NetworkType { (k: AddrKey) => LabelOf(lib, f, k.host) }

  lemma LegacyLabel(lib: Lib, a: seq<byte>)
    requires Lawful(lib) && |a| == 16
    ensures DecodeLegacyIp(lib, a).1 == LabelOf(lib, Legacy, DecodeLegacyIp(lib, a).0)
  {
    hide Classify, Lawful, Print4;
    if Ipv4Mapped(a) {
      Ipv4Agrees(lib, a[12..]);
    } else {
      Ipv6Agrees(lib, a);
    }
  }

  lemma EntryLabel(lib: Lib, f: Format, e: WireEntry)
    requires Lawful(lib) && WellFormed(lib, f, e) && Meaning(lib, f, e).Some?
    ensures var a := Meaning(lib, f, e).value; a.network == LabelOf(lib, f, a.host)
  {
    hide Classify, Lawful, DecodeLegacyIp, DecodeAddrV2;
    match f
    case Legacy => LegacyLabel(lib, e.addr);
    case V2 => WireNetworkAgrees(lib, e.netId, e.addr);
  }

  lemma {:induction false} KnownLabels(lib: Lib, f: Format, es: seq<WireEntry>)
    requires Lawful(lib) && AllWellFormed(lib, f, es)
    ensures forall a :: a in AddrMessages.Known(lib, f, es) ==> a.network == LabelOf(lib, f, a.host)
    decreases |es|
  {
    hide Lawful, Meaning, LabelOf, WellFormed;
    if es != [] {
      var n := |es| - 1;
      KnownLabels(lib, f, es[..n]);
      if Meaning(lib, f, es[n]).Some? {
        EntryLabel(lib, f, es[n]);
      }
    }
  }

  lemma {:induction false} WantedFrom(enabled: set<NetworkType>, addrs: seq<AdvertisedAddr>, x: Advert)
    requires x in Wanted(enabled, addrs)
    ensures exists a :: a in addrs && x == AdvertOf(a)
  {
    var n := |addrs| - 1;
    if x in Wanted(enabled, addrs[..n]) {
      WantedFrom(enabled, addrs[..n], x);
      var a :| a in addrs[..n] && x == AdvertOf(a);
      assert a in addrs;
    } else {
      assert addrs[n] in addrs;
    }
  }

  /** Every accepted message gives each host one network. */
  lemma MessageConsistent(lib: Lib, f: Format, payload: seq<byte>, enabled: set<NetworkType>)
    requires Lawful(lib) && Parse(lib, f, payload).Ok?
    ensures Consistent(Wanted(enabled, Parse(lib, f, payload).value.addrs), Labels(lib, f))
  {
    var addrs := Parse(lib, f, payload).value.addrs;
    var es := AcceptedIsEncoded(lib, f, payload);
    EncodedIsAccepted(lib, f, es, payload);
    hide Parse, Lawful, Wanted, LabelOf, AddrMessages.Known;
    KnownLabels(lib, f, es);
    forall x | x in Wanted(enabled, addrs) ensures x.network == Labels(lib, f)(x.key) {
      WantedFrom(enabled, addrs, x);
    }
  }

  /** So, for every accepted message and every store, its shuffle is harmless exactly when the budget admits all the
      message's enabled addresses or no new one. */
  lemma MessageShuffle(
    lib: Lib, f: Format, payload: seq<byte>, enabled: set<NetworkType>, entries: Entries, limit: nat,
    threshold: int, now: int)
    requires Lawful(lib) && Parse(lib, f, payload).Ok? && |entries| <= limit
    ensures var batch := Wanted(enabled, Parse(lib, f, payload).value.addrs);
            OrderIrrelevant(entries, limit, batch, threshold, now) <==>
                Fits(entries, limit, batch) || |entries| == limit
  {
    hide Parse, Lawful, Wanted;
    MessageConsistent(lib, f, payload, enabled);
    OrderIrrelevantExactly(
      entries, limit, Wanted(enabled, Parse(lib, f, payload).value.addrs), Labels(lib, f), threshold, now);
  }

  /** Across the two formats the label is not the host's alone: an address in fc00::/8 is the same host in both,
      IPv6 in the one and CJDNS in the other, and no other such address is. */
  lemma FormatsDisagree(lib: Lib, a: seq<byte>)
    requires Lawful(lib) && |a| == 16 && !Ipv4Mapped(a)
    ensures DecodeLegacyIp(lib, a) == (lib.print6(a), Ipv6)
    ensures a[0] == 0xfc ==> DecodeAddrV2(lib, 6, a) == Host(lib.print6(a), Cjdns)
    ensures a[0] != 0xfc ==> DecodeAddrV2(lib, 2, a) == Host(lib.print6(a), Ipv6)
    ensures LabelOf(lib, Legacy, lib.print6(a)) == LabelOf(lib, V2, lib.print6(a)) <==> a[0] != 0xfc
  {
    Ipv6Agrees(lib, a);
    hide Classify, Lawful;
  }
}
