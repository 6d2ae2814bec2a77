/** The node store (src/store.rs): what one entry holds, the two ways an address
    enters the map, and the atomic counters kept beside it. */
module NodeStore {
  import opened Base
  import opened Network

  datatype NodeState =
    | Queued | Processing
    | Reachable | HandshakeFailed | Unreachable | StaleDiscarded | BudgetDiscarded

  datatype FailKind =
    | ConnectRefused | ConnectTimeout | ConnectUnreachable | ConnectReset | ProxyError | SamError | ConnectOther
    | VersionSendFailed | NegotiationSendFailed | VerackSendFailed | PeerVerackTimeout | HandshakeTimeout
    | ConnectionClosed | MalformedVersion | ProtocolDesync | HandshakeOther
    | WorkerFailed

  predicate IsConnectKind(kind: FailKind) {
    kind in {ConnectRefused, ConnectTimeout, ConnectUnreachable, ConnectReset, ProxyError, SamError, ConnectOther}
  }

  /** Failures after our version was written, other than silence. */
  predicate IsHandshakeKind(kind: FailKind) {
    kind in {NegotiationSendFailed, VerackSendFailed, PeerVerackTimeout, ConnectionClosed, MalformedVersion,
             ProtocolDesync, HandshakeOther}
  }

  datatype CollectionOutcome =
    | NotRequested | CompleteQuiet | NoResponseTimeout | PartialHardTimeout | HardTimeout | SendFailed
    | MalformedResponse | PartialMalformedResponse | RemoteDisconnect | PartialRemoteDisconnect
    | IncompleteEnvelopeTimeout | PartialIncompleteEnvelopeTimeout | LogFailed

  /** How far one attempt got; the source stores these as text. */
  datatype AttemptOutcome =
    | AttemptStarted | AttemptConnectFailed | AttemptConnected | AttemptVersionSent
    | AttemptComplete | AttemptTimedOut | AttemptFailed

  datatype Attempt = Attempt(number: nat, outcome: AttemptOutcome, failure: Option<FailKind>)

  datatype HandshakeData = HandshakeData(
    version: int, services: nat, userAgent: string, latestBlock: int, relay: bool, timestamp: int)

  datatype NodeStats = NodeStats(
    timeConnectMs: Option<nat>,
    handshakeAttempts: nat,
    advertisedTotal: nat,
    collectionOutcome: CollectionOutcome,
    validAddrMessages: nat,
    malformedAddrMessages: nat)

  /** A responder's figures after `counted` valid messages more, `declared` addresses declared and `bad` malformed
      messages. */
  function Tallied(stats: NodeStats, counted: nat, declared: nat, bad: nat): NodeStats {
    stats.(validAddrMessages := stats.validAddrMessages + counted,
           advertisedTotal := stats.advertisedTotal + declared,
           malformedAddrMessages := stats.malformedAddrMessages + bad)
  }

  datatype NodeEntry = NodeEntry(
    network: NetworkType,
    freshestTs: int,
    state: NodeState,
    handshake: Option<HandshakeData>,
    stats: NodeStats,
    failure: Option<FailKind>,
    attempts: seq<Attempt>)
  {
    predicate Active() { state == Queued || state == Processing }
  }

  type Entries = map<AddrKey, NodeEntry>

  function NewEntry(network: NetworkType, freshestTs: int, state: NodeState): NodeEntry {
    NodeEntry(network, freshestTs, state, None, NodeStats(None, 0, 0, NotRequested, 0, 0), None, [])
  }

  datatype FrontierOutcome = Enqueue | Known | StaleNew | StillStale | BudgetRejected

  function Max(a: int, b: int): int { if a < b then b else a }

  predicate TooOld(ts: int, threshold: int, now: int) { threshold > 0 && ts < now - threshold }

  /** What one frontier upsert makes of the map, and what it tells its caller. */
  function Upsert(entries: Entries, limit: nat, key: AddrKey, ts: int, network: NetworkType, threshold: int, now: int)
    : (Entries, FrontierOutcome)
  {
    if key in entries then
      var e := entries[key].(freshestTs := Max(entries[key].freshestTs, ts));
      if e.state != StaleDiscarded then (entries[key := e], Known)
      else if TooOld(e.freshestTs, threshold, now) then (entries[key := e], StillStale)
      else (entries[key := e.(state := Queued)], Enqueue)
    else if |entries| >= limit then (entries, BudgetRejected)
    else if TooOld(ts, threshold, now) then (entries[key := NewEntry(network, ts, StaleDiscarded)], StaleNew)
    else (entries[key := NewEntry(network, ts, Queued)], Enqueue)
  }

  /** What one seed observation makes of the map, and whether the seed is newly queued. */
  function Observe(entries: Entries, limit: nat, key: AddrKey, network: NetworkType, now: int): (Entries, bool)
  {
    if key in entries then
      (entries[key := entries[key].(freshestTs := Max(entries[key].freshestTs, now))], false)
    else if |entries| >= limit then (entries, false)
    else (entries[key := NewEntry(network, now, Queued)], true)
  }

  /** Unsigned 64-bit wrap-around of the atomic counters. */
  function Wrap(n: int): nat { n % U64 }

  class Store {
    var byKey: Entries
    var outstanding: nat
    var entries: nat
    var budgetRejected: nat
    const maxEntries: nat

    ghost predicate Valid()
      reads this
    {
      entries == |byKey| <= maxEntries < U64
    }

    constructor (limit: nat)
      requires limit < U64
      ensures Valid() && maxEntries == limit
      ensures byKey == map[] && outstanding == 0 && budgetRejected == 0
    {
      byKey, outstanding, entries, budgetRejected, maxEntries := map[], 0, 0, 0, limit;
    }

    method ReserveEntry() returns (reserved: bool)
      modifies this`entries, this`budgetRejected
      ensures reserved <==> old(entries) < maxEntries
      ensures entries == if reserved then old(entries) + 1 else old(entries)
      ensures budgetRejected == if reserved then old(budgetRejected) else old(budgetRejected) + 1
    {
      reserved := entries < maxEntries;
      if reserved {
        entries := entries + 1;
      } else {
        budgetRejected := budgetRejected + 1;
      }
    }

    method ObserveSeed(key: AddrKey, network: NetworkType, now: int) returns (newlyQueued: bool)
      requires Valid()
      modifies this`byKey, this`entries, this`budgetRejected
      ensures Valid()
      ensures (byKey, newlyQueued) == Observe(old(byKey), maxEntries, key, network, now)
      ensures budgetRejected == old(budgetRejected) +
                                (if key !in old(byKey) && |old(byKey)| >= maxEntries then 1 else 0)
    {
      if key in byKey {
        var e := byKey[key];
        byKey := byKey[key := e.(freshestTs := Max(e.freshestTs, now))];
        return false;
      }
      var reserved := ReserveEntry();
      if !reserved {
        return false;
      }
      byKey := byKey[key := NewEntry(network, now, Queued)];
      return true;
    }

    method FrontierUpsert(key: AddrKey, ts: int, network: NetworkType, threshold: int, now: int)
      returns (outcome: FrontierOutcome)
      requires Valid()
      modifies this`byKey, this`entries, this`budgetRejected
      ensures Valid()
      ensures (byKey, outcome) == Upsert(old(byKey), maxEntries, key, ts, network, threshold, now)
      ensures budgetRejected == old(budgetRejected) + (if outcome == BudgetRejected then 1 else 0)
    {
      if key in byKey {
        var e := byKey[key];
        e := e.(freshestTs := Max(e.freshestTs, ts));
        byKey := byKey[key := e];
        if e.state != StaleDiscarded {
          return Known;
        }
        if threshold > 0 && e.freshestTs < now - threshold {
          return StillStale;
        }
        byKey := byKey[key := e.(state := Queued)];
        assert byKey == old(byKey)[key := e.(state := Queued)];
        return Enqueue;
      }
      var reserved := ReserveEntry();
      if !reserved {
        return BudgetRejected;
      }
      if threshold > 0 && ts < now - threshold {
        byKey := byKey[key := NewEntry(network, ts, StaleDiscarded)];
        return StaleNew;
      }
      byKey := byKey[key := NewEntry(network, ts, Queued)];
      return Enqueue;
    }

    method IncrOutstanding()
      modifies this`outstanding
      ensures outstanding == Wrap(old(outstanding) + 1)
    {
      outstanding := Wrap(outstanding + 1);
    }

    /** Returns the value before the decrement: 1 means nothing is left. */
    method DecrOutstanding() returns (prior: nat)
      modifies this`outstanding
      ensures prior == old(outstanding) && outstanding == Wrap(prior - 1)
    {
      prior := outstanding;
      outstanding := Wrap(outstanding - 1);
    }
  }
}
