/** What one address message makes of the store and the queues (`handle_addr_message` in src/crawler.rs). */
module Gathering {
  import opened Base
  import opened Network
  import opened NodeStore
  import opened Frontier
  import opened Scheduler
  import opened AddrMessages
  import Crawler

  type Shuffle = f: seq<Advert> -> seq<Advert> | forall b :: Permutation(b, f(b)) witness b => b

  /** A responder, and the crawl it is visited in. */
  datatype Site = Site(c: Config, shuffle: Shuffle, key: AddrKey)

  /** Where the visiting worker is: the threads as they stand, the shutdown flag, and its own place. */
  datatype Seat = Seat(threads: seq<Thread>, shutdown: bool, i: nat)

  function AdvertOf(a: AdvertisedAddr): Advert { Advert(AddrKey(a.host, a.port), a.timestamp, a.network) }

  /** The advertised addresses of enabled networks. */
  function Wanted(enabled: set<NetworkType>, addrs: seq<AdvertisedAddr>): seq<Advert> {
    if addrs == [] then []
    else
      var n := |addrs| - 1;
      Wanted(enabled, addrs[..n]) + (if addrs[n].network in enabled then [AdvertOf(addrs[n])] else [])
  }

  /** The responder's entry with its figures raised, all else left. */
  function Raised(s: State, key: AddrKey, counted: nat, declared: nat, bad: nat): (r: State)
    requires key in s.entries
    ensures key in r.entries && r.threads == s.threads
  {
    s.(entries := s.entries[key := s.entries[key].(stats := Tallied(s.entries[key].stats, counted, declared, bad))])
  }

  /** All addresses a message declares, of whatever network. */
  function Size(m: ParsedAddrMessage): nat { |m.addrs| + m.unknownEntries }

  /** The message credited to the responder and, once logged, fed to the frontier; nothing reaches the frontier
      unlogged. */
  function Handled(w: Site, s: State, m: ParsedAddrMessage, logged: bool, now: int): (r: State)
    requires w.key in s.entries
    ensures r.threads == s.threads
  {
    var credited := Raised(s, w.key, 0, Size(m), 0);
    if logged then Crawler.Fed(w.c, credited, w.shuffle(Wanted(w.c.enabled, m.addrs)), now) else credited
  }

  /** And counted among the valid messages when it was logged. */
  function Absorbed(w: Site, s: State, m: ParsedAddrMessage, logged: bool, now: int): (r: State)
    requires w.key in s.entries
    ensures r.threads == s.threads && w.key in r.entries
  {
    HandledStats(w, s, m, logged, now);
    var handled := Handled(w, s, m, logged, now);
    if logged then Raised(handled, w.key, 1, 0, 0) else handled
  }

  // ---- what stays of the responder --------------------------------------------------------------------------

  lemma FedOneKeeps(c: Config, s: State, a: Advert, now: int, k: AddrKey)
    requires k in s.entries
    ensures k in Crawler.FedOne(c, s, a, now).entries
    ensures Crawler.FedOne(c, s, a, now).entries[k].stats == s.entries[k].stats
  {
    hide TooOld, Queues.TrySend;
  }

  lemma {:induction false} FedKeeps(c: Config, s: State, batch: seq<Advert>, now: int, k: AddrKey)
    requires k in s.entries
    ensures k in Crawler.Fed(c, s, batch, now).entries
    ensures Crawler.Fed(c, s, batch, now).entries[k].stats == s.entries[k].stats
    decreases |batch|
  {
    hide Crawler.FedOne;
    if batch != [] {
      var n := |batch| - 1;
      FedKeeps(c, s, batch[..n], now, k);
      FedOneKeeps(c, Crawler.Fed(c, s, batch[..n], now), batch[n], now, k);
    }
  }

  lemma HandledStats(w: Site, s: State, m: ParsedAddrMessage, logged: bool, now: int)
    requires w.key in s.entries
    ensures var r := Handled(w, s, m, logged, now);
            w.key in r.entries && r.entries[w.key].stats == Tallied(s.entries[w.key].stats, 0, Size(m), 0)
  {
    hide Crawler.Fed;
    FedKeeps(w.c, Raised(s, w.key, 0, Size(m), 0), w.shuffle(Wanted(w.c.enabled, m.addrs)), now, w.key);
  }

  lemma AbsorbedStats(w: Site, s: State, m: ParsedAddrMessage, logged: bool, now: int)
    requires w.key in s.entries
    ensures Absorbed(w, s, m, logged, now).entries[w.key].stats ==
              Tallied(s.entries[w.key].stats, if logged then 1 else 0, Size(m), 0)
  {
    hide Handled;
    HandledStats(w, s, m, logged, now);
  }

  // ---- the frontier half is part of a run ---------------------------------------------------------------------

  lemma {:induction false} WantedEnabled(enabled: set<NetworkType>, addrs: seq<AdvertisedAddr>)
    ensures forall a :: a in Wanted(enabled, addrs) ==> a.network in enabled
  {
    if addrs != [] {
      WantedEnabled(enabled, addrs[..|addrs| - 1]);
    }
  }

  lemma ShuffledEnabled(w: Site, addrs: seq<AdvertisedAddr>)
    ensures forall a :: a in w.shuffle(Wanted(w.c.enabled, addrs)) ==> a.network in w.c.enabled
  {
    var batch := Wanted(w.c.enabled, addrs);
    WantedEnabled(w.c.enabled, addrs);
    hide Wanted, Keys, Newest;
    SameMembers(batch, w.shuffle(batch));
  }

  /** Worker `i` is collecting addresses from the responder. */
  predicate Visiting(w: Site, s: State, i: nat) {
    Crawler.Working(s, i) && s.threads[i].pc == Discovering(w.key) && !w.c.probeMode && w.key in s.entries
  }

  /** Raising the responder's figures is a step of its worker. */
  lemma RaisedLeads(w: Site, s: State, counted: nat, declared: nat, bad: nat, i: nat)
    requires Visiting(w, s, i)
    ensures Crawler.Leads(w.c, i, s, Raised(s, w.key, counted, declared, bad))
  {
    var r := Raised(s, w.key, counted, declared, bad);
    assert s.threads[i := s.threads[i]] == s.threads;
    assert Step(w.c, s, i, Tally(counted, declared, bad)) == Some(r);
    hide Step;
    Crawler.OneStep(w.c, i, s, Tally(counted, declared, bad), r);
  }

  /** What a message makes of the crawl, logged or not, its worker's own steps lead to. */
  lemma HandledLeads(w: Site, s: State, m: ParsedAddrMessage, logged: bool, now: int, i: nat)
    requires Visiting(w, s, i)
    ensures Crawler.Leads(w.c, i, s, Handled(w, s, m, logged, now))
  {
    hide Crawler.Leads, Crawler.Fed, Wanted, Size, Tallied;
    var credited := Raised(s, w.key, 0, Size(m), 0);
    RaisedLeads(w, s, 0, Size(m), 0, i);
    if logged {
      ShuffledEnabled(w, m.addrs);
      Crawler.FedLeads(w.c, i, credited, w.shuffle(Wanted(w.c.enabled, m.addrs)), now);
      Crawler.LeadsThrough(w.c, i, s, credited, Handled(w, s, m, logged, now));
    }
  }

  lemma AbsorbedLeads(w: Site, s: State, m: ParsedAddrMessage, logged: bool, now: int, i: nat)
    requires Visiting(w, s, i)
    ensures Crawler.Leads(w.c, i, s, Absorbed(w, s, m, logged, now))
    ensures Visiting(w, Absorbed(w, s, m, logged, now), i)
  {
    hide Crawler.Leads, Handled;
    var handled := Handled(w, s, m, logged, now);
    HandledStats(w, s, m, logged, now);
    HandledLeads(w, s, m, logged, now, i);
    if logged {
      RaisedLeads(w, handled, 1, 0, 0, i);
      Crawler.LeadsThrough(w.c, i, s, handled, Absorbed(w, s, m, logged, now));
    }
  }

  // ---- the methods -----------------------------------------------------------------------------------------------

  /** The crawl as the worker in `seat` sees it. */
  ghost function Sight(crawler: Crawler.Crawler, seat: Seat): (s: State)
    reads crawler, crawler.store
    ensures s.threads == seat.threads && s.entries == crawler.store.byKey
  { crawler.View(seat.threads, seat.shutdown) }

  ghost predicate Ready(crawler: Crawler.Crawler, seat: Seat, w: Site)
    reads crawler, crawler.store
  {
    crawler.Valid() && Crawler.Working(Sight(crawler, seat), seat.i) && w.key in crawler.store.byKey && w.c == crawler.c
  }

  method HandleAddrMessage(
    crawler: Crawler.Crawler, w: Site, m: ParsedAddrMessage, logged: bool, now: int, ghost seat: Seat)
    requires Ready(crawler, seat, w)
    modifies crawler`queues, crawler.store
    ensures Ready(crawler, seat, w)
    ensures Sight(crawler, seat) == Handled(w, old(Sight(crawler, seat)), m, logged, now)
    ensures Visiting(w, old(Sight(crawler, seat)), seat.i) ==>
              Crawler.Leads(w.c, seat.i, old(Sight(crawler, seat)), Sight(crawler, seat))
  {
    hide Crawler.Fed, Wanted, Raised, Ready, Sight, Size, Visiting, Crawler.Leads;
    if Visiting(w, Sight(crawler, seat), seat.i) {
      HandledLeads(w, Sight(crawler, seat), m, logged, now, seat.i);
    }
    Credit(crawler, w, m, seat);
    if logged {
      FeedWanted(crawler, w, m.addrs, now, seat);
    }
  }

  method FeedWanted(crawler: Crawler.Crawler, w: Site, addrs: seq<AdvertisedAddr>, now: int, ghost seat: Seat)
    requires Ready(crawler, seat, w)
    modifies crawler`queues, crawler.store
    ensures Ready(crawler, seat, w)
    ensures Sight(crawler, seat) ==
              Crawler.Fed(w.c, old(Sight(crawler, seat)), w.shuffle(Wanted(w.c.enabled, addrs)), now)
  {
    hide Crawler.Fed, Wanted, Ready, Sight;
    var enabled := Filter(w.c.enabled, addrs);
    Feed(crawler, w, w.shuffle(enabled), now, seat);
  }

  method Feed(crawler: Crawler.Crawler, w: Site, batch: seq<Advert>, now: int, ghost seat: Seat)
    requires Ready(crawler, seat, w)
    modifies crawler`queues, crawler.store
    ensures Ready(crawler, seat, w)
    ensures Sight(crawler, seat) == Crawler.Fed(w.c, old(Sight(crawler, seat)), batch, now)
  {
    FedKeeps(w.c, Sight(crawler, seat), batch, now, w.key);
    hide Crawler.Leads, Crawler.Fed;
    crawler.FeedBatch(batch, now, seat.threads, seat.shutdown, seat.i);
  }

  method Credit(crawler: Crawler.Crawler, w: Site, m: ParsedAddrMessage, ghost seat: Seat)
    requires Ready(crawler, seat, w)
    modifies crawler.store`byKey
    ensures Ready(crawler, seat, w)
    ensures Sight(crawler, seat) == Raised(old(Sight(crawler, seat)), w.key, 0, Size(m), 0)
  {
    var e := crawler.store.byKey[w.key];
    ghost var e0 := e;
    for i := 0 to |m.addrs|
      invariant e == e0.(stats := e0.stats.(advertisedTotal := e0.stats.advertisedTotal + i))
    {
      e := e.(stats := e.stats.(advertisedTotal := e.stats.advertisedTotal + 1));
    }
    e := e.(stats := e.stats.(advertisedTotal := e.stats.advertisedTotal + m.unknownEntries));
    crawler.store.byKey := crawler.store.byKey[w.key := e];
  }

  method Filter(enabled: set<NetworkType>, addrs: seq<AdvertisedAddr>) returns (kept: seq<Advert>)
    ensures kept == Wanted(enabled, addrs)
  {
    kept := [];
    for i := 0 to |addrs|
      invariant kept == Wanted(enabled, addrs[..i])
    {
      assert addrs[..i + 1][..i] == addrs[..i];
      if addrs[i].network in enabled {
        kept := kept + [AdvertOf(addrs[i])];
      }
    }
    assert addrs[..|addrs|] == addrs;
  }

  /** A valid message in full: handled, and counted when it was logged. */
  method TakeBlock(crawler: Crawler.Crawler, w: Site, m: ParsedAddrMessage, logged: bool, now: int, ghost seat: Seat)
    requires Ready(crawler, seat, w)
    modifies crawler`queues, crawler.store
    ensures Ready(crawler, seat, w)
    ensures Sight(crawler, seat) == Absorbed(w, old(Sight(crawler, seat)), m, logged, now)
  {
    hide Handled;
    HandleAddrMessage(crawler, w, m, logged, now, seat);
    if logged {
      CountValid(crawler, w, seat);
    }
  }

  method CountValid(crawler: Crawler.Crawler, w: Site, ghost seat: Seat)
    requires Ready(crawler, seat, w)
    modifies crawler.store`byKey
    ensures Ready(crawler, seat, w)
    ensures Sight(crawler, seat) == Raised(old(Sight(crawler, seat)), w.key, 1, 0, 0)
  {
    var e := crawler.store.byKey[w.key];
    var valid := e.stats.validAddrMessages + 1;
    crawler.store.byKey := crawler.store.byKey[w.key := e.(stats := e.stats.(validAddrMessages := valid))];
  }

  method CountMalformed(crawler: Crawler.Crawler, w: Site, ghost seat: Seat)
    requires Ready(crawler, seat, w)
    modifies crawler.store`byKey
    ensures Ready(crawler, seat, w)
    ensures Sight(crawler, seat) == Raised(old(Sight(crawler, seat)), w.key, 0, 0, 1)
  {
    var e := crawler.store.byKey[w.key];
    var malformed := e.stats.malformedAddrMessages + 1;
    crawler.store.byKey := crawler.store.byKey[w.key := e.(stats := e.stats.(malformedAddrMessages := malformed))];
  }
}
