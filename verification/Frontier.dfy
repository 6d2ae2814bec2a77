/** One batch of advertised addresses fed to the frontier (src/store.rs, `handle_addr_message` in
    src/crawler.rs). The batch is shuffled first; these lemmas say when the shuffle cannot matter. */
module Frontier {
  import opened Base
  import opened Network
  import opened NodeStore
  import opened Tally

  datatype Advert = Advert(key: AddrKey, timestamp: int, network: NetworkType)

  /** What a batch makes of the map, and the keys it enqueues, in order. */
  function Feed(entries: Entries, limit: nat, batch: seq<Advert>, threshold: int, now: int)
    : (r: (Entries, seq<AddrKey>))
  {
    if batch == [] then (entries, [])
    else
      var n := |batch| - 1;
      var (before, queued) := Feed(entries, limit, batch[..n], threshold, now);
      var (after, outcome) := Upsert(before, limit, batch[n].key, batch[n].timestamp, batch[n].network, threshold, now);
      (after, if outcome == Enqueue then queued + [batch[n].key] else queued)
  }

  /** The loop over the shuffled batch. */
  method FeedFrontier(store: Store, batch: seq<Advert>, threshold: int, now: int) returns (queued: seq<AddrKey>)
    requires store.Valid()
    modifies store`byKey, store`entries, store`budgetRejected
    ensures store.Valid()
    ensures (store.byKey, queued) == Feed(old(store.byKey), store.maxEntries, batch, threshold, now)
  {
    queued := [];
    for i := 0 to |batch|
      invariant store.Valid()
      invariant (store.byKey, queued) == Feed(old(store.byKey), store.maxEntries, batch[..i], threshold, now)
    {
      var a := batch[i];
      var outcome := store.FrontierUpsert(a.key, a.timestamp, a.network, threshold, now);
      if outcome == Enqueue {
        queued := queued + [a.key];
      }
      assert batch[..i + 1][..i] == batch[..i];
    }
    assert batch[..|batch|] == batch;
  }

  // ---- what a batch says, order apart -----------------------------------------------------------------------

  ghost function Keys(batch: seq<Advert>): set<AddrKey> { set a | a in batch :: a.key }

  /** The largest timestamp a batch gives for a key. */
  ghost function Newest(batch: seq<Advert>, key: AddrKey): (ts: Option<int>)
    ensures ts.Some? <==> key in Keys(batch)
    ensures ts.Some? ==> exists a :: a in batch && a.key == key && a.timestamp == ts.value
    ensures ts.Some? ==> forall a :: a in batch && a.key == key ==> a.timestamp <= ts.value
  {
    if batch == [] then None
    else
      var n := |batch| - 1;
      assert batch == batch[..n] + [batch[n]];
      var before := Newest(batch[..n], key);
      if batch[n].key != key then before
      else if before == None then Some(batch[n].timestamp)
      else Some(Max(before.value, batch[n].timestamp))
  }

  /** The network of an address is read off its host. */
  ghost predicate Consistent(batch: seq<Advert>, net: AddrKey -> NetworkType) {
    forall a :: a in batch ==> a.network == net(a.key)
  }

  predicate Permutation(a: seq<Advert>, b: seq<Advert>) { multiset(a) == multiset(b) }

  lemma SameMembers(a: seq<Advert>, b: seq<Advert>)
    requires Permutation(a, b)
    ensures forall x :: x in a <==> x in b
    ensures Keys(a) == Keys(b) && forall k :: Newest(a, k) == Newest(b, k)
  {
    forall x ensures x in a <==> x in b {
      assert x in a <==> x in multiset(a);
      assert x in b <==> x in multiset(b);
    }
    assert Keys(a) == Keys(b);
    forall k ensures Newest(a, k) == Newest(b, k) {
      if k in Keys(a) {
        assert Newest(a, k).value <= Newest(b, k).value;
        assert Newest(b, k).value <= Newest(a, k).value;
      }
    }
  }

  // ---- the final state, order apart -----------------------------------------------------------------------------

  /** What becomes of a key: its timestamp is the running maximum, and it is queued
      when it was unknown or stale and that maximum clears the threshold. */
  ghost function Settled(
    entries: Entries, batch: seq<Advert>, net: AddrKey -> NetworkType, threshold: int, now: int,
    key: AddrKey): NodeEntry
    requires key in entries || key in Keys(batch)
  {
    if key !in Keys(batch) then entries[key]
    else
      var newest := Newest(batch, key).value;
      if key in entries then
        var e := entries[key].(freshestTs := Max(entries[key].freshestTs, newest));
        if e.state == StaleDiscarded && !TooOld(e.freshestTs, threshold, now) then e.(state := Queued) else e
      else NewEntry(net(key), newest, if TooOld(newest, threshold, now) then StaleDiscarded else Queued)
  }

  /** The key becomes queued through this batch. */
  ghost predicate Fresh(entries: Entries, batch: seq<Advert>, threshold: int, now: int, key: AddrKey) {
    key in Keys(batch) &&
    if key in entries then
      entries[key].state == StaleDiscarded &&
      !TooOld(Max(entries[key].freshestTs, Newest(batch, key).value), threshold, now)
    else !TooOld(Newest(batch, key).value, threshold, now)
  }

  /** The map a batch leaves when exactly the keys `keys` are let in. */
  ghost predicate Lands(
    entries: Entries, batch: seq<Advert>, net: AddrKey -> NetworkType, threshold: int, now: int, keys: set<AddrKey>,
    after: Entries)
    requires keys <= entries.Keys + Keys(batch)
  {
    after.Keys == keys && forall k :: k in keys ==> after[k] == Settled(entries, batch, net, threshold, now, k)
  }

  /** What it enqueues then: each key at most once. */
  ghost predicate Queues(
    entries: Entries, batch: seq<Advert>, threshold: int, now: int, keys: set<AddrKey>, queued: seq<AddrKey>)
  {
    (forall i, j :: 0 <= i < j < |queued| ==> queued[i] != queued[j]) &&
    forall k :: k in queued <==> k in keys && Fresh(entries, batch, threshold, now, k)
  }

  lemma OneOutcome(
    entries: Entries, a: seq<Advert>, b: seq<Advert>, net: AddrKey -> NetworkType, threshold: int, now: int,
    keys: set<AddrKey>, after: Entries, queued: seq<AddrKey>, after': Entries, queued': seq<AddrKey>)
    requires Permutation(a, b) && keys <= entries.Keys + Keys(a) && keys <= entries.Keys + Keys(b)
    requires Lands(entries, a, net, threshold, now, keys, after) && Queues(entries, a, threshold, now, keys, queued)
    requires Lands(entries, b, net, threshold, now, keys, after') && Queues(entries, b, threshold, now, keys, queued')
    ensures after == after' && multiset(queued) == multiset(queued')
  {
    hide Keys, Newest;
    SameMembers(a, b);
    assert forall k :: k in keys ==> after[k] == after'[k];
    assert forall k :: k in queued <==> k in queued';
    hide Lands, Queues;
    SameDistinct(queued, queued');
  }

  lemma {:induction false} CountOnce(s: seq<AddrKey>, k: AddrKey)
    requires forall i, j :: 0 <= i < j < |s| ==> s[i] != s[j]
    ensures multiset(s)[k] == if k in s then 1 else 0
  {
    if s != [] {
      CountOnce(s[1..], k);
      assert s == [s[0]] + s[1..];
    }
  }

  lemma SameDistinct(s: seq<AddrKey>, s': seq<AddrKey>)
    requires forall i, j :: 0 <= i < j < |s| ==> s[i] != s[j]
    requires forall i, j :: 0 <= i < j < |s'| ==> s'[i] != s'[j]
    requires forall k :: k in s <==> k in s'
    ensures multiset(s) == multiset(s')
  {
    forall k ensures multiset(s)[k] == multiset(s')[k] {
      CountOnce(s, k);
      CountOnce(s', k);
    }
  }

  /** One more observation of a key already accounted for. */
  function Raised(e: NodeEntry, ts: int, threshold: int, now: int): NodeEntry {
    var e' := e.(freshestTs := Max(e.freshestTs, ts));
    if e'.state == StaleDiscarded && !TooOld(e'.freshestTs, threshold, now) then e'.(state := Queued) else e'
  }

  lemma NewestSnoc(batch: seq<Advert>, x: Advert)
    ensures Keys(batch + [x]) == Keys(batch) + {x.key}
    ensures forall k :: k != x.key ==> Newest(batch + [x], k) == Newest(batch, k)
    ensures Newest(batch + [x], x.key) ==
              Some(if x.key in Keys(batch) then Max(Newest(batch, x.key).value, x.timestamp) else x.timestamp)
  {
    assert (batch + [x])[..|batch|] == batch;
  }

  lemma SettledSnoc(
    entries: Entries, batch: seq<Advert>, x: Advert, net: AddrKey -> NetworkType, threshold: int, now: int, k: AddrKey)
    requires x.network == net(x.key) && (k in entries || k in Keys(batch))
    ensures k in Keys(batch + [x]) <==> k == x.key || k in Keys(batch)
    ensures var e, e' :=
              Settled(entries, batch, net, threshold, now, k), Settled(entries, batch + [x], net, threshold, now, k);
            if k != x.key then
              e' == e && (Fresh(entries, batch + [x], threshold, now, k) <==> Fresh(entries, batch, threshold, now, k))
            else
              e' == Raised(e, x.timestamp, threshold, now) &&
              (Fresh(entries, batch, threshold, now, k) ==> e.state == Queued) &&
              (Fresh(entries, batch + [x], threshold, now, k) <==>
                Fresh(entries, batch, threshold, now, k) || (e.state == StaleDiscarded && e'.state == Queued))
  {
    hide Keys, Newest;
    NewestSnoc(batch, x);
  }

  lemma SettledNew(entries: Entries, batch: seq<Advert>, x: Advert, net: AddrKey -> NetworkType, threshold: int,
      now: int)
    requires x.network == net(x.key) && x.key !in entries && x.key !in Keys(batch)
    ensures x.key in Keys(batch + [x])
    ensures Fresh(entries, batch + [x], threshold, now, x.key) <==> !TooOld(x.timestamp, threshold, now)
    ensures Settled(entries, batch + [x], net, threshold, now, x.key) ==
              NewEntry(x.network, x.timestamp, if TooOld(x.timestamp, threshold, now) then StaleDiscarded else Queued)
  {
    hide Keys, Newest;
    NewestSnoc(batch, x);
  }

  // ---- one address more ---------------------------------------------------------------------------------------------

  ghost predicate Accounted(
    entries: Entries, batch: seq<Advert>, net: AddrKey -> NetworkType, threshold: int, now: int, keys: set<AddrKey>,
    after: Entries, queued: seq<AddrKey>)
  {
    entries.Keys <= keys <= entries.Keys + Keys(batch) && Lands(entries, batch, net, threshold, now, keys, after) &&
    Queues(entries, batch, threshold, now, keys, queued)
  }

  /** A key already in the map. */
  lemma StepIn(
    entries: Entries, batch: seq<Advert>, x: Advert, net: AddrKey -> NetworkType, threshold: int, now: int,
    keys: set<AddrKey>, before: Entries, queued: seq<AddrKey>, after: Entries, queued': seq<AddrKey>)
    requires x.network == net(x.key) && x.key in keys
    requires Accounted(entries, batch, net, threshold, now, keys, before, queued)
    requires after == before[x.key := Raised(before[x.key], x.timestamp, threshold, now)]
    requires queued' == if before[x.key].state == StaleDiscarded && after[x.key].state == Queued then queued + [x.key]
                        else queued
    ensures Accounted(entries, batch + [x], net, threshold, now, keys, after, queued')
  {
    hide Keys, Newest, Settled, Fresh, Raised, TooOld;
    NewestSnoc(batch, x);
    forall k | k in keys {
      SettledSnoc(entries, batch, x, net, threshold, now, k);
    }
  }

  /** A new key, let in. */
  lemma StepNew(
    entries: Entries, batch: seq<Advert>, x: Advert, net: AddrKey -> NetworkType, threshold: int, now: int,
    keys: set<AddrKey>, before: Entries, queued: seq<AddrKey>, after: Entries, queued': seq<AddrKey>)
    requires x.network == net(x.key) && x.key !in keys && x.key !in Keys(batch)
    requires Accounted(entries, batch, net, threshold, now, keys, before, queued)
    requires var late := TooOld(x.timestamp, threshold, now);
             after == before[x.key := NewEntry(x.network, x.timestamp, if late then StaleDiscarded else Queued)] &&
             queued' == if late then queued else queued + [x.key]
    ensures Accounted(entries, batch + [x], net, threshold, now, keys + {x.key}, after, queued')
  {
    hide Keys, Newest, Settled, Fresh, Raised, TooOld;
    NewestSnoc(batch, x);
    forall k | k in keys {
      SettledSnoc(entries, batch, x, net, threshold, now, k);
    }
    SettledNew(entries, batch, x, net, threshold, now);
  }

  /** A new key, refused. */
  lemma StepRefused(
    entries: Entries, batch: seq<Advert>, x: Advert, net: AddrKey -> NetworkType, threshold: int, now: int,
    keys: set<AddrKey>, before: Entries, queued: seq<AddrKey>)
    requires x.network == net(x.key) && x.key !in keys
    requires Accounted(entries, batch, net, threshold, now, keys, before, queued)
    ensures Accounted(entries, batch + [x], net, threshold, now, keys, before, queued)
  {
    hide Keys, Newest, Settled, Fresh, Raised, TooOld;
    NewestSnoc(batch, x);
    forall k | k in keys {
      SettledSnoc(entries, batch, x, net, threshold, now, k);
    }
  }

  // ---- a whole batch ----------------------------------------------------------------------------------------------

  /** Nothing is refused: every key of the batch is in the map afterwards. */
  ghost predicate Fits(entries: Entries, limit: nat, batch: seq<Advert>) { |entries.Keys + Keys(batch)| <= limit }

  lemma FeedNone(entries: Entries, net: AddrKey -> NetworkType, threshold: int, now: int)
    ensures Keys([]) == {} && Accounted(entries, [], net, threshold, now, entries.Keys, entries, [])
  {}

  lemma FitsBefore(entries: Entries, limit: nat, batch: seq<Advert>, x: Advert)
    requires Fits(entries, limit, batch + [x])
    ensures var keys := entries.Keys + Keys(batch);
            Fits(entries, limit, batch) && entries.Keys + Keys(batch + [x]) == keys + {x.key} &&
            (x.key in keys ==> keys + {x.key} == keys) && (x.key !in keys ==> |keys| < limit && x.key !in Keys(batch))
  {
    hide Newest;
    NewestSnoc(batch, x);
    var keys := entries.Keys + Keys(batch);
    assert entries.Keys + Keys(batch + [x]) == keys + {x.key};
    SubsetSize(keys, keys + {x.key});
  }

  lemma {:induction false} FeedFits(
    entries: Entries, limit: nat, batch: seq<Advert>, net: AddrKey -> NetworkType, threshold: int, now: int)
    requires Consistent(batch, net) && Fits(entries, limit, batch)
    ensures var (after, queued) := Feed(entries, limit, batch, threshold, now);
            Accounted(entries, batch, net, threshold, now, entries.Keys + Keys(batch), after, queued)
    decreases |batch|
  {
    hide Newest, Settled, Fresh, Raised, TooOld, Accounted;
    FeedNone(entries, net, threshold, now);
    if batch == [] {
      assert entries.Keys + Keys(batch) == entries.Keys;
    } else {
      var n := |batch| - 1;
      var x := batch[n];
      assert batch == batch[..n] + [x];
      var keys := entries.Keys + Keys(batch[..n]);
      FitsBefore(entries, limit, batch[..n], x);
      FeedFits(entries, limit, batch[..n], net, threshold, now);
      var (before, queued) := Feed(entries, limit, batch[..n], threshold, now);
      var (after, queued') := Feed(entries, limit, batch, threshold, now);
      hide Keys, Feed, Fits;
      FeedLast(entries, limit, batch, threshold, now);
      InMap(entries, batch[..n], net, threshold, now, keys, before, queued);
      if x.key in keys {
        StepIn(entries, batch[..n], x, net, threshold, now, keys, before, queued, after, queued');
      } else {
        StepNew(entries, batch[..n], x, net, threshold, now, keys, before, queued, after, queued');
      }
    }
  }

  lemma InMap(
    entries: Entries, batch: seq<Advert>, net: AddrKey -> NetworkType, threshold: int, now: int,
    keys: set<AddrKey>, after: Entries, queued: seq<AddrKey>)
    requires Accounted(entries, batch, net, threshold, now, keys, after, queued)
    ensures after.Keys == keys && |after| == |keys|
  {
    hide Keys, Settled, Fresh;
    assert |after| == |after.Keys|;
  }

  lemma FeedLast(entries: Entries, limit: nat, batch: seq<Advert>, threshold: int, now: int)
    requires batch != []
    ensures var n := |batch| - 1;
            var x := batch[n];
            var (before, queued) := Feed(entries, limit, batch[..n], threshold, now);
            var (after, queued') := Feed(entries, limit, batch, threshold, now);
            if x.key in before then
              after == before[x.key := Raised(before[x.key], x.timestamp, threshold, now)] &&
              queued' == if before[x.key].state == StaleDiscarded && after[x.key].state == Queued then queued + [x.key]
                         else queued
            else if |before| >= limit then after == before && queued' == queued
            else
              var late := TooOld(x.timestamp, threshold, now);
              after == before[x.key := NewEntry(x.network, x.timestamp, if late then StaleDiscarded else Queued)] &&
              queued' == if late then queued else queued + [x.key]
  {}

  lemma {:induction false} FeedFull(
    entries: Entries, limit: nat, batch: seq<Advert>, net: AddrKey -> NetworkType, threshold: int, now: int)
    requires Consistent(batch, net) && |entries| >= limit
    ensures var (after, queued) := Feed(entries, limit, batch, threshold, now);
            Accounted(entries, batch, net, threshold, now, entries.Keys, after, queued)
    decreases |batch|
  {
    hide Newest, Settled, Fresh, Raised, TooOld, Accounted;
    FeedNone(entries, net, threshold, now);
    if batch != [] {
      var n := |batch| - 1;
      var x := batch[n];
      assert batch == batch[..n] + [x];
      FeedFull(entries, limit, batch[..n], net, threshold, now);
      var (before, queued) := Feed(entries, limit, batch[..n], threshold, now);
      var (after, queued') := Feed(entries, limit, batch, threshold, now);
      hide Keys, Feed;
      FeedLast(entries, limit, batch, threshold, now);
      InMap(entries, batch[..n], net, threshold, now, entries.Keys, before, queued);
      assert |entries| == |entries.Keys|;
      if x.key in entries {
        StepIn(entries, batch[..n], x, net, threshold, now, entries.Keys, before, queued, after, queued');
      } else {
        StepRefused(entries, batch[..n], x, net, threshold, now, entries.Keys, before, queued);
      }
    }
  }

  /** New keys get in until the map is full. */
  ghost predicate Filled(base: set<AddrKey>, offered: set<AddrKey>, limit: nat, keys: set<AddrKey>) {
    base <= keys <= base + offered && |keys| <= limit && (keys == base + offered || |keys| == limit)
  }

  lemma FilledSnoc(base: set<AddrKey>, offered: set<AddrKey>, limit: nat, keys: set<AddrKey>, x: AddrKey)
    requires Filled(base, offered, limit, keys)
    ensures Filled(base, offered + {x}, limit, if x in keys || |keys| >= limit then keys else keys + {x})
  {}

  lemma KeysLast(entries: Entries, limit: nat, batch: seq<Advert>, threshold: int, now: int)
    requires batch != []
    ensures var n := |batch| - 1;
            var before := Feed(entries, limit, batch[..n], threshold, now).0.Keys;
            Feed(entries, limit, batch, threshold, now).0.Keys ==
            if batch[n].key in before || |before| >= limit then before else before + {batch[n].key}
  {
    hide Feed, Raised, TooOld;
    FeedLast(entries, limit, batch, threshold, now);
    var before := Feed(entries, limit, batch[..|batch| - 1], threshold, now).0;
    assert |before| == |before.Keys|;
  }

  lemma {:induction false} FeedSize(entries: Entries, limit: nat, batch: seq<Advert>, threshold: int, now: int)
    requires |entries| <= limit
    ensures Filled(entries.Keys, Keys(batch), limit, Feed(entries, limit, batch, threshold, now).0.Keys)
    decreases |batch|
  {
    hide Newest, Upsert;
    assert |entries| == |entries.Keys|;
    if batch != [] {
      var n := |batch| - 1;
      assert batch == batch[..n] + [batch[n]];
      FeedSize(entries, limit, batch[..n], threshold, now);
      NewestSnoc(batch[..n], batch[n]);
      KeysLast(entries, limit, batch, threshold, now);
      hide Feed, Keys, Filled;
      FilledSnoc(entries.Keys, Keys(batch[..n]), limit, Feed(entries, limit, batch[..n], threshold, now).0.Keys,
          batch[n].key);
    }
  }

  lemma {:induction false} FeedConcat(entries: Entries, limit: nat, a: seq<Advert>, b: seq<Advert>, threshold: int,
      now: int)
    ensures Feed(entries, limit, a + b, threshold, now).0 ==
            Feed(Feed(entries, limit, a, threshold, now).0, limit, b, threshold, now).0
    decreases |b|
  {
    if b == [] {
      assert a + b == a;
    } else {
      var n := |b| - 1;
      FeedConcat(entries, limit, a, b[..n], threshold, now);
      assert (a + b)[..|a + b| - 1] == a + b[..n];
    }
  }

  // ---- the main results -------------------------------------------------------------------------------------------

  /** With room for the batch, the shuffle changes nothing: not the final map, not which keys are queued.
      Each key's timestamp is the running maximum, and a new or stale key of the batch ends queued
      exactly when the filter is off or that maximum clears the threshold. */
  lemma ShuffleSafe(
    entries: Entries, limit: nat, batch: seq<Advert>, shuffled: seq<Advert>, net: AddrKey -> NetworkType,
    threshold: int, now: int)
    requires Consistent(batch, net) && Permutation(batch, shuffled) && Fits(entries, limit, batch)
    ensures var (after, queued) := Feed(entries, limit, batch, threshold, now);
            var (after', queued') := Feed(entries, limit, shuffled, threshold, now);
            after == after' && multiset(queued) == multiset(queued') &&
            after.Keys == entries.Keys + Keys(batch)
    ensures var (after, queued) := Feed(entries, limit, batch, threshold, now);
            forall k :: k in Keys(batch) && k in after ==>
              var newest := Newest(batch, k).value;
              after[k].freshestTs == (if k in entries then Max(entries[k].freshestTs, newest) else newest) &&
              (k in entries && entries[k].state != StaleDiscarded ==>
                after[k].state == entries[k].state && k !in queued) &&
              (k !in entries || entries[k].state == StaleDiscarded ==>
                (after[k].state == Queued <==> threshold <= 0 || after[k].freshestTs >= now - threshold) &&
                (k in queued <==> after[k].state == Queued))
  {
    hide Newest, Keys, Feed;
    SameMembers(batch, shuffled);
    FeedFits(entries, limit, batch, net, threshold, now);
    FeedFits(entries, limit, shuffled, net, threshold, now);
    var (after, queued) := Feed(entries, limit, batch, threshold, now);
    var (after', queued') := Feed(entries, limit, shuffled, threshold, now);
    OneOutcome(entries, batch, shuffled, net, threshold, now, entries.Keys + Keys(batch), after, queued, after',
        queued');
  }

  // ---- and only then ----------------------------------------------------------------------------------------------

  /** No shuffle of the batch changes the map it leaves, or the keys it enqueues. */
  ghost predicate OrderIrrelevant(entries: Entries, limit: nat, batch: seq<Advert>, threshold: int, now: int) {
    forall shuffled :: Permutation(batch, shuffled) ==>
      SameFeed(Feed(entries, limit, shuffled, threshold, now), Feed(entries, limit, batch, threshold, now))
  }

  predicate SameFeed(a: (Entries, seq<AddrKey>), b: (Entries, seq<AddrKey>)) {
    a.0 == b.0 && multiset(a.1) == multiset(b.1)
  }

  ghost function Only(batch: seq<Advert>, key: AddrKey): seq<Advert> {
    if batch == [] then []
    else
      var n := |batch| - 1;
      Only(batch[..n], key) + if batch[n].key == key then [batch[n]] else []
  }

  ghost function Others(batch: seq<Advert>, key: AddrKey): seq<Advert> {
    if batch == [] then []
    else
      var n := |batch| - 1;
      Others(batch[..n], key) + if batch[n].key == key then [] else [batch[n]]
  }

  lemma {:induction false} Divided(batch: seq<Advert>, key: AddrKey)
    ensures multiset(Only(batch, key)) + multiset(Others(batch, key)) == multiset(batch)
    ensures forall a :: a in Only(batch, key) <==> a in batch && a.key == key
    ensures forall a :: a in Others(batch, key) <==> a in batch && a.key != key
  {
    if batch != [] {
      var n := |batch| - 1;
      Divided(batch[..n], key);
      assert batch == batch[..n] + [batch[n]];
    }
  }

  lemma AllButOne(base: set<AddrKey>, all: set<AddrKey>, key: AddrKey)
    requires key in all
    ensures |base + (all - {key})| + 1 >= |base + all|
  {
    SubsetSize(base + all, (base + (all - {key})) + {key});
  }

  lemma DividedKeys(batch: seq<Advert>, key: AddrKey)
    requires key in Keys(batch)
    ensures Keys(Only(batch, key)) == {key} && Keys(Others(batch, key)) == Keys(batch) - {key}
  {
    Divided(batch, key);
    hide Only, Others, Newest;
    forall k ensures k in Keys(Others(batch, key)) <==> k in Keys(batch) - {key} {
      if k in Keys(Others(batch, key)) {
        var a :| a in Others(batch, key) && a.key == k;
      }
      if k in Keys(batch) - {key} {
        var a :| a in batch && a.key == k;
        assert a in Others(batch, key);
      }
    }
    var mine :| mine in batch && mine.key == key;
    assert mine in Only(batch, key);
  }

  lemma ConsistentParts(batch: seq<Advert>, part: seq<Advert>, rest: seq<Advert>, net: AddrKey -> NetworkType)
    requires Consistent(batch, net) && Permutation(batch, part + rest)
    ensures Consistent(part, net) && Consistent(rest, net)
  {
    SameMembers(batch, part + rest);
    assert forall a :: a in part ==> a in part + rest;
    assert forall a :: a in rest ==> a in part + rest;
  }

  lemma KeyFirst(
    entries: Entries, limit: nat, mine: seq<Advert>, others: seq<Advert>, threshold: int, now: int, key: AddrKey)
    requires |entries| < limit && Keys(mine) == {key} && key !in entries
    ensures key in Feed(entries, limit, mine + others, threshold, now).0
  {
    hide Newest, Feed, Keys;
    FeedSize(entries, limit, mine, threshold, now);
    FeedConcat(entries, limit, mine, others, threshold, now);
    var alone := Feed(entries, limit, mine, threshold, now).0;
    OneKey(entries, mine, key, alone, limit);
    FeedSize(alone, limit, others, threshold, now);
  }

  lemma KeyLast(
    entries: Entries, limit: nat, mine: seq<Advert>, others: seq<Advert>, net: AddrKey -> NetworkType,
    threshold: int, now: int, key: AddrKey)
    requires |entries| < limit && Consistent(mine, net) && key !in entries && key !in Keys(others)
    requires |entries.Keys + Keys(others)| >= limit
    ensures key !in Feed(entries, limit, others + mine, threshold, now).0
  {
    hide Newest, Feed, Keys;
    FeedSize(entries, limit, others, threshold, now);
    FeedConcat(entries, limit, others, mine, threshold, now);
    var full := Feed(entries, limit, others, threshold, now).0;
    assert |full| == |full.Keys|;
    FeedFull(full, limit, mine, net, threshold, now);
  }

  /** When the batch overflows the address budget, any new key may be let in, or left out. */
  lemma OrderMatters(
    entries: Entries, limit: nat, batch: seq<Advert>, net: AddrKey -> NetworkType, threshold: int, now: int,
    key: AddrKey)
    returns (first: seq<Advert>, last: seq<Advert>)
    requires Consistent(batch, net) && |entries| < limit && !Fits(entries, limit, batch)
    requires key in Keys(batch) && key !in entries
    ensures Permutation(batch, first) && key in Feed(entries, limit, first, threshold, now).0
    ensures Permutation(batch, last) && key !in Feed(entries, limit, last, threshold, now).0
  {
    hide Newest, Feed;
    var mine, others := Only(batch, key), Others(batch, key);
    hide Keys, Only, Others, Consistent;
    Divided(batch, key);
    DividedKeys(batch, key);
    AllButOne(entries.Keys, Keys(batch), key);
    first, last := mine + others, others + mine;
    ConsistentParts(batch, others, mine, net);
    KeyFirst(entries, limit, mine, others, threshold, now, key);
    KeyLast(entries, limit, mine, others, net, threshold, now, key);
  }

  lemma OneKey(entries: Entries, mine: seq<Advert>, key: AddrKey, after: Entries, limit: nat)
    requires Keys(mine) == {key} && key !in entries && |entries| < limit
    requires entries.Keys <= after.Keys <= entries.Keys + Keys(mine)
    requires after.Keys == entries.Keys + Keys(mine) || |after| == limit
    ensures key in after
  {
    assert |entries| == |entries.Keys| && |after| == |after.Keys|;
    assert key !in after ==> after.Keys == entries.Keys;
  }

  /** The shuffle is harmless exactly when the budget admits the whole batch or no new address at all. */
  lemma OrderIrrelevantExactly(
    entries: Entries, limit: nat, batch: seq<Advert>, net: AddrKey -> NetworkType, threshold: int, now: int)
    requires Consistent(batch, net) && |entries| <= limit
    ensures OrderIrrelevant(entries, limit, batch, threshold, now) <==>
              Fits(entries, limit, batch) || |entries| == limit
  {
    hide Newest, Keys, Feed;
    forall shuffled | Permutation(batch, shuffled) && (Fits(entries, limit, batch) || |entries| == limit)
      ensures SameFeed(Feed(entries, limit, shuffled, threshold, now), Feed(entries, limit, batch, threshold, now))
    {
      SameMembers(batch, shuffled);
      if Fits(entries, limit, batch) {
        ShuffleSafe(entries, limit, batch, shuffled, net, threshold, now);
      } else {
        FeedFull(entries, limit, batch, net, threshold, now);
        FeedFull(entries, limit, shuffled, net, threshold, now);
        var (after, queued) := Feed(entries, limit, batch, threshold, now);
        var (after', queued') := Feed(entries, limit, shuffled, threshold, now);
        OneOutcome(entries, batch, shuffled, net, threshold, now, entries.Keys, after, queued, after', queued');
      }
    }
    if !Fits(entries, limit, batch) && |entries| < limit {
      var key := Newcomer(entries, limit, batch);
      var first, last := OrderMatters(entries, limit, batch, net, threshold, now, key);
    }
  }

  lemma Newcomer(entries: Entries, limit: nat, batch: seq<Advert>) returns (key: AddrKey)
    requires |entries| <= limit && !Fits(entries, limit, batch)
    ensures key in Keys(batch) && key !in entries
  {
    assert |entries| == |entries.Keys|;
    assert Keys(batch) <= entries.Keys ==> entries.Keys + Keys(batch) == entries.Keys;
    key :| key in Keys(batch) && key !in entries;
  }
}
