/** The aggregates kept for each address, and the log: what every step of `Observation` keeps of
    their agreement. */
module ObservationAggregates {
  import opened Base
  import opened Network
  import opened NodeStore
  import opened AddrMessages
  import opened ObservationRecords
  import opened Observation
  import opened ObservationInvariant
  import opened Tally

  // ---- sums ----------------------------------------------------------------------------------------------

  /** The two aggregates that add up. */
  datatype Figure = Advertised | Malformed

  /** What a record adds to a figure of an address. */
  function Adds(f: Figure, k: AddrKey, r: Record): nat {
    if r.responder != k then 0
    else
      match f
      case Advertised => if r.Block? then r.message.declaredCount else 0
      case Malformed => if r.MalformedResponse? then 1 else 0
  }

  ghost function RecordAdds(f: Figure, k: AddrKey): Record -> nat { r => Adds(f, k, r) }

  ghost function ThreadAdds(f: Figure, k: AddrKey): Thread -> nat {
    t => match Pending(t) case Some(r) => Adds(f, k, r) case None => 0
  }

  function Held(f: Figure, entries: Entries, k: AddrKey): nat {
    if k !in entries then 0
    else
      match f
      case Advertised => entries[k].stats.advertisedTotal
      case Malformed => entries[k].stats.malformedAddrMessages
  }

  /** A figure is what the log adds up to, plus what is counted and not logged yet. */
  ghost predicate Balanced(s: State, f: Figure, k: AddrKey) {
    Held(f, s.entries, k) == Total(s.log, RecordAdds(f, k)) + Total(s.threads, ThreadAdds(f, k))
  }

  /** The observations under way can be recorded, the logged ones are about stored addresses,
      and a refused write has not gone unnoticed. */
  ghost predicate Sound(s: State) {
    (forall i :: 0 <= i < |s.threads| ==>
       (s.threads[i].Entered? ==> Recordable(s.entries, s.threads[i].task)) &&
       (Pending(s.threads[i]).Some? ==> Recordable(s.entries, Pending(s.threads[i]).value)) &&
       (s.threads[i].Posted? && s.threads[i].reply == Some(false) ==> s.writeFailed)) &&
    (forall j :: 0 <= j < |s.log| ==> s.log[j].responder in s.entries)
  }

  lemma UpsertKeys(entries: Entries, limit: nat, key: AddrKey, ts: int, network: NetworkType, threshold: int, now: int)
    ensures var after := Upsert(entries, limit, key, ts, network, threshold, now).0;
            after.Keys == if key in entries || |entries| < limit then entries.Keys + {key} else entries.Keys
  {}

  lemma UpsertRoom(entries: Entries, limit: nat, key: AddrKey, after: Entries)
    requires after.Keys == if key in entries || |entries| < limit then entries.Keys + {key} else entries.Keys
    ensures entries.Keys <= after.Keys && (after.Keys == entries.Keys || |after.Keys| <= limit)
  {
    assert |entries| == |entries.Keys|;
    assert key in entries ==> entries.Keys + {key} == entries.Keys;
  }

  /** One address seen by `Benign`. */
  predicate Raises(entries: Entries, after: Entries, k: AddrKey) {
    if k in entries then
      k in after && after[k].freshestTs >= entries[k].freshestTs && after[k].stats == entries[k].stats
    else k in after ==> Blank(after[k])
  }

  lemma RaisesBenign(entries: Entries, limit: nat, after: Entries)
    requires entries.Keys <= after.Keys && (after.Keys == entries.Keys || |after.Keys| <= limit)
    requires forall k :: Raises(entries, after, k)
    ensures Benign(limit, entries, after)
  {
    hide Blank;
    assert forall k :: k in after ==> Raises(entries, after, k);
  }

  lemma UpsertAt(
    entries: Entries, limit: nat, key: AddrKey, ts: int, network: NetworkType, threshold: int, now: int,
    after: Entries, k: AddrKey)
    requires after == Upsert(entries, limit, key, ts, network, threshold, now).0
    ensures Raises(entries, after, k)
  {
    hide TooOld;
  }

  lemma UpsertKeeps(entries: Entries, limit: nat, key: AddrKey, ts: int, network: NetworkType, threshold: int, now: int)
    ensures Benign(limit, entries, Upsert(entries, limit, key, ts, network, threshold, now).0)
  {
    hide Upsert, Raises, Benign;
    var after := Upsert(entries, limit, key, ts, network, threshold, now).0;
    UpsertKeys(entries, limit, key, ts, network, threshold, now);
    UpsertRoom(entries, limit, key, after);
    forall k ensures Raises(entries, after, k) {
      UpsertAt(entries, limit, key, ts, network, threshold, now, after, k);
    }
    RaisesBenign(entries, limit, after);
  }

  lemma BenignHeld(limit: nat, entries: Entries, entries': Entries, f: Figure, k: AddrKey)
    requires Benign(limit, entries, entries')
    ensures Held(f, entries', k) == Held(f, entries, k)
  {}

  lemma WorkerSound(cfg: Config, s: State, e: Event, i: nat, s': State)
    requires Sound(s) && WorkerStep(cfg, s, e, i) == Some(s')
    ensures Sound(s') && s.entries.Keys <= s'.entries.Keys
  {
    hide Enabled, Upsert, Recorded;
    if e.Feed? && s.threads[i].Feeding? {
      var a := s.threads[i].todo[e.j];
      UpsertKeeps(s.entries, cfg.limit, KeyOf(a), a.timestamp, a.network, cfg.threshold, s.threads[i].now);
    }
  }

  lemma WriterSound(s: State, ok: bool, s': State)
    requires Locks(s) && Sound(s) && WriterStep(s, ok) == Some(s')
    ensures Sound(s') && s'.entries == s.entries
  {
    hide Written;
  }

  lemma WorkerBalanced(cfg: Config, s: State, e: Event, i: nat, s': State, f: Figure, k: AddrKey)
    requires Sound(s) && Balanced(s, f, k) && WorkerStep(cfg, s, e, i) == Some(s')
    ensures Balanced(s', f, k)
  {
    hide Enabled, Upsert, Total;
    TotalUpdate(s.threads, i, s'.threads[i], ThreadAdds(f, k));
    if e.Feed? && s.threads[i].Feeding? {
      var a := s.threads[i].todo[e.j];
      UpsertKeeps(s.entries, cfg.limit, KeyOf(a), a.timestamp, a.network, cfg.threshold, s.threads[i].now);
      BenignHeld(cfg.limit, s.entries, s'.entries, f, k);
    }
  }

  lemma TotalSnoc(log: seq<Record>, r: Record, f: Record -> nat)
    ensures Total(log + [r], f) == Total(log, f) + f(r)
  {
    assert (log + [r])[..|log|] == log;
  }

  lemma WriterBalanced(s: State, ok: bool, s': State, f: Figure, k: AddrKey)
    requires Locks(s) && Balanced(s, f, k) && WriterStep(s, ok) == Some(s') && !s'.writeFailed
    ensures Balanced(s', f, k)
  {
    hide Written, Total;
    match s.channel[0]
    case Append(i, record) =>
      TotalUpdate(s.threads, i, s'.threads[i], ThreadAdds(f, k));
      TotalSnoc(s.log, record, RecordAdds(f, k));
    case Flush =>
  }

  // ---- outcomes ------------------------------------------------------------------------------------------

  predicate Says(r: Record, k: AddrKey, o: CollectionOutcome) {
    r.RequestOutcome? && r.responder == k && r.outcome == o
  }

  ghost predicate Logged(log: seq<Record>, k: AddrKey, o: CollectionOutcome) {
    exists j :: 0 <= j < |log| && Says(log[j], k, o)
  }

  ghost predicate OnItsWay(threads: seq<Thread>, k: AddrKey, o: CollectionOutcome) {
    exists i :: 0 <= i < |threads| && Pending(threads[i]).Some? && Says(Pending(threads[i]).value, k, o)
  }

  function OutcomeAt(entries: Entries, k: AddrKey): CollectionOutcome {
    if k in entries then entries[k].stats.collectionOutcome else NotRequested
  }

  /** An outcome is stored only with a record of it, logged or on its way; and none is recorded while none is stored. */
  ghost predicate OutcomesMatch(s: State, k: AddrKey) {
    var stored := OutcomeAt(s.entries, k);
    (stored != NotRequested ==> Logged(s.log, k, stored) || OnItsWay(s.threads, k, stored)) &&
    (forall o :: Logged(s.log, k, o) || OnItsWay(s.threads, k, o) ==> stored != NotRequested)
  }

  lemma WorkerOutcomes(cfg: Config, s: State, e: Event, i: nat, s': State, k: AddrKey)
    requires Sound(s) && OutcomesMatch(s, k) && WorkerStep(cfg, s, e, i) == Some(s')
    ensures OutcomesMatch(s', k)
  {
    hide Enabled, Upsert;
    if e.Count? {
      var task := s.threads[i].task;
      CountOnItsWay(s, i, task, s', k);
    } else {
      forall o ensures OnItsWay(s'.threads, k, o) <==> OnItsWay(s.threads, k, o) {
        SameOnItsWay(s, i, s', k, o);
      }
      if e.Feed? && s.threads[i].Feeding? {
        var a := s.threads[i].todo[e.j];
        UpsertKeeps(s.entries, cfg.limit, KeyOf(a), a.timestamp, a.network, cfg.threshold, s.threads[i].now);
      }
    }
  }

  lemma SameOnItsWay(s: State, i: nat, s': State, k: AddrKey, o: CollectionOutcome)
    requires i < |s.threads| == |s'.threads| && s'.threads == s.threads[i := s'.threads[i]]
    requires Pending(s'.threads[i]).Some? <==> Pending(s.threads[i]).Some?
    requires Pending(s.threads[i]).Some? ==>
               forall o :: Says(Pending(s.threads[i]).value, k, o) <==> Says(Pending(s'.threads[i]).value, k, o)
    ensures OnItsWay(s'.threads, k, o) <==> OnItsWay(s.threads, k, o)
  {
    if OnItsWay(s.threads, k, o) {
      var j :| 0 <= j < |s.threads| && Pending(s.threads[j]).Some? && Says(Pending(s.threads[j]).value, k, o);
      assert Pending(s'.threads[j]).Some? && Says(Pending(s'.threads[j]).value, k, o);
    }
    if OnItsWay(s'.threads, k, o) {
      var j :| 0 <= j < |s'.threads| && Pending(s'.threads[j]).Some? && Says(Pending(s'.threads[j]).value, k, o);
      assert Pending(s.threads[j]).Some? && Says(Pending(s.threads[j]).value, k, o);
    }
  }

  lemma CountOnItsWay(s: State, i: nat, task: Record, s': State, k: AddrKey)
    requires i < |s.threads| && s.threads[i] == Entered(task) && Recordable(s.entries, task) && OutcomesMatch(s, k)
    requires s'.threads == s.threads[i := Counted(task)] && s'.log == s.log
    requires s'.entries == s.entries[task.responder := Recorded(s.entries[task.responder], task)]
    ensures OutcomesMatch(s', k)
  {
    var stored := OutcomeAt(s.entries, k);
    forall o ensures OnItsWay(s'.threads, k, o) <==> OnItsWay(s.threads, k, o) || Says(task, k, o) {
      if OnItsWay(s.threads, k, o) {
        var j :| 0 <= j < |s.threads| && Pending(s.threads[j]).Some? && Says(Pending(s.threads[j]).value, k, o);
        assert Pending(s'.threads[j]).Some?;
      }
      if Says(task, k, o) {
        assert Pending(s'.threads[i]) == Some(task);
      }
      if OnItsWay(s'.threads, k, o) {
        var j :| 0 <= j < |s'.threads| && Pending(s'.threads[j]).Some? && Says(Pending(s'.threads[j]).value, k, o);
        assert j != i ==> Pending(s.threads[j]).Some?;
      }
    }
  }

  lemma WriterOutcomes(s: State, ok: bool, s': State, k: AddrKey)
    requires Locks(s) && OutcomesMatch(s, k) && WriterStep(s, ok) == Some(s') && !s'.writeFailed
    ensures OutcomesMatch(s', k)
  {
    hide Written, MutexExact;
    if s.channel[0].Append? {
      var i, r := s.channel[0].from, s.channel[0].record;
      assert s.threads[i] == Posted(r, None);
      forall o ensures Logged(s'.log, k, o) || OnItsWay(s'.threads, k, o) <==>
          Logged(s.log, k, o) || OnItsWay(s.threads, k, o) {
        Handover(s, i, r, s', k, o);
      }
    }
  }

  lemma LoggedSnoc(log: seq<Record>, r: Record, k: AddrKey, o: CollectionOutcome)
    ensures Logged(log + [r], k, o) <==> Logged(log, k, o) || Says(r, k, o)
  {
    hide Says;
    if Logged(log, k, o) {
      var j :| 0 <= j < |log| && Says(log[j], k, o);
      assert Says((log + [r])[j], k, o);
    }
    if Says(r, k, o) {
      assert Says((log + [r])[|log|], k, o);
    }
  }

  lemma Handover(s: State, i: nat, r: Record, s': State, k: AddrKey, o: CollectionOutcome)
    requires i < |s.threads| && s.threads[i] == Posted(r, None)
    requires s'.threads == s.threads[i := Posted(r, Some(true))] && s'.log == s.log + [r]
    ensures Logged(s'.log, k, o) || OnItsWay(s'.threads, k, o) <==> Logged(s.log, k, o) || OnItsWay(s.threads, k, o)
  {
    hide Says, Logged;
    LoggedSnoc(s.log, r, k, o);
    assert Pending(s.threads[i]) == Some(r);
    if OnItsWay(s.threads, k, o) {
      var j :| 0 <= j < |s.threads| && Pending(s.threads[j]).Some? && Says(Pending(s.threads[j]).value, k, o);
      assert j != i ==> Pending(s'.threads[j]).Some?;
    }
    if OnItsWay(s'.threads, k, o) {
      var j :| 0 <= j < |s'.threads| && Pending(s'.threads[j]).Some? && Says(Pending(s'.threads[j]).value, k, o);
      assert j != i && Pending(s.threads[j]).Some?;
    }
  }

  // ---- timestamps -------------------------------------------------------------------------------------------

  /** The address is stored at least as fresh as advertised, or there is no room for it. */
  predicate Fed(cfg: Config, entries: Entries, a: AdvertisedAddr) {
    if KeyOf(a) in entries then entries[KeyOf(a)].freshestTs >= a.timestamp else |entries| >= cfg.limit
  }

  /** The thread has yet to feed the address to the frontier. */
  predicate Owes(cfg: Config, t: Thread, a: AdvertisedAddr) {
    match t
    case Posted(task, _) => task.Block? && a in Enabled(cfg, task.message.addrs)
    case Feeding(todo, _) => a in todo
    case _ => false
  }

  predicate Advertises(cfg: Config, r: Record, a: AdvertisedAddr) {
    r.Block? && a in Enabled(cfg, r.message.addrs)
  }

  ghost predicate Frontiered(cfg: Config, s: State, a: AdvertisedAddr) {
    (exists j :: 0 <= j < |s.log| && Advertises(cfg, s.log[j], a)) ==>
      Fed(cfg, s.entries, a) || exists i :: 0 <= i < |s.threads| && Owes(cfg, s.threads[i], a)
  }

  lemma FedStays(cfg: Config, entries: Entries, entries': Entries, a: AdvertisedAddr)
    requires Benign(cfg.limit, entries, entries') && Fed(cfg, entries, a)
    ensures Fed(cfg, entries', a)
  {
    assert |entries| == |entries.Keys| && |entries'| == |entries'.Keys|;
    if KeyOf(a) !in entries && entries'.Keys != entries.Keys {
      SubsetSame(entries.Keys, entries'.Keys);
    }
  }

  lemma UpsertFeeds(cfg: Config, entries: Entries, a: AdvertisedAddr, now: int)
    ensures Fed(cfg, Upsert(entries, cfg.limit, KeyOf(a), a.timestamp, a.network, cfg.threshold, now).0, a)
  {
    hide TooOld;
  }

  lemma OweOthers(cfg: Config, todo: seq<AdvertisedAddr>, j: nat, now: int, a: AdvertisedAddr)
    requires j < |todo| && a in todo && a != todo[j]
    ensures a in todo[..j] + todo[j + 1..]
  {
    var i :| 0 <= i < |todo| && todo[i] == a;
    if i < j {
      assert (todo[..j] + todo[j + 1..])[i] == a;
    } else {
      assert (todo[..j] + todo[j + 1..])[i - 1] == a;
    }
  }

  lemma WorkerFrontier(cfg: Config, s: State, e: Event, i: nat, s': State, a: AdvertisedAddr)
    requires Sound(s) && Frontiered(cfg, s, a) && WorkerStep(cfg, s, e, i) == Some(s') && !s'.writeFailed
    ensures Frontiered(cfg, s', a)
  {
    if exists j :: 0 <= j < |s.log| && Advertises(cfg, s.log[j], a) {
      if Fed(cfg, s.entries, a) {
        WorkerFed(cfg, s, e, i, s', a);
      } else {
        var j :| 0 <= j < |s.threads| && Owes(cfg, s.threads[j], a);
        if j == i {
          WorkerOwes(cfg, s, e, i, s', a);
        } else {
          assert s'.threads[j] == s.threads[j];
        }
      }
    }
  }

  lemma WorkerBenign(cfg: Config, s: State, e: Event, i: nat, s': State)
    requires WorkerStep(cfg, s, e, i) == Some(s') && !e.Count?
    ensures Benign(cfg.limit, s.entries, s'.entries)
  {
    hide Enabled, Upsert;
    if e.Feed? && s.threads[i].Feeding? {
      var a := s.threads[i].todo[e.j];
      UpsertKeeps(s.entries, cfg.limit, KeyOf(a), a.timestamp, a.network, cfg.threshold, s.threads[i].now);
    }
  }

  lemma WorkerFed(cfg: Config, s: State, e: Event, i: nat, s': State, a: AdvertisedAddr)
    requires Fed(cfg, s.entries, a) && WorkerStep(cfg, s, e, i) == Some(s')
    ensures Fed(cfg, s'.entries, a)
  {
    hide Enabled, Upsert;
    if !e.Count? {
      WorkerBenign(cfg, s, e, i, s');
      FedStays(cfg, s.entries, s'.entries, a);
    } else {
      var task := s.threads[i].task;
      assert task.responder in s.entries ==>
          |s.entries[task.responder := Recorded(s.entries[task.responder], task)]| == |s.entries|;
    }
  }

  lemma WorkerOwes(cfg: Config, s: State, e: Event, i: nat, s': State, a: AdvertisedAddr)
    requires Sound(s) && WorkerStep(cfg, s, e, i) == Some(s') && !s'.writeFailed && Owes(cfg, s.threads[i], a)
    ensures Fed(cfg, s'.entries, a) || Owes(cfg, s'.threads[i], a)
  {
    hide Enabled, Upsert, Fed;
    if e.Feed? && s.threads[i].Feeding? {
      var todo, now := s.threads[i].todo, s.threads[i].now;
      if todo[e.j] == a {
        UpsertFeeds(cfg, s.entries, a, now);
      } else {
        OweOthers(cfg, todo, e.j, now, a);
      }
    }
  }

  lemma WriterFrontier(cfg: Config, s: State, ok: bool, s': State, a: AdvertisedAddr)
    requires Locks(s) && Frontiered(cfg, s, a) && WriterStep(s, ok) == Some(s') && !s'.writeFailed
    ensures Frontiered(cfg, s', a)
  {
    hide Written, MutexExact, Enabled, Fed;
    if s.channel[0].Append? {
      var i, r := s.channel[0].from, s.channel[0].record;
      assert s.threads[i] == Posted(r, None) && s'.threads[i] == Posted(r, Some(true));
      if exists j :: 0 <= j < |s'.log| && Advertises(cfg, s'.log[j], a) {
        var j :| 0 <= j < |s'.log| && Advertises(cfg, s'.log[j], a);
        if j == |s.log| {
          assert Owes(cfg, s'.threads[i], a);
        } else {
          assert Advertises(cfg, s.log[j], a);
          if !Fed(cfg, s.entries, a) {
            var l :| 0 <= l < |s.threads| && Owes(cfg, s.threads[l], a);
            assert Owes(cfg, s'.threads[l], a);
          }
        }
      }
    }
  }
}
