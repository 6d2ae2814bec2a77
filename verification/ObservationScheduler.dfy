/** The scheduler leaves the recorded aggregates alone: to the observation log its steps are the ones that
    happen elsewhere, so what holds at checkpoints holds whatever the workers do between observations. */
module ObservationScheduler {
  import opened Base
  import opened Network
  import opened NodeStore
  import opened Scheduler
  import Observation
  import ObservationAggregates

  /** The event is an observation: addresses declared, a malformed message, or how a collection went. */
  predicate Records(c: Config, ev: Event) {
    (ev.Tally? && (ev.declared > 0 || ev.bad > 0)) || (ev.GossipDone? && !c.probeMode)
  }

  /** The entry keeps its aggregates and its timestamp. */
  predicate Unrecorded(e: NodeEntry, e': NodeEntry) {
    e'.freshestTs == e.freshestTs && e'.stats.advertisedTotal == e.stats.advertisedTotal &&
    e'.stats.malformedAddrMessages == e.stats.malformedAddrMessages &&
    e'.stats.collectionOutcome == e.stats.collectionOutcome
  }

  lemma PutBenign(limit: nat, entries: Entries, k: AddrKey, e: NodeEntry)
    requires k in entries && Unrecorded(entries[k], e)
    ensures Observation.Benign(limit, entries, entries[k := e])
  {
    assert entries[k := e].Keys == entries.Keys;
  }

  lemma ObserveBenign(entries: Entries, limit: nat, key: AddrKey, network: NetworkType, now: int)
    ensures Observation.Benign(limit, entries, Observe(entries, limit, key, network, now).0)
  {
    var after := Observe(entries, limit, key, network, now).0;
    assert |entries| == |entries.Keys|;
    if key in entries {
      assert after.Keys == entries.Keys;
    } else if |entries| < limit {
      assert after.Keys == entries.Keys + {key};
    }
  }

  lemma AdvanceUnrecorded(c: Config, e: NodeEntry, pc: Pc, ev: Event)
    requires Advance(c, e, pc, ev).Some?
    ensures Unrecorded(e, Advance(c, e, pc, ev).value.0)
  {}

  lemma ProcessBenign(c: Config, s: State, i: nat, ev: Event)
    requires i < |s.threads| && Process(c, s, i, ev).Some?
    ensures Observation.Benign(c.maxAddresses, s.entries, Process(c, s, i, ev).value.entries)
  {
    hide Advance;
    var k := KeyOf(s.threads[i].pc).value;
    AdvanceUnrecorded(c, s.entries[k], s.threads[i].pc, ev);
    hide Unrecorded, Observation.Benign;
    PutBenign(c.maxAddresses, s.entries, k, Advance(c, s.entries[k], s.threads[i].pc, ev).value.0);
  }

  lemma CallBenign(c: Config, s: State, i: nat)
    requires i < |s.threads| && s.threads[i].call != NoCall
    ensures Observation.Benign(c.maxAddresses, s.entries, EnqueueStep(c, s, i).entries)
  {
    hide Queues.TrySend, Observation.Benign;
    var k := s.threads[i].call.child;
    SameBenign(c.maxAddresses, s.entries);
    if k in s.entries {
      PutBenign(c.maxAddresses, s.entries, k, s.entries[k].(state := BudgetDiscarded));
    }
  }

  lemma SameBenign(limit: nat, entries: Entries)
    ensures Observation.Benign(limit, entries, entries)
  {}

  lemma FinishBenign(c: Config, s: State, i: nat, k: AddrKey, terminal: NodeState, reason: Option<FailKind>)
    requires i < |s.threads|
    ensures Observation.Benign(c.maxAddresses, s.entries, Finish(s, i, k, terminal, reason).entries)
  {
    hide Observation.Benign;
    SameBenign(c.maxAddresses, s.entries);
    if k in s.entries {
      PutBenign(c.maxAddresses, s.entries, k, s.entries[k].(state := terminal, failure := reason));
    }
  }

  lemma DiscoverBenign(c: Config, s: State, i: nat, ev: Event)
    requires i < |s.threads| && s.threads[i].pc.Discovering? && Discover(c, s, i, ev).Some?
    requires !Records(c, ev)
    ensures Observation.Benign(c.maxAddresses, s.entries, Discover(c, s, i, ev).value.entries)
  {
    hide Observation.Benign, Upsert;
    SameBenign(c.maxAddresses, s.entries);
    if ev.Gossip? {
      ObservationAggregates.UpsertKeeps(
        s.entries, c.maxAddresses, ev.key, ev.ts, ev.network, c.freshnessThreshold, ev.now);
    } else {
      var k := s.threads[i].pc.key;
      PutBenign(c.maxAddresses, s.entries, k, Note(c, s.entries[k], k, ev).value.0);
    }
  }

  lemma WorkerBenign(c: Config, s: State, s': State, i: nat, t: Transport, ev: Event)
    requires i < |s.threads| && WorkerStep(c, s, i, t, ev) == Some(s') && !Records(c, ev)
    ensures Observation.Benign(c.maxAddresses, s.entries, s'.entries)
  {
    hide Process, Discover, Finish, Queues.TrySend, Observation.Benign;
    SameBenign(c.maxAddresses, s.entries);
    match s.threads[i].pc
    case Finishing(k, terminal, reason) => FinishBenign(c, s, i, k, terminal, reason);
    case Discovering(_) => DiscoverBenign(c, s, i, ev);
    case Idle =>
    case Received(_) =>
    case Refused(_) =>
    case Decrementing(_, _) =>
    case Resending(_, _, _) =>
    case _ => ProcessBenign(c, s, i, ev);
  }

  /** Every step of the scheduler but an observation, in every state. */
  lemma StepBenign(c: Config, s: State, s': State, i: nat, ev: Event)
    requires i < |s.threads| && Step(c, s, i, ev) == Some(s') && !Records(c, ev)
    ensures Observation.Benign(c.maxAddresses, s.entries, s'.entries)
  {
    hide WorkerStep, EnqueueStep, Observe, Observation.Benign;
    SameBenign(c.maxAddresses, s.entries);
    var th := s.threads[i];
    if th.call != NoCall {
      CallBenign(c, s, i);
    } else if th.role.Worker? && !th.pc.Closing? {
      WorkerBenign(c, s, s', i, th.role.t, ev);
    } else if ev.Seed? {
      ObserveBenign(s.entries, c.maxAddresses, ev.key, ev.network, ev.now);
    }
  }
}
