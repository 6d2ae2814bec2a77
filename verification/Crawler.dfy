/** The crawler's own methods (src/crawler.rs), updating its queues and counters in place. Each call, by whatever
    thread of whatever crawl, is that thread's part of a run of the scheduler: steps of its own with no other thread
    in between. What holds of every run holds after them. */
module Crawler {
  import opened Base
  import opened Network
  import opened NodeStore
  import opened Scheduler
  import opened SchedulerInvariant
  import opened SchedulerCounting
  import opened SchedulerTheorems
  import opened Tally
  import opened Frontier

  /** The state after thread `i` takes its next steps in a row. */
  function Alone(c: Config, i: nat, s: State, events: seq<Event>): Option<State>
    decreases |events|
  {
    if events == [] then Some(s)
    else
      var n := |events| - 1;
      match Alone(c, i, s, events[..n])
      case None => None
      case Some(before) => if i < |before.threads| then Step(c, before, i, events[n]) else None
  }

  /** Steps of thread `i` lead from `s` to `s'`. */
  ghost predicate Leads(c: Config, i: nat, s: State, s': State) {
    exists events :: Alone(c, i, s, events) == Some(s')
  }

  lemma LeadsNowhere(c: Config, i: nat, s: State)
    ensures Leads(c, i, s, s)
  {
    assert Alone(c, i, s, []) == Some(s);
  }

  lemma LeadsOn(c: Config, i: nat, s: State, m: State, ev: Event, s': State)
    requires Leads(c, i, s, m) && i < |m.threads| && Step(c, m, i, ev) == Some(s')
    ensures Leads(c, i, s, s')
  {
    hide Step;
    var events :| Alone(c, i, s, events) == Some(m);
    var more := events + [ev];
    assert more[..|more| - 1] == events;
    assert Alone(c, i, s, more) == Some(s');
  }

  lemma {:induction false} LeadsFar(c: Config, i: nat, s: State, m: State, events: seq<Event>, s': State)
    requires Leads(c, i, s, m) && Alone(c, i, m, events) == Some(s')
    ensures Leads(c, i, s, s')
    decreases |events|
  {
    hide Step;
    if events != [] {
      var n := |events| - 1;
      var before := Alone(c, i, m, events[..n]).value;
      LeadsFar(c, i, s, m, events[..n], before);
      LeadsOn(c, i, s, before, events[n], s');
    }
  }

  lemma LeadsThrough(c: Config, i: nat, s: State, m: State, s': State)
    requires Leads(c, i, s, m) && Leads(c, i, m, s')
    ensures Leads(c, i, s, s')
  {
    var events :| Alone(c, i, m, events) == Some(s');
    LeadsFar(c, i, s, m, events, s');
  }

  /** Such steps are steps of a run: what holds of every state that occurs holds after them too. */
  lemma LeadsOccurs(c: Config, i: nat, s: State, s': State)
    requires Occurs(c, s) && Leads(c, i, s, s')
    ensures Occurs(c, s')
  {
    var events :| Alone(c, i, s, events) == Some(s');
    AloneOccurs(c, i, s, events, s');
  }

  lemma {:induction false} AloneOccurs(c: Config, i: nat, s: State, events: seq<Event>, s': State)
    requires Occurs(c, s) && Alone(c, i, s, events) == Some(s')
    ensures Occurs(c, s')
    decreases |events|
  {
    hide Step;
    if events != [] {
      var n := |events| - 1;
      var before := Alone(c, i, s, events[..n]).value;
      AloneOccurs(c, i, s, events[..n], before);
      var schedule :| RunFrom(c, Init(c), schedule) == Some(before);
      var more := schedule + [Choice(i, events[n])];
      assert more[..|more| - 1] == schedule;
      assert RunFrom(c, Init(c), more) == Some(s');
    }
  }

  // ---- what each call makes of the state -------------------------------------------------------------------

  /** Thread `i` is in no call. */
  predicate Free(s: State, i: nat) { i < |s.threads| && s.threads[i].call == NoCall }

  /** Thread `i` is a worker of a running crawl, in no call. */
  predicate Working(s: State, i: nat) { Free(s, i) && i > 0 && s.Running() && s.threads[i].role.Worker? }

  function CloseAll(qs: Queues): Queues { qs.Close(OverIp).Close(OverTor).Close(OverI2p) }

  /** `enqueue` of a key already marked in the store: counted and sent, or given up as if never counted. */
  function Enqueued(c: Config, s: State, key: AddrKey): State
    requires key in s.entries
  {
    match s.queues.TrySend(s.entries[key].network.Carrier(), key, c.maxAddresses)
    case Some(qs) => s.(outstanding := Wrap(s.outstanding + 1), queues := qs)
    case None =>
      s.(outstanding := Wrap(Wrap(s.outstanding + 1) - 1),
         entries := s.entries[key := s.entries[key].(state := BudgetDiscarded)])
  }

  /** `finish`: the entry ends once, and the last one to end closes the queues. */
  function Finished(s: State, key: AddrKey, terminal: NodeState, reason: Option<FailKind>): State {
    if key in s.entries && s.entries[key].Active() then
      s.(entries := s.entries[key := s.entries[key].(state := terminal, failure := reason)],
         outstanding := Wrap(s.outstanding - 1),
         queues := if s.outstanding == 1 then CloseAll(s.queues) else s.queues)
    else s
  }

  /** `requeue`: back to its queue, or finished when that is closed. */
  function Requeued(c: Config, s: State, t: Transport, key: AddrKey, terminal: NodeState,
      reason: Option<FailKind>): State
    requires key in s.entries
  {
    Resent(c, s.(entries := s.entries[key := s.entries[key].(state := Queued)]), t, key, terminal, reason)
  }

  function Resent(c: Config, s: State, t: Transport, key: AddrKey, terminal: NodeState,
      reason: Option<FailKind>): (r: State)
    ensures r.threads == s.threads
  {
    match s.queues.TrySend(t, key, c.maxAddresses)
    case Some(qs) => s.(queues := qs)
    case None => Finished(s, key, terminal, reason)
  }

  // ---- and that it is a run of small steps --------------------------------------------------------------------

  lemma OneStep(c: Config, i: nat, s: State, ev: Event, s': State)
    requires i < |s.threads| && Step(c, s, i, ev) == Some(s')
    ensures Leads(c, i, s, s')
  {
    hide Step;
    LeadsNowhere(c, i, s);
    LeadsOn(c, i, s, s, ev, s');
  }

  lemma CallStep(c: Config, i: nat, s: State, call: Call, s': State)
    requires i < |s.threads| && call != NoCall && s' == EnqueueStep(c, s.InCall(i, call), i)
    ensures Leads(c, i, s.InCall(i, call), s')
  {
    hide EnqueueStep;
    OneStep(c, i, s.InCall(i, call), Tau, s');
  }

  lemma NoCallSame(s: State, i: nat)
    requires Free(s, i)
    ensures s.InCall(i, NoCall) == s
  {
    assert s.threads[i := s.threads[i]] == s.threads;
  }

  lemma EnqueueLeads(c: Config, i: nat, s: State, key: AddrKey)
    requires Free(s, i) && key in s.entries
    ensures Leads(c, i, s.InCall(i, Marked(key)), Enqueued(c, s, key))
  {
    hide Leads;
    var start := s.InCall(i, Marked(key));
    var counted := s.(outstanding := Wrap(s.outstanding + 1));
    CallStep(c, i, s, Marked(key), counted.InCall(i, Counted(key)));
    var t := s.entries[key].network.Carrier();
    match s.queues.TrySend(t, key, c.maxAddresses)
    case Some(qs) =>
      NoCallSame(counted.(queues := qs), i);
      CallStep(c, i, counted, Counted(key), counted.(queues := qs).InCall(i, NoCall));
      LeadsThrough(c, i, start, counted.InCall(i, Counted(key)), Enqueued(c, s, key));
    case None => UndoLeads(c, i, s, key, counted);
  }

  /** A refused send is undone. */
  lemma UndoLeads(c: Config, i: nat, s: State, key: AddrKey, counted: State)
    requires Free(s, i) && key in s.entries && counted == s.(outstanding := Wrap(s.outstanding + 1))
    requires s.queues.TrySend(s.entries[key].network.Carrier(), key, c.maxAddresses) == None
    requires Leads(c, i, s.InCall(i, Marked(key)), counted.InCall(i, Counted(key)))
    ensures Leads(c, i, s.InCall(i, Marked(key)), Enqueued(c, s, key))
  {
    hide Leads;
    var start := s.InCall(i, Marked(key));
    var marked := counted.(entries := s.entries[key := s.entries[key].(state := BudgetDiscarded)]);
    NoCallSame(Enqueued(c, s, key), i);
    CallStep(c, i, counted, Counted(key), counted.InCall(i, Rejected(key)));
    CallStep(c, i, counted, Rejected(key), marked.InCall(i, Discarded(key)));
    CallStep(c, i, marked, Discarded(key), Enqueued(c, s, key).InCall(i, NoCall));
    LeadsThrough(c, i, start, counted.InCall(i, Counted(key)), counted.InCall(i, Rejected(key)));
    LeadsThrough(c, i, start, counted.InCall(i, Rejected(key)), marked.InCall(i, Discarded(key)));
    LeadsThrough(c, i, start, marked.InCall(i, Discarded(key)), Enqueued(c, s, key));
  }

  /** One step of the worker that moves it from `pc` to `next` and makes `s'` of the rest. */
  lemma MoveStep(c: Config, i: nat, s: State, pc: Pc, s': State, next: Pc)
    requires i < |s.threads| && s'.threads == s.threads
    requires Step(c, s.Go(i, pc), i, Tau) == Some(s'.(threads := s.Go(i, pc).threads).Go(i, next))
    ensures Leads(c, i, s.Go(i, pc), s'.Go(i, next))
  {
    hide Step;
    assert s'.(threads := s.Go(i, pc).threads).Go(i, next) == s'.Go(i, next);
    OneStep(c, i, s.Go(i, pc), Tau, s'.Go(i, next));
  }

  function CloseEach(qs: Queues, todo: seq<Transport>): Queues
    decreases |todo|
  {
    if todo == [] then qs else CloseEach(qs.Close(todo[0]), todo[1..])
  }

  lemma {:induction false} CloseLeads(c: Config, i: nat, s: State, todo: seq<Transport>)
    requires Working(s, i)
    ensures Leads(c, i, s.Go(i, Closing(todo)), s.(queues := CloseEach(s.queues, todo)).Go(i, Idle))
    decreases |todo|
  {
    hide Leads;
    var start := s.Go(i, Closing(todo));
    if todo == [] {
      MoveStep(c, i, s, Closing(todo), s, Idle);
    } else {
      var s' := s.(queues := s.queues.Close(todo[0]));
      MoveStep(c, i, s, Closing(todo), s', Closing(todo[1..]));
      CloseLeads(c, i, s', todo[1..]);
      LeadsThrough(c, i, start, s'.Go(i, Closing(todo[1..])), s.(queues := CloseEach(s.queues, todo)).Go(i, Idle));
    }
  }

  lemma CloseEachAll(qs: Queues)
    ensures CloseEach(qs, ALL_TRANSPORTS) == CloseAll(qs)
    ensures CloseEach(qs, ALL_TRANSPORTS + ALL_TRANSPORTS) == CloseAll(qs)
  {
    CloseEachThree(qs);
    CloseEachThree(CloseAll(qs));
    CloseEachConcat(qs, ALL_TRANSPORTS, ALL_TRANSPORTS);
  }

  lemma CloseEachThree(qs: Queues)
    ensures CloseEach(qs, ALL_TRANSPORTS) == CloseAll(qs)
  {
    var two, one := ALL_TRANSPORTS[1..], ALL_TRANSPORTS[2..];
    assert two[1..] == one && one[1..] == [];
    assert CloseEach(qs.Close(OverIp), two) == CloseEach(qs.Close(OverIp).Close(OverTor), one);
  }

  lemma {:induction false} CloseEachConcat(qs: Queues, a: seq<Transport>, b: seq<Transport>)
    ensures CloseEach(qs, a + b) == CloseEach(CloseEach(qs, a), b)
    decreases |a|
  {
    if a == [] {
      assert a + b == b;
    } else {
      assert (a + b)[1..] == a[1..] + b;
      CloseEachConcat(qs.Close(a[0]), a[1..], b);
    }
  }

  /** A refused item is followed by one more closing of the queues. */
  function Ended(s: State, key: AddrKey, terminal: NodeState, reason: Option<FailKind>): (r: State)
    ensures r.threads == s.threads
  {
    var s' := Finished(s, key, terminal, reason);
    if terminal == BudgetDiscarded then s'.(queues := CloseAll(s'.queues)) else s'
  }

  lemma DecrementLeads(c: Config, i: nat, s: State, key: AddrKey, refused: bool)
    requires Working(s, i)
    ensures var queues := if s.outstanding == 1 || refused then CloseAll(s.queues) else s.queues;
            Leads(c, i, s.Go(i, Decrementing(key, refused)),
                  s.(outstanding := Wrap(s.outstanding - 1), queues := queues).Go(i, Idle))
  {
    hide Leads, CloseAll;
    CloseEachAll(s.queues);
    var less := s.(outstanding := Wrap(s.outstanding - 1));
    if s.outstanding == 1 || refused {
      var todo := if s.outstanding == 1 && refused then ALL_TRANSPORTS + ALL_TRANSPORTS else ALL_TRANSPORTS;
      MoveStep(c, i, s, Decrementing(key, refused), less, Closing(todo));
      CloseLeads(c, i, less, todo);
      LeadsThrough(c, i, s.Go(i, Decrementing(key, refused)), less.Go(i, Closing(todo)),
                   less.(queues := CloseAll(s.queues)).Go(i, Idle));
    } else {
      MoveStep(c, i, s, Decrementing(key, refused), less, Idle);
    }
  }

  lemma FinishActive(c: Config, i: nat, s: State, key: AddrKey, terminal: NodeState, reason: Option<FailKind>)
    requires Working(s, i) && key in s.entries && s.entries[key].Active()
    ensures var ended := s.(entries := s.entries[key := s.entries[key].(state := terminal, failure := reason)]);
            Leads(c, i, s.Go(i, Finishing(key, terminal, reason)),
                  ended.Go(i, Decrementing(key, terminal == BudgetDiscarded)))
  {
    hide Leads;
    MoveStep(c, i, s, Finishing(key, terminal, reason),
             s.(entries := s.entries[key := s.entries[key].(state := terminal, failure := reason)]),
             Decrementing(key, terminal == BudgetDiscarded));
  }

  /** Closing the queues once more changes nothing. */
  lemma EndedActive(s: State, key: AddrKey, terminal: NodeState, reason: Option<FailKind>, i: nat)
    requires i < |s.threads| && key in s.entries && s.entries[key].Active()
    ensures var ended := s.(entries := s.entries[key := s.entries[key].(state := terminal, failure := reason)]);
            var closed := if s.outstanding == 1 || terminal == BudgetDiscarded then CloseAll(s.queues) else s.queues;
            ended.(outstanding := Wrap(s.outstanding - 1), queues := closed).Go(i, Idle) ==
              Ended(s, key, terminal, reason).Go(i, Idle)
  {
    assert CloseAll(CloseAll(s.queues)) == CloseAll(s.queues);
    hide CloseAll;
  }

  lemma FinishEnded(c: Config, i: nat, s: State, key: AddrKey, terminal: NodeState, reason: Option<FailKind>)
    requires Working(s, i) && !(key in s.entries && s.entries[key].Active())
    ensures Leads(c, i, s.Go(i, Finishing(key, terminal, reason)),
                  s.Go(i, if terminal == BudgetDiscarded then Closing(ALL_TRANSPORTS) else Idle))
  {
    hide Leads;
    MoveStep(c, i, s, Finishing(key, terminal, reason), s,
             if terminal == BudgetDiscarded then Closing(ALL_TRANSPORTS) else Idle);
  }

  lemma FinishLeads(c: Config, i: nat, s: State, key: AddrKey, terminal: NodeState, reason: Option<FailKind>)
    requires Working(s, i)
    ensures Leads(c, i, s.Go(i, Finishing(key, terminal, reason)), Ended(s, key, terminal, reason).Go(i, Idle))
  {
    hide Leads, CloseAll, Alone;
    var start := s.Go(i, Finishing(key, terminal, reason));
    var refused := terminal == BudgetDiscarded;
    if key in s.entries && s.entries[key].Active() {
      var ended := s.(entries := s.entries[key := s.entries[key].(state := terminal, failure := reason)]);
      FinishActive(c, i, s, key, terminal, reason);
      DecrementLeads(c, i, ended, key, refused);
      EndedActive(s, key, terminal, reason, i);
      LeadsThrough(c, i, start, ended.Go(i, Decrementing(key, refused)), Ended(s, key, terminal, reason).Go(i, Idle));
    } else if refused {
      CloseEachAll(s.queues);
      FinishEnded(c, i, s, key, terminal, reason);
      CloseLeads(c, i, s, ALL_TRANSPORTS);
      LeadsThrough(c, i, start, s.Go(i, Closing(ALL_TRANSPORTS)), s.(queues := CloseAll(s.queues)).Go(i, Idle));
    } else {
      FinishEnded(c, i, s, key, terminal, reason);
    }
  }

  lemma ResendLeads(c: Config, i: nat, s: State, t: Transport, key: AddrKey, terminal: NodeState, kind: FailKind)
    requires Working(s, i) && s.threads[i].role == Worker(t) && terminal != BudgetDiscarded
    ensures Leads(c, i, s.Go(i, Resending(key, terminal, kind)), Resent(c, s, t, key, terminal, Some(kind)).Go(i, Idle))
  {
    hide Leads, CloseAll, Finished;
    match s.queues.TrySend(t, key, c.maxAddresses)
    case Some(qs) => MoveStep(c, i, s, Resending(key, terminal, kind), s.(queues := qs), Idle);
    case None =>
      MoveStep(c, i, s, Resending(key, terminal, kind), s, Finishing(key, terminal, Some(kind)));
      FinishLeads(c, i, s, key, terminal, Some(kind));
      LeadsThrough(c, i, s.Go(i, Resending(key, terminal, kind)), s.Go(i, Finishing(key, terminal, Some(kind))),
                   Ended(s, key, terminal, Some(kind)).Go(i, Idle));
  }

  lemma RequeueLeads(c: Config, i: nat, s: State, t: Transport, key: AddrKey, terminal: NodeState, kind: FailKind)
    requires Working(s, i) && s.threads[i].role == Worker(t) && key in s.entries && terminal != BudgetDiscarded
    ensures Leads(c, i, s.Go(i, Requeueing(key, terminal, kind)),
                  Requeued(c, s, t, key, terminal, Some(kind)).Go(i, Idle))
  {
    hide Leads, Resent;
    var s' := s.(entries := s.entries[key := s.entries[key].(state := Queued)]);
    MoveStep(c, i, s, Requeueing(key, terminal, kind), s', Resending(key, terminal, kind));
    ResendLeads(c, i, s', t, key, terminal, kind);
    LeadsThrough(c, i, s.Go(i, Requeueing(key, terminal, kind)), s'.Go(i, Resending(key, terminal, kind)),
                 Requeued(c, s, t, key, terminal, Some(kind)).Go(i, Idle));
  }

  /** An item received after the node limit is discarded, and the queues are closed. */
  lemma RefuseLeads(c: Config, i: nat, s: State, key: AddrKey)
    requires Working(s, i) && TryReserve(c, s.numProcessed) == None
    ensures Leads(c, i, s.Go(i, Received(key)),
                  Ended(s.(nodeLimitReached := true), key, BudgetDiscarded, None).Go(i, Idle))
  {
    hide Leads, Ended;
    var start := s.Go(i, Received(key));
    var limited := s.(nodeLimitReached := true);
    MoveStep(c, i, s, Received(key), s, Refused(key));
    MoveStep(c, i, s, Refused(key), limited, Finishing(key, BudgetDiscarded, None));
    FinishLeads(c, i, limited, key, BudgetDiscarded, None);
    var finishing := limited.Go(i, Finishing(key, BudgetDiscarded, None));
    LeadsThrough(c, i, start, s.Go(i, Refused(key)), finishing);
    LeadsThrough(c, i, start, finishing, Ended(limited, key, BudgetDiscarded, None).Go(i, Idle));
  }

  lemma ReserveLeads(c: Config, i: nat, s: State, key: AddrKey)
    requires Working(s, i) && TryReserve(c, s.numProcessed).Some?
    ensures Leads(c, i, s.Go(i, Received(key)), s.(numProcessed := s.numProcessed + 1).Go(i, Reserved(key)))
  {
    MoveStep(c, i, s, Received(key), s.(numProcessed := s.numProcessed + 1), Reserved(key));
  }

  // ---- batches of gossip, and seeds --------------------------------------------------------------------------

  /** A batch fed to the frontier: each address is upserted and, when that queues it, enqueued at once. */
  function Fed(c: Config, s: State, batch: seq<Advert>, now: int): (r: State)
    ensures r.threads == s.threads
  {
    if batch == [] then s
    else
      var n := |batch| - 1;
      FedOne(c, Fed(c, s, batch[..n], now), batch[n], now)
  }

  function FedOne(c: Config, s: State, a: Advert, now: int): (r: State)
    ensures r.threads == s.threads
  {
    var (entries, outcome) :=
      Upsert(s.entries, c.maxAddresses, a.key, a.timestamp, a.network, c.freshnessThreshold, now);
    var s' := s.(entries := entries);
    if outcome == Enqueue then Enqueued(c, s', a.key) else s'
  }

  lemma GossipStep(c: Config, i: nat, s: State, a: Advert, now: int)
    requires Working(s, i) && s.threads[i].pc.Discovering? && !c.probeMode && a.network in c.enabled
    ensures var (entries, outcome) :=
              Upsert(s.entries, c.maxAddresses, a.key, a.timestamp, a.network, c.freshnessThreshold, now);
            var s' := s.(entries := entries);
            Step(c, s, i, Gossip(a.key, a.timestamp, a.network, now)) ==
              Some(if outcome == Enqueue then s'.InCall(i, Marked(a.key)) else s')
  {
    hide Upsert;
  }

  lemma FedOneLeads(c: Config, i: nat, s: State, a: Advert, now: int)
    requires Working(s, i) && s.threads[i].pc.Discovering? && !c.probeMode && a.network in c.enabled
    ensures Leads(c, i, s, FedOne(c, s, a, now))
  {
    GossipStep(c, i, s, a, now);
    hide Leads, Step, Enqueued;
    var (entries, outcome) :=
      Upsert(s.entries, c.maxAddresses, a.key, a.timestamp, a.network, c.freshnessThreshold, now);
    var s' := s.(entries := entries);
    var ev := Gossip(a.key, a.timestamp, a.network, now);
    if outcome == Enqueue {
      OneStep(c, i, s, ev, s'.InCall(i, Marked(a.key)));
      EnqueueLeads(c, i, s', a.key);
      LeadsThrough(c, i, s, s'.InCall(i, Marked(a.key)), FedOne(c, s, a, now));
    } else {
      OneStep(c, i, s, ev, s');
    }
  }

  /** Feeding a batch of enabled addresses is the discovering worker's part of a run. */
  lemma {:induction false} FedLeads(c: Config, i: nat, s: State, batch: seq<Advert>, now: int)
    requires Working(s, i) && s.threads[i].pc.Discovering? && !c.probeMode
    requires forall a :: a in batch ==> a.network in c.enabled
    ensures Leads(c, i, s, Fed(c, s, batch, now))
    decreases |batch|
  {
    hide Leads, FedOne;
    if batch == [] {
      LeadsNowhere(c, i, s);
    } else {
      var n := |batch| - 1;
      var before := Fed(c, s, batch[..n], now);
      FedLeads(c, i, s, batch[..n], now);
      FedOneLeads(c, i, before, batch[n], now);
      LeadsThrough(c, i, s, before, Fed(c, s, batch, now));
    }
  }

  /** Every queue is open and has room for `n` more keys. */
  ghost predicate Roomy(c: Config, qs: Queues, n: nat) {
    forall t :: qs.At(t).open && |qs.At(t).items| + n <= c.maxAddresses
  }

  lemma SendRoomy(c: Config, qs: Queues, t: Transport, key: AddrKey, n: nat)
    requires Roomy(c, qs, n + 1)
    ensures qs.TrySend(t, key, c.maxAddresses).Some?
    ensures var qs' := qs.TrySend(t, key, c.maxAddresses).value;
            Roomy(c, qs', n) && InQueues(qs') == InQueues(qs) + multiset{key}
  {
    var qs' := qs.With(t, qs.At(t).(items := qs.At(t).items + [key]));
    assert qs.At(t).open && |qs.At(t).items| < c.maxAddresses;
    forall u ensures qs'.At(u).open && |qs'.At(u).items| + n <= c.maxAddresses {
      assert qs.At(u).open && |qs.At(u).items| + n + 1 <= c.maxAddresses;
    }
  }

  /** While the crawl is on, the store a batch leaves is the one `Frontier` describes, and the keys it queues are
      the ones that enter the queues. */
  lemma {:induction false} FedIsFeed(c: Config, s: State, batch: seq<Advert>, now: int)
    requires Roomy(c, s.queues, |batch|)
    ensures var (entries, queued) := Feed(s.entries, c.maxAddresses, batch, c.freshnessThreshold, now);
            var fed := Fed(c, s, batch, now);
            fed.entries == entries && InQueues(fed.queues) == InQueues(s.queues) + multiset(queued) &&
            Roomy(c, fed.queues, 0)
    decreases |batch|
  {
    hide FedOne, InQueues;
    FedIsFeedRoom(c, s, batch, now, 0);
  }

  lemma {:induction false} FedIsFeedRoom(c: Config, s: State, batch: seq<Advert>, now: int, spare: nat)
    requires Roomy(c, s.queues, |batch| + spare)
    ensures var (entries, queued) := Feed(s.entries, c.maxAddresses, batch, c.freshnessThreshold, now);
            var fed := Fed(c, s, batch, now);
            fed.entries == entries && InQueues(fed.queues) == InQueues(s.queues) + multiset(queued) &&
            Roomy(c, fed.queues, spare)
    decreases |batch|
  {
    hide InQueues, Roomy, Upsert, Queues.TrySend, FedOne;
    if batch != [] {
      var n := |batch| - 1;
      FedIsFeedRoom(c, s, batch[..n], now, spare + 1);
      FedOneIsFeed(c, Fed(c, s, batch[..n], now), batch[n], now, spare);
      hide Fed;
      var queued := Feed(s.entries, c.maxAddresses, batch[..n], c.freshnessThreshold, now).1;
      assert multiset(queued + [batch[n].key]) == multiset(queued) + multiset{batch[n].key};
    }
  }

  lemma FedOneIsFeed(c: Config, s: State, a: Advert, now: int, spare: nat)
    requires Roomy(c, s.queues, spare + 1)
    ensures var (entries, outcome) :=
              Upsert(s.entries, c.maxAddresses, a.key, a.timestamp, a.network, c.freshnessThreshold, now);
            var fed := FedOne(c, s, a, now);
            fed.entries == entries && Roomy(c, fed.queues, spare) &&
            InQueues(fed.queues) == InQueues(s.queues) + (if outcome == Enqueue then multiset{a.key} else multiset{})
  {
    var (entries, outcome) :=
      Upsert(s.entries, c.maxAddresses, a.key, a.timestamp, a.network, c.freshnessThreshold, now);
    if outcome == Enqueue {
      SendRoomy(c, s.queues, entries[a.key].network.Carrier(), a.key, spare);
    }
    hide Queues.TrySend, Upsert, InQueues;
  }

  datatype SeedAddr = SeedAddr(key: AddrKey, network: NetworkType)

  /** A seed observed and, when new, enqueued; the crawler drops seeds of disabled networks. */
  function SeededOne(c: Config, s: State, a: SeedAddr, now: int): (r: State)
    ensures r.threads == s.threads
  {
    if c.filterSeeds && a.network !in c.enabled then s
    else
      var (entries, newlyQueued) := Observe(s.entries, c.maxAddresses, a.key, a.network, now);
      var s' := s.(entries := entries);
      if newlyQueued then Enqueued(c, s', a.key) else s'
  }

  function Seeded(c: Config, s: State, seeds: seq<SeedAddr>, now: int): (r: State)
    ensures r.threads == s.threads
  {
    if seeds == [] then s
    else
      var n := |seeds| - 1;
      SeededOne(c, Seeded(c, s, seeds[..n], now), seeds[n], now)
  }

  /** The main thread, before `run`. */
  predicate StillSeeding(s: State) { Free(s, 0) && s.threads[0].role.MainThread? && s.threads[0].pc.Seeding? }

  lemma SeedStep(c: Config, s: State, a: SeedAddr, now: int)
    requires StillSeeding(s) && !(c.filterSeeds && a.network !in c.enabled)
    ensures var (entries, newlyQueued) := Observe(s.entries, c.maxAddresses, a.key, a.network, now);
            var s' := s.(entries := entries);
            Step(c, s, 0, Seed(a.key, a.network, now)) == Some(if newlyQueued then s'.InCall(0, Marked(a.key)) else s')
  {
    hide Observe;
  }

  lemma SeededOneLeads(c: Config, s: State, a: SeedAddr, now: int)
    requires StillSeeding(s)
    ensures Leads(c, 0, s, SeededOne(c, s, a, now))
  {
    if c.filterSeeds && a.network !in c.enabled {
      LeadsNowhere(c, 0, s);
    } else {
      SeedStep(c, s, a, now);
      hide Leads, Step, Enqueued;
      var (entries, newlyQueued) := Observe(s.entries, c.maxAddresses, a.key, a.network, now);
      var s' := s.(entries := entries);
      var ev := Seed(a.key, a.network, now);
      if newlyQueued {
        OneStep(c, 0, s, ev, s'.InCall(0, Marked(a.key)));
        EnqueueLeads(c, 0, s', a.key);
        LeadsThrough(c, 0, s, s'.InCall(0, Marked(a.key)), SeededOne(c, s, a, now));
      } else {
        OneStep(c, 0, s, ev, s');
      }
    }
  }

  lemma {:induction false} SeededLeads(c: Config, s: State, seeds: seq<SeedAddr>, now: int)
    requires StillSeeding(s)
    ensures Leads(c, 0, s, Seeded(c, s, seeds, now))
    decreases |seeds|
  {
    hide Leads, SeededOne;
    if seeds == [] {
      LeadsNowhere(c, 0, s);
    } else {
      var n := |seeds| - 1;
      var before := Seeded(c, s, seeds[..n], now);
      SeededLeads(c, s, seeds[..n], now);
      SeededOneLeads(c, before, seeds[n], now);
      LeadsThrough(c, 0, s, before, Seeded(c, s, seeds, now));
    }
  }

  /** Whatever the seeds, the state they leave occurs. */
  lemma SeededOccurs(c: Config, seeds: seq<SeedAddr>, now: int)
    ensures Occurs(c, Seeded(c, Init(c), seeds, now))
  {
    hide Leads;
    assert RunFrom(c, Init(c), []) == Some(Init(c));
    SeededLeads(c, Init(c), seeds, now);
    LeadsOccurs(c, 0, Init(c), Seeded(c, Init(c), seeds, now));
  }

  /** Before the crawl starts `outstanding` is just the number of seeds queued. */
  lemma SeedsCounted(c: Config, seeds: seq<SeedAddr>, now: int)
    requires ValidConfig(c)
    ensures var s := Seeded(c, Init(c), seeds, now); s.outstanding == |ActiveKeys(s)|
  {
    hide Occurs, Seeded, Leads;
    var s := Seeded(c, Init(c), seeds, now);
    SeededOccurs(c, seeds, now);
    OutstandingExact(c, s);
    TotalZero(s.threads, Waiting);
    GatherNone(s.threads, Settling);
  }

  // ---- the methods ------------------------------------------------------------------------------------------------

  class Crawler {
    const c: Config
    const store: Store
    var queues: Queues
    var numProcessed: nat
    var nodeLimitReached: bool

    ghost predicate Valid()
      reads this, store
    { store.Valid() && store.maxEntries == c.maxAddresses }

    /** The whole state, with the threads where they are. */
    ghost function View(threads: seq<Thread>, shutdown: bool): (s: State)
      reads this, store
      ensures s.threads == threads
    {
      State(store.byKey, store.outstanding, queues, numProcessed, nodeLimitReached, shutdown, threads)
    }

    constructor (c: Config)
      requires ValidConfig(c)
      ensures Valid() && this.c == c && fresh(store)
      ensures View(Init(c).threads, false) == Init(c)
    {
      this.c := c;
      store := new Store(c.maxAddresses);
      queues := Queues(Queue([], true), Queue([], true), Queue([], true));
      numProcessed, nodeLimitReached := 0, false;
    }

    /** What is already queued stays, to be drained. */
    method CloseQueues()
      modifies this`queues
      ensures queues == CloseAll(old(queues))
      ensures forall t :: !queues.At(t).open && queues.At(t).items == old(queues).At(t).items
    {
      queues := queues.Close(OverIp);
      queues := queues.Close(OverTor);
      queues := queues.Close(OverI2p);
    }

    method TrySend(t: Transport, key: AddrKey) returns (sent: bool)
      modifies this`queues
      ensures sent <==> old(queues).TrySend(t, key, c.maxAddresses).Some?
      ensures queues == if sent then old(queues).TrySend(t, key, c.maxAddresses).value else old(queues)
    {
      var q := queues.At(t);
      sent := q.open && |q.items| < c.maxAddresses;
      if sent {
        queues := queues.With(t, q.(items := q.items + [key]));
      }
    }

    /** Called by any thread `i`, seeding or discovering, that is in no other call. */
    method Enqueue(key: AddrKey, ghost threads: seq<Thread>, ghost shutdown: bool, ghost i: nat)
      requires Valid() && key in store.byKey && i < |threads| && threads[i].call == NoCall
      modifies this`queues, store`byKey, store`outstanding
      ensures Valid()
      ensures View(threads, shutdown) == Enqueued(c, old(View(threads, shutdown)), key)
      ensures Leads(c, i, old(View(threads, shutdown)).InCall(i, Marked(key)), View(threads, shutdown))
    {
      hide Leads;
      EnqueueLeads(c, i, View(threads, shutdown), key);
      var transport := store.byKey[key].network.Carrier();
      store.IncrOutstanding();
      var sent := TrySend(transport, key);
      if !sent {
        store.byKey := store.byKey[key := store.byKey[key].(state := BudgetDiscarded)];
        var _ := store.DecrOutstanding();
      }
    }

    method Finish(key: AddrKey, terminal: NodeState, reason: Option<FailKind>,
                  ghost threads: seq<Thread>, ghost shutdown: bool, ghost i: nat)
      requires Valid() && Working(View(threads, shutdown), i)
      modifies this`queues, store`byKey, store`outstanding
      ensures Valid()
      ensures View(threads, shutdown) == Finished(old(View(threads, shutdown)), key, terminal, reason)
      ensures terminal != BudgetDiscarded ==>
                Leads(c, i, old(View(threads, shutdown)).Go(i, Finishing(key, terminal, reason)),
                      View(threads, shutdown).Go(i, Idle))
    {
      hide Leads, CloseAll;
      FinishLeads(c, i, View(threads, shutdown), key, terminal, reason);
      if key in store.byKey && store.byKey[key].Active() {
        store.byKey := store.byKey[key := store.byKey[key].(state := terminal, failure := reason)];
        var prior := store.DecrOutstanding();
        if prior == 1 {
          CloseQueues();
        }
      }
    }

    method Requeue(key: AddrKey, t: Transport, terminal: NodeState, kind: FailKind,
                   ghost threads: seq<Thread>, ghost shutdown: bool, ghost i: nat)
      requires Valid() && Working(View(threads, shutdown), i) && threads[i].role == Worker(t)
      requires key in store.byKey && terminal != BudgetDiscarded
      modifies this`queues, store`byKey, store`outstanding
      ensures Valid()
      ensures View(threads, shutdown) == Requeued(c, old(View(threads, shutdown)), t, key, terminal, Some(kind))
      ensures Leads(c, i, old(View(threads, shutdown)).Go(i, Requeueing(key, terminal, kind)),
                    View(threads, shutdown).Go(i, Idle))
    {
      hide Leads, CloseAll;
      RequeueLeads(c, i, View(threads, shutdown), t, key, terminal, kind);
      store.byKey := store.byKey[key := store.byKey[key].(state := Queued)];
      var sent := TrySend(t, key);
      if !sent {
        Finish(key, terminal, Some(kind), threads, shutdown, i);
      }
    }

    method ReserveNodeSlot() returns (reserved: bool)
      modifies this`numProcessed, this`nodeLimitReached
      ensures reserved <==> TryReserve(c, old(numProcessed)).Some?
      ensures numProcessed == if reserved then old(numProcessed) + 1 else old(numProcessed)
      ensures nodeLimitReached == (old(nodeLimitReached) || !reserved)
    {
      match c.maxNodes
      case None =>
        numProcessed := numProcessed + 1;
        reserved := true;
      case Some(max) =>
        reserved := numProcessed < max;
        if reserved {
          numProcessed := numProcessed + 1;
        } else {
          nodeLimitReached := true;
        }
    }

    /** The head of the worker loop, once a key is received: it may be processed, or is discarded. */
    method Admit(key: AddrKey, ghost threads: seq<Thread>, ghost shutdown: bool, ghost i: nat) returns (admitted: bool)
      requires Valid() && Working(View(threads, shutdown), i)
      modifies this, store`byKey, store`outstanding
      ensures Valid()
      ensures View(threads, shutdown) ==
                if admitted then old(View(threads, shutdown)).(numProcessed := old(numProcessed) + 1)
                else Ended(old(View(threads, shutdown)).(nodeLimitReached := true), key, BudgetDiscarded, None)
      ensures Leads(c, i, old(View(threads, shutdown)).Go(i, Received(key)),
                    View(threads, shutdown).Go(i, if admitted then Reserved(key) else Idle))
    {
      hide Leads, CloseAll;
      ghost var s := View(threads, shutdown);
      if TryReserve(c, numProcessed).Some? {
        ReserveLeads(c, i, s, key);
      } else {
        RefuseLeads(c, i, s, key);
      }
      admitted := ReserveNodeSlot();
      if !admitted {
        Finish(key, BudgetDiscarded, None, threads, shutdown, i);
        assert View(threads, shutdown) == Finished(s.(nodeLimitReached := true), key, BudgetDiscarded, None);
        hide Finished;
        CloseQueues();
      }
    }

    /** The frontier half of an address message, by a worker that is discovering. */
    method FeedBatch(batch: seq<Advert>, now: int, ghost threads: seq<Thread>, ghost shutdown: bool, ghost i: nat)
      requires Valid() && Working(View(threads, shutdown), i)
      modifies this`queues, store
      ensures Valid()
      ensures View(threads, shutdown) == Fed(c, old(View(threads, shutdown)), batch, now)
      ensures threads[i].pc.Discovering? && !c.probeMode && (forall a :: a in batch ==> a.network in c.enabled) ==>
                Leads(c, i, old(View(threads, shutdown)), View(threads, shutdown))
    {
      hide Leads;
      if threads[i].pc.Discovering? && !c.probeMode && forall a :: a in batch ==> a.network in c.enabled {
        FedLeads(c, i, View(threads, shutdown), batch, now);
      }
      for n := 0 to |batch|
        invariant Valid()
        invariant View(threads, shutdown) == Fed(c, old(View(threads, shutdown)), batch[..n], now)
      {
        assert batch[..n + 1][..n] == batch[..n];
        FeedOne(batch[n], now, threads, shutdown, i);
      }
      assert batch[..|batch|] == batch;
    }

    method FeedOne(a: Advert, now: int, ghost threads: seq<Thread>, ghost shutdown: bool, ghost i: nat)
      requires Valid() && Working(View(threads, shutdown), i)
      modifies this`queues, store
      ensures Valid()
      ensures View(threads, shutdown) == FedOne(c, old(View(threads, shutdown)), a, now)
    {
      hide Leads, Upsert, Enqueued;
      UpsertedIn(store.byKey, c.maxAddresses, a, c.freshnessThreshold, now);
      var outcome := store.FrontierUpsert(a.key, a.timestamp, a.network, c.freshnessThreshold, now);
      if outcome == FrontierOutcome.Enqueue {
        Enqueue(a.key, threads, shutdown, i);
      }
    }

    /** The seeding before `run`: from a new crawler, the state it leaves is one the main thread's own steps lead to. */
    method SeedAll(seeds: seq<SeedAddr>, now: int, ghost threads: seq<Thread>)
      requires Valid() && StillSeeding(View(threads, false))
      modifies this`queues, store
      ensures Valid()
      ensures View(threads, false) == Seeded(c, old(View(threads, false)), seeds, now)
      ensures Leads(c, 0, old(View(threads, false)), View(threads, false))
    {
      hide Leads, SeededOne;
      SeededLeads(c, View(threads, false), seeds, now);
      for n := 0 to |seeds|
        invariant Valid()
        invariant View(threads, false) == Seeded(c, old(View(threads, false)), seeds[..n], now)
      {
        assert seeds[..n + 1][..n] == seeds[..n];
        SeedOne(seeds[n], now, threads);
      }
      assert seeds[..|seeds|] == seeds;
    }

    method SeedOne(a: SeedAddr, now: int, ghost threads: seq<Thread>)
      requires Valid() && StillSeeding(View(threads, false))
      modifies this`queues, store
      ensures Valid()
      ensures View(threads, false) == SeededOne(c, old(View(threads, false)), a, now)
    {
      hide Leads, Enqueued;
      if c.filterSeeds && a.network !in c.enabled { return; }
      var newlyQueued := store.ObserveSeed(a.key, a.network, now);
      if newlyQueued {
        Enqueue(a.key, threads, false, 0);
      }
    }
  }

  lemma UpsertedIn(entries: Entries, limit: nat, a: Advert, threshold: int, now: int)
    ensures var (after, outcome) := Upsert(entries, limit, a.key, a.timestamp, a.network, threshold, now);
            outcome == Enqueue ==> a.key in after
  {}
}
