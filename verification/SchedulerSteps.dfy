/** Every step of every thread keeps ownership. */
module SchedulerSteps {
  import opened Base
  import opened Network
  import opened NodeStore
  import opened Scheduler
  import opened SchedulerInvariant
  import opened Tally

  // ---- the shapes a step can have ---------------------------------------------------------

  /** An owned address is in the store and not stale. */
  lemma TokenKnown(c: Config, s: State, k: AddrKey)
    requires Owned(c, s) && k in Tokens(s)
    ensures k in s.entries && s.entries[k].state != StaleDiscarded
  {
    hide EntryOk, PcOk, RoleOk;
    if k in Gather(s.threads, Held) {
      var i := GatherWitness(s.threads, k, Held);
      assert ThreadOk(c, s.queues, s.entries, s.threads[i]);
      HeldLive(c, s.queues, s.entries, s.threads[i]);
    } else {
      assert exists t :: k in s.queues.At(t).items by {
        assert k in s.queues.At(OverIp).items || k in s.queues.At(OverTor).items || k in s.queues.At(OverI2p).items;
      }
      var t :| k in s.queues.At(t).items;
      assert QueuedAt(s.entries, k, t);
    }
  }

  lemma HeldLive(c: Config, qs: Queues, entries: Entries, th: Thread)
    requires ThreadOk(c, qs, entries, th)
    ensures forall k :: k in Held(th) ==> k in entries && entries[k].state != StaleDiscarded
  {}

  /** Thread `i` keeps what it holds and edits at most the entry of `k`, which it holds. */
  lemma LocalStep(c: Config, s: State, s': State, i: nat, th': Thread, k: AddrKey)
    requires Owned(c, s) && i < |s.threads| && s'.threads == s.threads[i := th'] && s'.queues == s.queues
    requires Held(th') == Held(s.threads[i]) && k in Held(th')
    requires OnlyAt(s.entries, s'.entries, k)
    requires k in s'.entries && EntryOk(c, s.queues, s'.entries[k]) && ThreadOk(c, s.queues, s'.entries, th')
    ensures Owned(c, s') && Tokens(s') == Tokens(s)
  {
    hide ThreadOk, EntryOk, Held, Tokens, QueuedAt;
    TokensSame(s, s', i, th');
    QueueApart(s, i, k);
    OwnedStep(c, s, s', i, th', k);
  }

  /** Entries and queue items stay; queues may close. */
  lemma ControlStep(c: Config, s: State, s': State, i: nat, th': Thread)
    requires Owned(c, s) && i < |s.threads| && s'.threads == s.threads[i := th'] && s'.entries == s.entries
    requires NoReopen(s.queues, s'.queues) && forall t :: s'.queues.At(t).items == s.queues.At(t).items
    requires Held(th') == Held(s.threads[i]) && ThreadOk(c, s'.queues, s.entries, th')
    ensures Owned(c, s') && Tokens(s') == Tokens(s)
  {
    hide ThreadOk, EntryOk, Held, Tokens, QueuedAt;
    TokensSame(s, s', i, th');
    var k := AddrKey("", 0);
    if k in Tokens(s) {
      TokenKnown(c, s, k);
    }
    if k in s.entries {
      EntryFrame(c, s.queues, s'.queues, s.entries[k], s.entries[k]);
    }
    OwnedStep(c, s, s', i, th', k);
  }

  /** The address moves from thread `i` to the back of an open queue. */
  lemma SendStep(c: Config, s: State, s': State, i: nat, th': Thread, k: AddrKey, t: Transport)
    requires Owned(c, s) && i < |s.threads| && s'.threads == s.threads[i := th'] && s'.entries == s.entries
    requires s.queues.TrySend(t, k, c.maxAddresses) == Some(s'.queues)
    requires Held(s.threads[i]) == Held(th') + multiset{k} && QueuedAt(s.entries, k, t)
    requires ThreadOk(c, s.queues, s.entries, th')
    ensures Owned(c, s') && Tokens(s') == Tokens(s)
  {
    hide ThreadOk, EntryOk, Held, Tokens;
    TokensSent(s, s', i, th', k, t);
    assert k in Held(s.threads[i]);
    QueueApart(s, i, k);
    ThreadMono(c, s.queues, s'.queues, s.entries, th');
    EntryFrame(c, s.queues, s'.queues, s.entries[k], s.entries[k]);
    OwnedStep(c, s, s', i, th', k);
  }

  lemma ThreadMono(c: Config, qs: Queues, qs': Queues, entries: Entries, th: Thread)
    requires ThreadOk(c, qs, entries, th) && NoReopen(qs, qs')
    ensures ThreadOk(c, qs', entries, th)
  {
    ThreadFrame(c, qs, qs', entries, entries, th);
  }

  /** The front address of a queue moves to thread `i`. */
  lemma ReceiveStep(c: Config, s: State, s': State, i: nat, th': Thread, t: Transport)
    requires Owned(c, s) && i < |s.threads| && s'.threads == s.threads[i := th'] && s'.entries == s.entries
    requires s.queues.At(t).items != []
    requires s'.queues == s.queues.With(t, s.queues.At(t).(items := s.queues.At(t).items[1..]))
    requires Held(th') == Held(s.threads[i]) + multiset{s.queues.At(t).items[0]}
    requires ThreadOk(c, s.queues, s.entries, th')
    ensures Owned(c, s') && Tokens(s') == Tokens(s)
  {
    hide ThreadOk, EntryOk, Held, Tokens;
    var k := s.queues.At(t).items[0];
    TokensReceived(s, s', i, th', t);
    assert QueuedAt(s.entries, k, t);
    assert k in Held(th') && k in Tokens(s') by {
      TokensMoved(s', s', i, th');
    }
    ThreadMono(c, s.queues, s'.queues, s.entries, th');
    EntryFrame(c, s.queues, s'.queues, s.entries[k], s.entries[k]);
    assert forall u, x :: x in s'.queues.At(u).items ==> x in s.queues.At(u).items;
    OwnedStep(c, s, s', i, th', k);
  }

  /** Thread `i` lets go of an address that has reached its end. */
  lemma ReleaseStep(c: Config, s: State, s': State, i: nat, th': Thread, k: AddrKey)
    requires Owned(c, s) && i < |s.threads| && s'.threads == s.threads[i := th']
    requires s'.entries == s.entries && s'.queues == s.queues
    requires Held(s.threads[i]) == Held(th') + multiset{k} && k in s.entries && !s.entries[k].Active()
    requires ThreadOk(c, s.queues, s.entries, th')
    ensures Owned(c, s') && Tokens(s) == Tokens(s') + multiset{k}
  {
    hide ThreadOk, EntryOk, Held, Tokens, QueuedAt;
    TokensMoved(s, s', i, th');
    assert k in Held(s.threads[i]);
    QueueApart(s, i, k);
    OwnedStep(c, s, s', i, th', k);
  }

  /** A new or stale address is marked Queued and becomes the child of thread `i`. */
  lemma AcquireStep(c: Config, s: State, s': State, i: nat, th': Thread, k: AddrKey)
    requires Owned(c, s) && i < |s.threads| && s'.threads == s.threads[i := th'] && s'.queues == s.queues
    requires OnlyAt(s.entries, s'.entries, k) && k in s'.entries && s'.entries[k].state == Queued
    requires k in s.entries ==> s.entries[k].state == StaleDiscarded
    requires EntryOk(c, s.queues, s'.entries[k])
    requires Held(th') == Held(s.threads[i]) + multiset{k} && ThreadOk(c, s.queues, s'.entries, th')
    ensures Owned(c, s') && Tokens(s') == Tokens(s) + multiset{k} && k !in Tokens(s)
  {
    hide ThreadOk, EntryOk, Held, Tokens;
    TokensMoved(s, s', i, th');
    if k in Tokens(s) {
      TokenKnown(c, s, k);
    }
    forall t ensures k !in s.queues.At(t).items {
      assert k in s.queues.At(t).items ==> QueuedAt(s.entries, k, t);
    }
    assert Unique(s') by {
      forall x ensures Tokens(s')[x] <= 1 {
        assert Tokens(s)[x] <= 1;
      }
    }
    OwnedStep(c, s, s', i, th', k);
  }

  /** A timestamp moves, or a new stale entry appears. */
  lemma QuietStep(c: Config, s: State, s': State, i: nat, k: AddrKey)
    requires Owned(c, s) && i < |s.threads| && s' == s.(entries := s'.entries)
    requires OnlyAt(s.entries, s'.entries, k) && k in s'.entries
    requires if k in s.entries then Similar(s.entries[k], s'.entries[k])
             else s'.entries[k].state == StaleDiscarded && EntryOk(c, s.queues, s'.entries[k])
    ensures Owned(c, s') && Tokens(s') == Tokens(s)
  {
    hide ThreadOk, EntryOk, Held;
    if k in s.entries {
      EntryFrame(c, s.queues, s.queues, s.entries[k], s'.entries[k]);
    } else if k in Tokens(s) {
      TokenKnown(c, s, k);
    }
    var th := s.threads[i];
    assert s'.threads == s.threads[i := th];
    assert ThreadOk(c, s.queues, s.entries, th);
    HeldLive(c, s.queues, s.entries, th);
    ThreadFrame(c, s.queues, s.queues, s.entries, s'.entries, th);
    forall t ensures k in s'.queues.At(t).items ==> QueuedAt(s'.entries, k, t) {
      assert k in s.queues.At(t).items ==> QueuedAt(s.entries, k, t);
    }
    OwnedStep(c, s, s', i, th, k);
  }
}
