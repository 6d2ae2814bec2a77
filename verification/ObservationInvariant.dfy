/** What every step of `Observation` keeps: who holds the barrier and the mutex, how events are numbered,
    and that the store's aggregates are what the log says plus what is on its way there. */
module ObservationInvariant {
  import opened Base
  import opened NodeStore
  import opened ObservationRecords
  import opened Observation

  // ---- the locks ---------------------------------------------------------------------------------------

  predicate HoldsMutex(t: Thread) { t.Numbered? || t.Posted? }

  predicate FlushHoldsMutex(c: Checkpoint) { c.FlushReady? || c.FlushPosted? }

  ghost predicate MutexExact(s: State) {
    (forall i :: 0 <= i < |s.threads| ==> (HoldsMutex(s.threads[i]) <==> s.mutex == Some(Worker(i)))) &&
    (s.mutex.Some? && s.mutex.value.Worker? ==> s.mutex.value.i < |s.threads|) &&
    (FlushHoldsMutex(s.checkpoint) <==> s.mutex == Some(Checkpointer))
  }

  ghost predicate ChannelExact(s: State) {
    (s.channel == [] || s.channel == [Flush] ||
     exists i, r :: 0 <= i < |s.threads| && s.threads[i] == Posted(r, None) && s.channel == [Append(i, r)]) &&
    (forall i :: 0 <= i < |s.threads| && s.threads[i].Posted? && s.threads[i].reply == None ==>
       s.channel == [Append(i, s.threads[i].task)]) &&
    (s.checkpoint == FlushPosted(None) <==> s.channel == [Flush])
  }

  ghost predicate Locks(s: State) {
    (BarrierRaised(s.checkpoint) ==> NoReaders(s)) && MutexExact(s) && ChannelExact(s)
  }

  lemma WorkerLocks(cfg: Config, s: State, e: Event, i: nat, s': State)
    requires Locks(s) && WorkerStep(cfg, s, e, i) == Some(s')
    ensures Locks(s')
  {
    hide Upsert, Enabled, Recorded, Recordable;
    if e.Post? {
      var task := s.threads[i].task;
      assert s.channel == [];
      assert s'.threads[i] == Posted(task, None) && s'.channel == [Append(i, task)];
    } else {
      assert forall j :: 0 <= j < |s.threads| && j != i ==> s.threads[j] == s'.threads[j];
    }
  }

  lemma WriterLocks(s: State, ok: bool, s': State)
    requires Locks(s) && WriterStep(s, ok) == Some(s')
    ensures Locks(s')
  {
    hide Written;
    assert |s.channel| == 1 && s'.channel == [];
  }

  lemma CheckpointLocks(s: State, e: Event, s': State)
    requires Locks(s) && CheckpointStep(s, e) == Some(s')
    ensures Locks(s')
  {
    if e.FlushPost? {
      assert s.channel == [];
    }
  }

  // ---- the numbering of events --------------------------------------------------------------------------

  /** The record of an event counted but not yet in the log. */
  function Pending(t: Thread): Option<Record> {
    match t
    case Counted(task) => Some(task)
    case Numbered(task) => Some(task)
    case Posted(task, None) => Some(task)
    case _ => None
  }

  predicate InFlight(t: Thread) { t.Numbered? || (t.Posted? && t.reply == None) }

  ghost predicate InOrder(log: seq<Record>) { forall j :: 0 <= j < |log| ==> log[j].id == j + 1 }

  ghost predicate Numbering(s: State) {
    InOrder(s.log) && s.durable == |s.log| && s.written == LogText(s.log) &&
    (forall i :: 0 <= i < |s.threads| && InFlight(s.threads[i]) ==>
       s.threads[i].task.id == |s.log| + 1 && s.nextId == |s.log| + 2) &&
    ((forall i :: 0 <= i < |s.threads| ==> !InFlight(s.threads[i])) ==> s.nextId == |s.log| + 1) &&
    match s.checkpoint
    case FlushPosted(Some(Some(d))) => d == |s.log| && s.synced == s.written
    case Copying(d, _, _) => d == |s.log| && s.synced == s.written
    case Taken(d, _) => d == |s.log| && s.synced == s.written
    case _ => true
  }

  lemma WorkerNumbering(cfg: Config, s: State, e: Event, i: nat, s': State)
    requires Locks(s) && Numbering(s) && WorkerStep(cfg, s, e, i) == Some(s')
    ensures Numbering(s')
  {
    hide Upsert, Enabled, Recorded, Recordable, LogText, ChannelExact;
    if e.Lock? {
      assert InFlight(s'.threads[i]);
    } else {
      assert forall j :: 0 <= j < |s.threads| && j != i ==> s.threads[j] == s'.threads[j];
      assert InFlight(s'.threads[i]) <==> InFlight(s.threads[i]);
    }
  }

  lemma {:induction false} LogTextSnoc(log: seq<Record>, r: Record)
    ensures LogText(log + [r]) == LogText(log) + Written(r)
  {
    hide Written;
    if log == [] {
      assert log + [r] == [r];
      assert [r][1..] == [];
    } else {
      LogTextSnoc(log[1..], r);
      assert (log + [r])[1..] == log[1..] + [r];
      Assoc(Written(log[0]), LogText(log[1..]), Written(r));
    }
  }

  lemma WriterNumbering(s: State, ok: bool, s': State)
    requires Locks(s) && Numbering(s) && WriterStep(s, ok) == Some(s') && !s'.writeFailed
    ensures Numbering(s')
  {
    hide Written, LogText;
    if s.channel[0].Append? {
      LogTextSnoc(s.log, s.channel[0].record);
    }
  }

  lemma CheckpointNumbering(s: State, e: Event, s': State)
    requires Locks(s) && Numbering(s) && CheckpointStep(s, e) == Some(s')
    ensures Numbering(s')
  {
    hide LogText;
  }
}
