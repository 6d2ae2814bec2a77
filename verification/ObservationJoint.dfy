/** The crawl and its log run together, on one store. Log worker `i` is crawl thread `i + 2`: whatever it records it
    does in both at once, and all else each side does on its own. */
module ObservationJoint {
  import opened Base
  import opened Network
  import opened NodeStore
  import opened ObservationRecords
  import opened ObservationScheduler
  import S = Scheduler
  import T = SchedulerTheorems
  import I = SchedulerInvariant
  import C = SchedulerCounting
  import O = Observation
  import OI = ObservationInvariant
  import OT = ObservationTheorems
  import Tally

  datatype Joint = Joint(crawl: S.State, log: O.State)

  /** Both sides are configured alike, and the crawl collects addresses. */
  ghost predicate Alike(c: S.Config, cfg: O.Config) {
    cfg.limit == c.maxAddresses && cfg.threshold == c.freshnessThreshold && !c.probeMode &&
    forall network :: cfg.enabled(network) <==> network in c.enabled
  }

  function Start(c: S.Config): Joint { Joint(S.Init(c), O.Init(map[], |c.pools|)) }

  /** A step of the crawl alone, of the log alone, or of a worker in both. */
  datatype Move = Crawl(choice: S.Choice) | Log(e: O.Event) | Both(e: O.Event)

  /** The crawl's side of an observation. */
  function CrawlSide(task: Record): S.Event {
    match task
    case Block(_, _, _, _, _, message, _) => S.Tally(0, |message.addrs| + message.unknownEntries, 0)
    case RequestOutcome(_, _, outcome) => S.GossipDone(outcome)
    case MalformedResponse(_, _, _, _, _) => S.Tally(0, 0, 1)
  }

  /** The crawl's side of a step both take: an observation counted, or an advertised address fed to the frontier. */
  function Matching(log: O.State, e: O.Event): Option<S.Event> {
    if e.Count? && e.i < |log.threads| && log.threads[e.i].Entered? then Some(CrawlSide(log.threads[e.i].task))
    else if e.Feed? && e.i < |log.threads| && log.threads[e.i].Feeding? && e.j < |log.threads[e.i].todo| then
      var a := log.threads[e.i].todo[e.j];
      Some(S.Gossip(O.KeyOf(a), a.timestamp, a.network, log.threads[e.i].now))
    else None
  }

  /** Crawl thread `w` is in the middle of recording an observation. */
  predicate Recording(log: O.State, w: nat) { 2 <= w < |log.threads| + 2 && !log.threads[w - 2].Idle? }

  /** Crawl thread `w` is collecting from `k`, and in no call. */
  predicate Collecting(crawl: S.State, w: nat, k: AddrKey) {
    w < |crawl.threads| && crawl.threads[w].pc == S.Discovering(k) && crawl.threads[w].call == S.NoCall
  }

  /** While it records an observation a worker does nothing else, but for enqueueing what it feeds; it records only
      what it hears from the peer it is collecting from. */
  predicate Allowed(c: S.Config, j: Joint, m: Move) {
    match m
    case Crawl(choice) =>
      !Records(c, choice.event) && !choice.event.Gossip? && choice.thread < |j.crawl.threads| &&
      (Recording(j.log, choice.thread) ==> j.crawl.threads[choice.thread].call != S.NoCall)
    case Log(e) =>
      !e.Count? && !e.Feed? && !e.Elsewhere? &&
      (e.Begin? ==> Collecting(j.crawl, e.i + 2, e.task.responder)) &&
      (e.Leave? ==> e.i + 2 < |j.crawl.threads| && j.crawl.threads[e.i + 2].call == S.NoCall)
    case Both(e) =>
      Matching(j.log, e).Some? && e.i + 2 < |j.crawl.threads| &&
      (e.Count? ==> Collecting(j.crawl, e.i + 2, j.log.threads[e.i].task.responder))
  }

  ghost function Step(c: S.Config, cfg: O.Config, j: Joint, m: Move): Option<Joint> {
    if !Allowed(c, j, m) then None
    else
      match m
      case Crawl(choice) =>
        (match S.Step(c, j.crawl, choice.thread, choice.event)
         case None => None
         case Some(crawl) => Some(Joint(crawl, j.log.(entries := crawl.entries))))
      case Log(e) =>
        (match O.Step(cfg, j.log, e)
         case None => None
         case Some(log) => Some(j.(log := log)))
      case Both(e) =>
        (match (S.Step(c, j.crawl, e.i + 2, Matching(j.log, e).value), O.Step(cfg, j.log, e))
         case (Some(crawl), Some(log)) => Some(Joint(crawl, log))
         case _ => None)
  }

  ghost function RunFrom(c: S.Config, cfg: O.Config, j: Joint, moves: seq<Move>): Option<Joint>
    decreases |moves|
  {
    if moves == [] then Some(j)
    else
      match RunFrom(c, cfg, j, moves[..|moves| - 1])
      case None => None
      case Some(before) => Step(c, cfg, before, moves[|moves| - 1])
  }

  // ---- each side of a joint run is a run of its own --------------------------------------------------------------

  ghost predicate LogReached(c: S.Config, cfg: O.Config, log: O.State) {
    exists events :: O.RunFrom(cfg, O.Init(map[], |c.pools|), events) == Some(log)
  }

  /** One store, and a run on either side. */
  ghost predicate Together(c: S.Config, cfg: O.Config, j: Joint) {
    j.crawl.entries == j.log.entries && S.Occurs(c, j.crawl) && LogReached(c, cfg, j.log)
  }

  lemma CrawlOn(c: S.Config, s: S.State, s': S.State, i: nat, ev: S.Event)
    requires S.Occurs(c, s) && i < |s.threads| && S.Step(c, s, i, ev) == Some(s')
    ensures S.Occurs(c, s')
  {
    hide S.Step, S.Init;
    var schedule :| S.RunFrom(c, S.Init(c), schedule) == Some(s);
    var more := schedule + [S.Choice(i, ev)];
    assert more[..|more| - 1] == schedule;
    assert S.RunFrom(c, S.Init(c), more) == Some(s');
  }

  lemma LogOn(c: S.Config, cfg: O.Config, log: O.State, log': O.State, e: O.Event)
    requires LogReached(c, cfg, log) && O.Step(cfg, log, e) == Some(log')
    ensures LogReached(c, cfg, log')
  {
    hide O.Step, O.Init;
    var events :| O.RunFrom(cfg, O.Init(map[], |c.pools|), events) == Some(log);
    var more := events + [e];
    assert more[..|more| - 1] == events;
    assert O.RunFrom(cfg, O.Init(map[], |c.pools|), more) == Some(log');
  }

  /** What a worker records it records alike on both sides. */
  lemma CountsAlike(c: S.Config, cfg: O.Config, crawl: S.State, crawl': S.State, log: O.State, log': O.State, i: nat)
    requires Alike(c, cfg) && crawl.entries == log.entries && i < |log.threads| && log.threads[i].Entered?
    requires Collecting(crawl, i + 2, log.threads[i].task.responder)
    requires S.Step(c, crawl, i + 2, CrawlSide(log.threads[i].task)) == Some(crawl')
    requires O.Step(cfg, log, O.Count(i)) == Some(log')
    ensures crawl'.entries == log'.entries
  {
    var task := log.threads[i].task;
    var k := task.responder;
    DiscoverSide(c, crawl, crawl', i + 2, CrawlSide(task));
    hide S.Step;
    assert k in crawl.entries;
    assert S.Note(c, crawl.entries[k], k, CrawlSide(task)).value.0 == O.Recorded(crawl.entries[k], task);
  }

  lemma DiscoverSide(c: S.Config, s: S.State, s': S.State, i: nat, ev: S.Event)
    requires i < |s.threads| && s.threads[i].pc.Discovering? && s.threads[i].call == S.NoCall
    requires S.Step(c, s, i, ev) == Some(s')
    ensures S.Discover(c, s, i, ev) == Some(s')
  {
    hide S.Discover;
  }

  lemma GossipSide(c: S.Config, s: S.State, s': S.State, i: nat, ev: S.Event)
    requires i < |s.threads| && ev.Gossip? && S.Step(c, s, i, ev) == Some(s')
    ensures s'.entries ==
              Upsert(s.entries, c.maxAddresses, ev.key, ev.ts, ev.network, c.freshnessThreshold, ev.now).0
  {
    hide Upsert;
  }

  lemma FeedsAlike(
    c: S.Config, cfg: O.Config, crawl: S.State, crawl': S.State, log: O.State, log': O.State, i: nat, n: nat)
    requires Alike(c, cfg) && crawl.entries == log.entries && Matching(log, O.Feed(i, n)).Some?
    requires i + 2 < |crawl.threads| && S.Step(c, crawl, i + 2, Matching(log, O.Feed(i, n)).value) == Some(crawl')
    requires O.Step(cfg, log, O.Feed(i, n)) == Some(log')
    ensures crawl'.entries == log'.entries
  {
    hide Upsert, S.Step;
    GossipSide(c, crawl, crawl', i + 2, Matching(log, O.Feed(i, n)).value);
  }

  /** The log's other steps leave the store alone. */
  lemma LogAlone(cfg: O.Config, log: O.State, log': O.State, e: O.Event)
    requires O.Step(cfg, log, e) == Some(log') && !e.Count? && !e.Feed? && !e.Elsewhere?
    ensures log'.entries == log.entries
  {
    hide Written, O.Enabled, O.Recordable;
  }

  lemma CrawlTogether(c: S.Config, cfg: O.Config, j: Joint, choice: S.Choice, crawl: S.State)
    requires Alike(c, cfg) && Together(c, cfg, j) && Allowed(c, j, Crawl(choice))
    requires S.Step(c, j.crawl, choice.thread, choice.event) == Some(crawl)
    ensures Together(c, cfg, Joint(crawl, j.log.(entries := crawl.entries)))
  {
    hide S.Step, S.Occurs, LogReached, O.Benign;
    StepBenign(c, j.crawl, crawl, choice.thread, choice.event);
    CrawlOn(c, j.crawl, crawl, choice.thread, choice.event);
    assert O.Step(cfg, j.log, O.Elsewhere(crawl.entries)) == Some(j.log.(entries := crawl.entries));
    LogOn(c, cfg, j.log, j.log.(entries := crawl.entries), O.Elsewhere(crawl.entries));
  }

  lemma BothTogether(c: S.Config, cfg: O.Config, j: Joint, e: O.Event, crawl: S.State, log: O.State)
    requires Alike(c, cfg) && Together(c, cfg, j) && Allowed(c, j, Both(e))
    requires S.Step(c, j.crawl, e.i + 2, Matching(j.log, e).value) == Some(crawl) && O.Step(cfg, j.log, e) == Some(log)
    ensures Together(c, cfg, Joint(crawl, log))
  {
    hide S.Step, O.Step, S.Occurs, LogReached;
    CrawlOn(c, j.crawl, crawl, e.i + 2, Matching(j.log, e).value);
    LogOn(c, cfg, j.log, log, e);
    if e.Count? {
      CountsAlike(c, cfg, j.crawl, crawl, j.log, log, e.i);
    } else {
      FeedsAlike(c, cfg, j.crawl, crawl, j.log, log, e.i, e.j);
    }
  }

  lemma StepTogether(c: S.Config, cfg: O.Config, j: Joint, m: Move)
    requires Alike(c, cfg) && Together(c, cfg, j) && Step(c, cfg, j, m).Some?
    ensures Together(c, cfg, Step(c, cfg, j, m).value)
  {
    hide S.Step, O.Step, S.Occurs, LogReached, Alike;
    var j' := Step(c, cfg, j, m).value;
    match m
    case Crawl(choice) => CrawlTogether(c, cfg, j, choice, j'.crawl);
    case Log(e) =>
      LogOn(c, cfg, j.log, j'.log, e);
      LogAlone(cfg, j.log, j'.log, e);
    case Both(e) => BothTogether(c, cfg, j, e, j'.crawl, j'.log);
  }

  lemma StartTogether(c: S.Config, cfg: O.Config)
    ensures Together(c, cfg, Start(c))
  {
    assert S.RunFrom(c, S.Init(c), []) == Some(S.Init(c));
    assert O.RunFrom(cfg, O.Init(map[], |c.pools|), []) == Some(O.Init(map[], |c.pools|));
  }

  lemma {:induction false} RunTogether(c: S.Config, cfg: O.Config, j: Joint, moves: seq<Move>)
    requires Alike(c, cfg) && RunFrom(c, cfg, Start(c), moves) == Some(j)
    ensures Together(c, cfg, j)
    decreases |moves|
  {
    hide Step, Together, Alike;
    StartTogether(c, cfg);
    if moves != [] {
      var before := RunFrom(c, cfg, Start(c), moves[..|moves| - 1]).value;
      RunTogether(c, cfg, before, moves[..|moves| - 1]);
      StepTogether(c, cfg, before, moves[|moves| - 1]);
    }
  }

  // ---- the main results ------------------------------------------------------------------------------------------

  /** The crawl and the log side by side, from the start, however their steps interleave: at every checkpoint with no
      failed write the snapshot of the crawl's own store and the synced file agree, while the crawl's counter is
      exact. */
  lemma JointCheckpoint(c: S.Config, cfg: O.Config, j: Joint, moves: seq<Move>)
    requires S.ValidConfig(c) && Alike(c, cfg) && RunFrom(c, cfg, Start(c), moves) == Some(j)
    requires j.log.checkpoint.Taken? && !j.log.writeFailed
    ensures j.crawl.entries == j.log.entries
    ensures j.log.checkpoint.durable == |j.log.log| && OI.InOrder(j.log.log) && j.log.synced == LogText(j.log.log)
    ensures forall k :: k in j.log.checkpoint.snap ==> OT.Agrees(cfg, j.log.checkpoint.snap[k], k, j.log.log)
    ensures OT.Covers(cfg, j.log.checkpoint.snap.Keys, j.log.log)
    ensures j.crawl.outstanding + Tally.Total(j.crawl.threads, C.Waiting) ==
              |T.ActiveKeys(j.crawl)| + |Tally.Gather(j.crawl.threads, I.Settling)|
  {
    hide RunFrom, S.Occurs, O.RunFrom, OT.Agrees, OT.Covers, OI.InOrder;
    RunTogether(c, cfg, j, moves);
    T.OutstandingExact(c, j.crawl);
    var events :| O.RunFrom(cfg, O.Init(map[], |c.pools|), events) == Some(j.log);
    OT.CheckpointAgrees(cfg, map[], |c.pools|, events, j.log);
  }

  /** Neither side holds the other up: a worker that is collecting, and has begun to record what it heard, can count it
      in both at once. */
  lemma CountGoesOn(c: S.Config, cfg: O.Config, j: Joint, i: nat)
    requires Alike(c, cfg) && j.crawl.entries == j.log.entries && j.crawl.Running()
    requires i < |j.log.threads| && j.log.threads[i].Entered? && i + 2 < |j.crawl.threads|
    requires Collecting(j.crawl, i + 2, j.log.threads[i].task.responder) && j.crawl.threads[i + 2].role.Worker?
    requires j.log.threads[i].task.responder in j.crawl.entries
    ensures Step(c, cfg, j, Both(O.Count(i))).Some?
  {}
}
