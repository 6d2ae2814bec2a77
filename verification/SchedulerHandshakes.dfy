/** The scheduler and the conversations joined: what an entry records of its peer is what was said on the wire. */
module SchedulerHandshakes {
  import opened Base
  import opened Network
  import opened NodeStore
  import opened Addresses
  import opened Scheduler
  import opened SchedulerVerdicts
  import opened SchedulerEntries
  import Conversation
  import Crawler
  import Envelope
  import Version

  type Trace = seq<Conversation.Act>

  // ---- what one step records -----------------------------------------------------------------------------

  /** An attempt as it was, one not lost in the handshake, or one lost just now, and to what happened just now. */
  predicate Attempted(pc: Pc, ev: Event, k: AddrKey, was: Option<Attempt>, a: Attempt) {
    was == Some(a) || (a.outcome != AttemptFailed && a.outcome != AttemptTimedOut) ||
    (a.outcome == AttemptFailed && (pc == SendingVersion(k) || pc == AwaitingPeer(k)) && ev.PeerFailed? &&
     a.failure == Some(ev.kind)) ||
    (a.outcome == AttemptTimedOut && pc == AwaitingPeer(k) && ev.PeerSilent? &&
        a.failure == Some(FailKind.HandshakeTimeout))
  }

  /** What a worker at `pc` makes of the handshake and the attempts of `k`. */
  ghost predicate Recorded(pc: Pc, ev: Event, k: AddrKey, e: NodeEntry, e': NodeEntry) {
    (e'.handshake == e.handshake || (pc == AwaitingPeer(k) && ev.PeerVersion? && e'.handshake == Some(ev.data))) &&
    forall j :: 0 <= j < |e'.attempts| ==>
      Attempted(pc, ev, k, if j < |e.attempts| then Some(e.attempts[j]) else None, e'.attempts[j])
  }

  lemma AdvanceRecords(c: Config, e: NodeEntry, pc: Pc, ev: Event, k: AddrKey)
    requires Advance(c, e, pc, ev).Some? && KeyOf(pc) == Some(k)
    ensures Recorded(pc, ev, k, e, Advance(c, e, pc, ev).value.0)
  {}

  lemma SameRecords(pc: Pc, ev: Event, k: AddrKey, e: NodeEntry, e': NodeEntry)
    requires e'.handshake == e.handshake && e'.attempts == e.attempts
    ensures Recorded(pc, ev, k, e, e')
  {}

  lemma ProcessRecords(c: Config, s: State, i: nat, ev: Event, k: AddrKey)
    requires i < |s.threads| && Process(c, s, i, ev).Some? && KeyOf(s.threads[i].pc) == Some(k) && k in s.entries
    ensures k in Process(c, s, i, ev).value.entries
    ensures Recorded(s.threads[i].pc, ev, k, s.entries[k], Process(c, s, i, ev).value.entries[k])
  {
    AdvanceRecords(c, s.entries[k], s.threads[i].pc, ev, k);
    hide Advance, Recorded;
  }

  lemma DiscoverRecords(c: Config, s: State, i: nat, ev: Event, k: AddrKey)
    requires i < |s.threads| && s.threads[i].pc.Discovering? && Discover(c, s, i, ev).Some? && k in s.entries
    ensures k in Discover(c, s, i, ev).value.entries
    ensures Recorded(s.threads[i].pc, ev, k, s.entries[k], Discover(c, s, i, ev).value.entries[k])
  {
    hide Recorded, TooOld;
    SameRecords(s.threads[i].pc, ev, k, s.entries[k], Discover(c, s, i, ev).value.entries[k]);
  }

  lemma FinishRecords(s: State, i: nat, ev: Event, k: AddrKey, key: AddrKey, terminal: NodeState,
      reason: Option<FailKind>)
    requires i < |s.threads| && k in s.entries
    ensures k in Finish(s, i, key, terminal, reason).entries
    ensures Recorded(s.threads[i].pc, ev, k, s.entries[k], Finish(s, i, key, terminal, reason).entries[k])
  {
    hide Recorded;
    SameRecords(s.threads[i].pc, ev, k, s.entries[k], Finish(s, i, key, terminal, reason).entries[k]);
  }

  lemma EditRecords(c: Config, s: State, s': State, i: nat, t: Transport, ev: Event, k: AddrKey)
    requires Edits(s, i, k) && k in s.entries && WorkerStep(c, s, i, t, ev) == Some(s')
    ensures k in s'.entries && Recorded(s.threads[i].pc, ev, k, s.entries[k], s'.entries[k])
  {
    hide Process, Discover, Receive, Finish, Queues.TrySend, Recorded;
    var pc := s.threads[i].pc;
    SameRecords(pc, ev, k, s.entries[k], s.entries[k]);
    match pc
    case Finishing(key, terminal, reason) => FinishRecords(s, i, ev, k, key, terminal, reason);
    case Discovering(_) => DiscoverRecords(c, s, i, ev, k);
    case Received(_) =>
    case Refused(_) =>
    case Resending(_, _, _) =>
    case _ => ProcessRecords(c, s, i, ev, k);
  }

  lemma OtherRecords(s: State, i: nat, ev: Event, k: AddrKey, e: NodeEntry, e': NodeEntry)
    requires i < |s.threads| && EntryStep(s, i, ev, k, e, e') && !Edits(s, i, k)
    ensures Recorded(s.threads[i].pc, ev, k, e, e')
  {
    hide Recorded;
    SameRecords(s.threads[i].pc, ev, k, e, e');
  }

  /** Any step of any thread, and any address. */
  lemma StepRecords(c: Config, s: State, s': State, i: nat, ev: Event, k: AddrKey)
    requires i < |s.threads| && Step(c, s, i, ev) == Some(s') && k in s.entries
    ensures k in s'.entries && Recorded(s.threads[i].pc, ev, k, s.entries[k], s'.entries[k])
  {
    StepEntries(c, s, s', i, ev);
    hide WorkerStep, Recorded, EnqueueStep, MainStep, SignalStep, CloseStep;
    assert EntryStep(s, i, ev, k, s.entries[k], s'.entries[k]);
    if Edits(s, i, k) {
      EditRecords(c, s, s', i, s.threads[i].role.t, ev, k);
    } else {
      OtherRecords(s, i, ev, k, s.entries[k], s'.entries[k]);
    }
  }

  // ---- where what is recorded came from ------------------------------------------------------------------

  /** The thread that made choice `n` was then at `pc`. */
  ghost predicate ChosenAt(c: Config, schedule: seq<Choice>, n: nat, pc: Pc) {
    n < |schedule| && RunFrom(c, Init(c), schedule[..n]).Some? &&
    var s := RunFrom(c, Init(c), schedule[..n]).value;
    schedule[n].thread < |s.threads| && s.threads[schedule[n].thread].pc == pc
  }

  /** The handshake data of `k` are those of the peer's version in choice `n`, made for `k`. */
  ghost predicate HandshakeFrom(c: Config, schedule: seq<Choice>, k: AddrKey, data: HandshakeData, n: nat) {
    ChosenAt(c, schedule, n, AwaitingPeer(k)) && schedule[n].event == PeerVersion(data)
  }

  /** The attempt was lost to the failure, or the silence, of choice `n`, made for `k`. */
  ghost predicate LostIn(c: Config, schedule: seq<Choice>, k: AddrKey, a: Attempt, n: nat) {
    (ChosenAt(c, schedule, n, SendingVersion(k)) || ChosenAt(c, schedule, n, AwaitingPeer(k))) &&
    if a.outcome == AttemptFailed then a.failure.Some? && schedule[n].event == PeerFailed(a.failure.value)
    else a.failure == Some(FailKind.HandshakeTimeout) && schedule[n].event == PeerSilent
  }

  predicate LostInHandshake(a: Attempt) { a.outcome == AttemptFailed || a.outcome == AttemptTimedOut }

  ghost predicate Origins(c: Config, schedule: seq<Choice>, k: AddrKey, e: NodeEntry) {
    (e.handshake.Some? ==> exists n: nat :: HandshakeFrom(c, schedule, k, e.handshake.value, n)) &&
    forall j :: 0 <= j < |e.attempts| && LostInHandshake(e.attempts[j]) ==>
      exists n: nat :: LostIn(c, schedule, k, e.attempts[j], n)
  }

  lemma ChosenLater(c: Config, schedule: seq<Choice>, more: seq<Choice>, n: nat, pc: Pc)
    requires ChosenAt(c, schedule, n, pc) && schedule <= more
    ensures ChosenAt(c, more, n, pc) && more[n] == schedule[n]
  {
    assert more[..n] == schedule[..n];
  }

  lemma HandshakeLater(c: Config, schedule: seq<Choice>, more: seq<Choice>, k: AddrKey, data: HandshakeData)
    requires schedule <= more && exists n: nat :: HandshakeFrom(c, schedule, k, data, n)
    ensures exists n: nat :: HandshakeFrom(c, more, k, data, n)
  {
    hide ChosenAt;
    var n: nat :| HandshakeFrom(c, schedule, k, data, n);
    ChosenLater(c, schedule, more, n, AwaitingPeer(k));
    assert HandshakeFrom(c, more, k, data, n);
  }

  lemma LossLater(c: Config, schedule: seq<Choice>, more: seq<Choice>, k: AddrKey, a: Attempt)
    requires schedule <= more && exists n: nat :: LostIn(c, schedule, k, a, n)
    ensures exists n: nat :: LostIn(c, more, k, a, n)
  {
    hide ChosenAt;
    var n: nat :| LostIn(c, schedule, k, a, n);
    var pc := if ChosenAt(c, schedule, n, SendingVersion(k)) then SendingVersion(k) else AwaitingPeer(k);
    ChosenLater(c, schedule, more, n, pc);
    assert LostIn(c, more, k, a, n);
  }

  lemma NowAt(c: Config, schedule: seq<Choice>, choice: Choice, s: State)
    requires RunFrom(c, Init(c), schedule) == Some(s) && choice.thread < |s.threads|
    ensures ChosenAt(c, schedule + [choice], |schedule|, s.threads[choice.thread].pc)
  {
    hide RunFrom, Init;
    assert (schedule + [choice])[..|schedule|] == schedule;
  }

  lemma OriginsOn(c: Config, schedule: seq<Choice>, choice: Choice, s: State, k: AddrKey, e: NodeEntry, e': NodeEntry)
    requires RunFrom(c, Init(c), schedule) == Some(s) && choice.thread < |s.threads| && Origins(c, schedule, k, e)
    requires Recorded(s.threads[choice.thread].pc, choice.event, k, e, e')
    ensures Origins(c, schedule + [choice], k, e')
  {
    hide ChosenAt, Step, RunFrom;
    var more, n := schedule + [choice], |schedule|;
    NowAt(c, schedule, choice, s);
    if e'.handshake.Some? {
      if e'.handshake == e.handshake {
        HandshakeLater(c, schedule, more, k, e.handshake.value);
      } else {
        assert HandshakeFrom(c, more, k, e'.handshake.value, n);
      }
    }
    forall j | 0 <= j < |e'.attempts| && LostInHandshake(e'.attempts[j])
      ensures exists m: nat :: LostIn(c, more, k, e'.attempts[j], m)
    {
      AttemptOn(c, schedule, choice, s, k, e, e', j);
    }
  }

  lemma AttemptOn(
    c: Config, schedule: seq<Choice>, choice: Choice, s: State, k: AddrKey, e: NodeEntry, e': NodeEntry, j: nat)
    requires RunFrom(c, Init(c), schedule) == Some(s) && choice.thread < |s.threads| && Origins(c, schedule, k, e)
    requires Recorded(s.threads[choice.thread].pc, choice.event, k, e, e')
    requires j < |e'.attempts| && LostInHandshake(e'.attempts[j])
    ensures exists m: nat :: LostIn(c, schedule + [choice], k, e'.attempts[j], m)
  {
    hide ChosenAt, RunFrom;
    var more, n := schedule + [choice], |schedule|;
    NowAt(c, schedule, choice, s);
    var was := if j < |e.attempts| then Some(e.attempts[j]) else None;
    assert Attempted(s.threads[choice.thread].pc, choice.event, k, was, e'.attempts[j]);
    if was == Some(e'.attempts[j]) {
      LossLater(c, schedule, more, k, e.attempts[j]);
    } else {
      assert LostIn(c, more, k, e'.attempts[j], n);
    }
  }

  lemma {:induction false} RunOrigins(c: Config, schedule: seq<Choice>, s: State, k: AddrKey)
    requires RunFrom(c, Init(c), schedule) == Some(s) && k in s.entries
    ensures Origins(c, schedule, k, s.entries[k])
    decreases |schedule|
  {
    hide Step, Recorded, Origins;
    if schedule != [] {
      var n := |schedule| - 1;
      var before := RunFrom(c, Init(c), schedule[..n]).value;
      var i, ev := schedule[n].thread, schedule[n].event;
      assert schedule[..n] + [schedule[n]] == schedule;
      if k in before.entries {
        RunOrigins(c, schedule[..n], before, k);
        StepRecords(c, before, s, i, ev, k);
        OriginsOn(c, schedule[..n], schedule[n], before, k, before.entries[k], s.entries[k]);
      } else {
        StepEntries(c, before, s, i, ev);
        BrandOrigins(c, schedule, k, ev, s.entries[k]);
      }
    }
  }

  lemma BrandOrigins(c: Config, schedule: seq<Choice>, k: AddrKey, ev: Event, e: NodeEntry)
    requires Brand(ev, e)
    ensures Origins(c, schedule, k, e)
  {}

  // ---- conversations ------------------------------------------------------------------------------------------

  /** What a handshake keeps of a peer's version. */
  function DataOf(v: Version.VersionData): HandshakeData {
    HandshakeData(v.version, v.services, v.userAgent, v.latestBlock, v.relay, v.timestamp)
  }

  /** What the scheduler is told of a handshake is the result its trace justifies. */
  ghost predicate Told(lib: Lib, utf8: Version.Utf8, ev: Event, t: Trace) {
    match ev
    case PeerVersion(data) =>
      exists v :: data == DataOf(v) && Conversation.Justified(lib, utf8, t, 0, Conversation.Completed(v))
    case PeerSilent => Conversation.Justified(lib, utf8, t, 0, Conversation.TimedOut)
    case PeerFailed(kind) => Conversation.Justified(lib, utf8, t, 0, Conversation.HandshakeError(kind))
    case _ => true
  }

  /** A run whose handshakes were held: `traces` has the conversation of each choice that ends one. */
  ghost predicate Conversed(lib: Lib, utf8: Version.Utf8, schedule: seq<Choice>, traces: seq<Trace>) {
    |traces| == |schedule| && forall n :: 0 <= n < |schedule| ==> Told(lib, utf8, schedule[n].event, traces[n])
  }

  /** Our version was written, then the peer's was received and read as `v`, then our verack was written,
      and then the peer's was received. */
  ghost predicate ShookHands(lib: Lib, utf8: Version.Utf8, t: Trace, v: Version.VersionData) {
    exists i: nat, j: nat, k: nat :: 0 < i < j < k < |t| &&
      t[0].Sent? && t[0].message.command == Conversation.VERSION &&
      t[i].Heard? && t[i].message.command == Conversation.VERSION &&
      Version.ParseVersion(lib, utf8, t[i].message.payload) == Some(v) &&
      t[j] == Conversation.Sent(Envelope.Message(Conversation.VERACK, [])) &&
      t[k].Heard? && t[k].message.command == Conversation.VERACK
  }

  lemma CompletedShookHands(lib: Lib, utf8: Version.Utf8, t: Trace, v: Version.VersionData)
    requires Conversation.Justified(lib, utf8, t, 0, Conversation.Completed(v))
    ensures ShookHands(lib, utf8, t, v)
  {
    hide Version.ParseVersion;
    var i: nat, j: nat :| Conversation.Acknowledged(lib, utf8, t, 0, i, j) &&
      Conversation.PeerVersion(lib, utf8, t[i]) == Some(v) && j < |t| - 1 &&
      t[|t| - 1].Heard? && t[|t| - 1].message.command == Conversation.VERACK;
    assert 0 < i < j < |t| - 1 < |t|;
  }

  /** Reachable means what it says: its handshake data are those of a version the peer sent, in the conversation of
      an attempt made for this very address, in which our verack followed the version and the peer's verack
      followed ours. */
  lemma ReachableShookHands(
    c: Config, lib: Lib, utf8: Version.Utf8, schedule: seq<Choice>, traces: seq<Trace>, s: State, k: AddrKey)
    returns (n: nat, v: Version.VersionData)
    requires ValidConfig(c) && RunFrom(c, Init(c), schedule) == Some(s) && Conversed(lib, utf8, schedule, traces)
    requires k in s.entries && s.entries[k].state == Reachable
    ensures s.entries[k].handshake == Some(DataOf(v)) && HandshakeFrom(c, schedule, k, DataOf(v), n)
    ensures n < |traces| && ShookHands(lib, utf8, traces[n], v)
  {
    hide Step, ChosenAt, Init, Conversation.Justified, ShookHands;
    assert Occurs(c, s);
    Verdicts(c, s, k);
    RunOrigins(c, schedule, s, k);
    hide Occurs, RunFrom;
    var data := s.entries[k].handshake.value;
    n :| HandshakeFrom(c, schedule, k, data, n);
    OriginInRange(c, schedule, n, AwaitingPeer(k));
    assert Told(lib, utf8, schedule[n].event, traces[n]);
    v :| data == DataOf(v) && Conversation.Justified(lib, utf8, traces[n], 0, Conversation.Completed(v));
    CompletedShookHands(lib, utf8, traces[n], v);
  }

  lemma OriginInRange(c: Config, schedule: seq<Choice>, n: nat, pc: Pc)
    requires ChosenAt(c, schedule, n, pc)
    ensures n < |schedule|
  {}

  /** Every attempt recorded as lost in the handshake was lost in a conversation held for this address, whose trace
      justifies the reason recorded. */
  lemma LossesJustified(
    c: Config, lib: Lib, utf8: Version.Utf8, schedule: seq<Choice>, traces: seq<Trace>, s: State, k: AddrKey, j: nat)
    returns (n: nat)
    requires RunFrom(c, Init(c), schedule) == Some(s) && Conversed(lib, utf8, schedule, traces)
    requires k in s.entries && j < |s.entries[k].attempts| && LostInHandshake(s.entries[k].attempts[j])
    ensures n < |traces| && LostIn(c, schedule, k, s.entries[k].attempts[j], n)
    ensures var a := s.entries[k].attempts[j];
            a.failure.Some? &&
            Conversation.Justified(
              lib, utf8, traces[n], 0,
              if a.outcome == AttemptFailed then
                Conversation.HandshakeError(a.failure.value)
              else
                Conversation.TimedOut)
  {
    hide Step, ChosenAt, Init, Conversation.Justified;
    RunOrigins(c, schedule, s, k);
    hide RunFrom;
    var a := s.entries[k].attempts[j];
    n :| LostIn(c, schedule, k, a, n);
    var pc := if ChosenAt(c, schedule, n, SendingVersion(k)) then SendingVersion(k) else AwaitingPeer(k);
    OriginInRange(c, schedule, n, pc);
    assert Told(lib, utf8, schedule[n].event, traces[n]);
  }

  // ---- held by the method -----------------------------------------------------------------------------------------

  /** A handshake held over a new link tells the scheduler what its trace justifies. */
  method HoldHandshake(
    link: Conversation.Link, lib: Lib, utf8: Version.Utf8, timestamp: int, nonce: nat, timeout: nat)
    returns (ev: Option<Event>)
    requires link.trace == [] && 0 <= 2 * timestamp + U64 < 2 * U64 && nonce < U64
    modifies link, link.conn
    ensures ev.Some? ==> EndsHandshake(ev.value)
    ensures ev.Some? ==> Told(lib, utf8, ev.value, link.trace)
  {
    hide Conversation.Justified;
    var r := Conversation.Handshake(link, lib, utf8, timestamp, nonce, timeout);
    match r {
      case Completed(v) => return Some(PeerVersion(DataOf(v)));
      case TimedOut => return Some(PeerSilent);
      case HandshakeError(kind) => return Some(PeerFailed(kind));
      case Unfinished => return None;
    }
  }

  /** An event a handshake can end with. */
  predicate EndsHandshake(ev: Event) {
    ev.PeerVersion? || ev.PeerSilent? || (ev.PeerFailed? && (ev.kind == VersionSendFailed || IsHandshakeKind(ev.kind)))
  }

  /** The scheduler's events of a whole handshake. */
  function HandshakeEvents(ev: Event): seq<Event> {
    if ev == PeerFailed(VersionSendFailed) then [ev] else [VersionWritten, ev]
  }

  /** Where a handshake leaves its worker. */
  function AfterHandshake(k: AddrKey, ev: Event): Pc
    requires EndsHandshake(ev)
  {
    match ev
    case PeerVersion(_) => Discovering(k)
    case PeerSilent => HandshakeLost(k, true, FailKind.HandshakeTimeout)
    case PeerFailed(kind) => HandshakeLost(k, false, kind)
  }

  lemma AwaitedStep(c: Config, s: State, i: nat, k: AddrKey, ev: Event) returns (s': State)
    requires Crawler.Working(s, i) && s.threads[i].pc == AwaitingPeer(k) && k in s.entries
    requires EndsHandshake(ev) && ev != PeerFailed(VersionSendFailed)
    ensures Step(c, s, i, ev) == Some(s') && i < |s'.threads| && s'.threads[i].pc == AfterHandshake(k, ev)
    ensures k in s'.entries && (ev.PeerVersion? ==> s'.entries[k].handshake == Some(ev.data))
  {
    s' := Process(c, s, i, ev).value;
  }

  lemma UnsentStep(c: Config, s: State, i: nat, k: AddrKey, ev: Event) returns (s': State)
    requires Crawler.Working(s, i) && s.threads[i].pc == SendingVersion(k) && k in s.entries
    requires ev == PeerFailed(VersionSendFailed)
    ensures Step(c, s, i, ev) == Some(s') && i < |s'.threads| && s'.threads[i].pc == AfterHandshake(k, ev)
    ensures k in s'.entries
  {
    s' := Process(c, s, i, ev).value;
  }

  lemma WrittenStep(c: Config, s: State, i: nat, k: AddrKey) returns (s': State)
    requires Crawler.Working(s, i) && s.threads[i].pc == SendingVersion(k) && k in s.entries
    ensures Step(c, s, i, VersionWritten) == Some(s') && Crawler.Working(s', i)
    ensures s'.threads[i].pc == AwaitingPeer(k) && k in s'.entries
  {
    s' := Process(c, s, i, VersionWritten).value;
  }

  /** Whatever a handshake ends with, the worker that began it takes it by its own steps: on to discovery with the
      peer's data stored, or to the loss with its reason. */
  lemma HandshakeLeads(c: Config, s: State, i: nat, k: AddrKey, ev: Event) returns (s': State)
    requires Crawler.Working(s, i) && s.threads[i].pc == SendingVersion(k) && k in s.entries && EndsHandshake(ev)
    ensures Crawler.Alone(c, i, s, HandshakeEvents(ev)) == Some(s') && Crawler.Leads(c, i, s, s')
    ensures i < |s'.threads| && s'.threads[i].pc == AfterHandshake(k, ev)
    ensures k in s'.entries && (ev.PeerVersion? ==> s'.entries[k].handshake == Some(ev.data))
  {
    hide Step, Crawler.Working, EndsHandshake, AfterHandshake;
    assert Crawler.Alone(c, i, s, []) == Some(s);
    assert i < |s.threads| by { InRange(s, i); }
    if ev == PeerFailed(VersionSendFailed) {
      s' := UnsentStep(c, s, i, k, ev);
      assert [ev][..0] == [];
    } else {
      var m := WrittenStep(c, s, i, k);
      s' := AwaitedStep(c, m, i, k, ev);
      InRange(m, i);
      assert [VersionWritten][..0] == [] && [VersionWritten, ev][..1] == [VersionWritten];
      assert Crawler.Alone(c, i, s, [VersionWritten]) == Some(m);
    }
  }

  lemma InRange(s: State, i: nat)
    requires Crawler.Working(s, i)
    ensures i < |s.threads|
  {}
}
