/** The collection of addresses from one peer (`getaddr` in src/crawler.rs). */
module Collection {
  import opened Base
  import opened NodeStore
  import opened Addresses
  import opened Envelope
  import opened Receiver
  import opened Conversation
  import opened Gathering
  import AddrMessages
  import Crawler
  import Scheduler

  // ---- the trace of a collection -----------------------------------------------------------------------

  predicate IsAddr(m: Message) { m.command == ADDR || m.command == ADDRV2 }

  ghost function Parsed(lib: Lib, m: Message): AddrMessages.Parsed {
    AddrMessages.Parse(lib, if m.command == ADDR then AddrMessages.Legacy else AddrMessages.V2, m.payload)
  }

  /** An address message that was accepted. */
  ghost predicate IsBlock(lib: Lib, act: Act) { act.Heard? && IsAddr(act.message) && Parsed(lib, act.message).Ok? }

  /** The messages accepted from `from` up to `to`, in order. */
  ghost function Blocks(lib: Lib, t: seq<Act>, from: nat, to: nat): seq<AddrMessages.ParsedAddrMessage>
    requires to <= |t|
  {
    if to <= from then []
    else Blocks(lib, t, from, to - 1) + (if IsBlock(lib, t[to - 1]) then [Parsed(lib, t[to - 1].message).value] else [])
  }

  ghost function Declared(blocks: seq<AddrMessages.ParsedAddrMessage>): nat {
    if blocks == [] then 0 else Declared(blocks[..|blocks| - 1]) + blocks[|blocks| - 1].declaredCount
  }

  /** Why a collection ended. */
  datatype Ending =
    | CannotAsk | DeadlinePassed | Answered | BadMessage | LogBroken | PingLost | WentQuiet | MidEnvelope
    | TransportTimedOut | TransportLost

  /** How an ending is recorded, after `n` accepted messages. */
  function Grade(ending: Ending, n: nat): CollectionOutcome {
    match ending
    case CannotAsk => SendFailed
    case DeadlinePassed => if n == 0 then HardTimeout else PartialHardTimeout
    case Answered => CompleteQuiet
    case BadMessage => if n == 0 then MalformedResponse else PartialMalformedResponse
    case LogBroken => LogFailed
    case PingLost => if n == 0 then RemoteDisconnect else PartialRemoteDisconnect
    case TransportLost => if n == 0 then RemoteDisconnect else PartialRemoteDisconnect
    case WentQuiet => if n == 0 then NoResponseTimeout else CompleteQuiet
    case MidEnvelope => if n == 0 then IncompleteEnvelopeTimeout else PartialIncompleteEnvelopeTimeout
    case TransportTimedOut => if n == 0 then IncompleteEnvelopeTimeout else PartialIncompleteEnvelopeTimeout
  }

  predicate IsTimeout(e: RecvError) { e == HardDeadline || e == ReadFailed(IoTimedOut) }

  /** Nothing that ends a collection: an accepted message of one address at most, another message that is
      no bad ping, a pong sent. */
  ghost predicate GoesOn(lib: Lib, version: int, act: Act) {
    match act
    case Heard(m) =>
      if IsAddr(m) then Parsed(lib, m).Ok? && |Parsed(lib, m).value.addrs| <= 1
      else m.command == PING ==> PingReply(m.payload, version) != BadPing
    case Sent(m) => m.command == PONG
    case _ => false
  }

  /** The last act of a collection that ended so. */
  ghost predicate EndsWith(lib: Lib, version: int, ending: Ending, last: Act, partial: bool) {
    match ending
    case Answered => IsBlock(lib, last) && |Parsed(lib, last.message).value.addrs| > 1
    case BadMessage => last.Heard? && IsAddr(last.message) && Parsed(lib, last.message).Err?
    case LogBroken => last.Heard? && IsAddr(last.message)
    case PingLost =>
      (last.Refused? && last.message.command == PONG) ||
      (last.Heard? && last.message.command == PING && PingReply(last.message.payload, version) == BadPing)
    case WentQuiet => last.Idled? && !partial
    case MidEnvelope => last.Idled? && partial
    case TransportTimedOut => last.Broke? && IsTimeout(last.error)
    case TransportLost => last.Broke? && !IsTimeout(last.error)
    case DeadlinePassed => GoesOn(lib, version, last)
    case CannotAsk => false
  }

  /** The trace since `from` is that of a collection that ended so. */
  ghost predicate Collected(lib: Lib, version: int, t: seq<Act>, from: nat, ending: Ending, partial: bool) {
    from < |t| &&
    if ending == CannotAsk then |t| == from + 1 && t[from].Refused?
    else
      t[from] == Sent(Message(GETADDR, [])) && (forall i :: from < i < |t| - 1 ==> GoesOn(lib, version, t[i])) &&
      (|t| == from + 1 ==> ending == DeadlinePassed) &&
      (|t| > from + 1 ==> EndsWith(lib, version, ending, t[|t| - 1], partial))
  }

  // ---- what the outcomes say -------------------------------------------------------------------------------

  predicate HasAnswers(o: CollectionOutcome) {
    o in {CompleteQuiet, PartialHardTimeout, PartialMalformedResponse, PartialRemoteDisconnect,
          PartialIncompleteEnvelopeTimeout}
  }

  lemma {:induction false} BlocksGoOn(lib: Lib, version: int, t: seq<Act>, from: nat, to: nat)
    requires to <= |t| && forall i :: from <= i < to ==> GoesOn(lib, version, t[i])
    ensures forall i :: 0 <= i < |Blocks(lib, t, from, to)| ==> |Blocks(lib, t, from, to)[i].addrs| <= 1
  {
    if from < to {
      BlocksGoOn(lib, version, t, from, to - 1);
    }
  }

  /** The outcome of a collection tells whether the peer gave any answer, and only its last one can be of
      more than one address. */
  lemma OutcomeFaithful(lib: Lib, version: int, t: seq<Act>, from: nat, ending: Ending, partial: bool)
    requires Collected(lib, version, t, from, ending, partial) && ending != LogBroken
    ensures var blocks := Blocks(lib, t, from + 1, |t|);
            var outcome := Grade(ending, |blocks|);
            (HasAnswers(outcome) <==> blocks != []) && outcome != NotRequested && outcome != LogFailed &&
            (forall i :: 0 <= i < |blocks| - 1 ==> |blocks[i].addrs| <= 1) &&
            (blocks != [] && |blocks[|blocks| - 1].addrs| > 1 <==> ending == Answered)
  {
    LastBlock(lib, version, t, from, ending, partial);
    hide Collected, Parsed;
    GradeFaithful(ending, |Blocks(lib, t, from + 1, |t|)|);
  }

  lemma GradeFaithful(ending: Ending, n: nat)
    requires ending != LogBroken && (ending == Answered ==> n > 0) && (ending == CannotAsk ==> n == 0)
    ensures HasAnswers(Grade(ending, n)) <==> n > 0
    ensures Grade(ending, n) != NotRequested && Grade(ending, n) != LogFailed
  {}

  /** Which messages of a collection can be of more than one address. */
  lemma LastBlock(lib: Lib, version: int, t: seq<Act>, from: nat, ending: Ending, partial: bool)
    requires Collected(lib, version, t, from, ending, partial) && ending != LogBroken
    ensures var blocks := Blocks(lib, t, from + 1, |t|);
            (forall i :: 0 <= i < |blocks| - 1 ==> |blocks[i].addrs| <= 1) &&
            (blocks != [] && |blocks[|blocks| - 1].addrs| > 1 <==> ending == Answered) &&
            (ending == CannotAsk ==> blocks == [])
  {
    hide Parsed;
    assert PING != ADDR && PING != ADDRV2;
    if |t| > from + 1 {
      BlocksGoOn(lib, version, t, from + 1, |t| - 1);
    }
  }

  // ---- the collection, step by step ---------------------------------------------------------------------------

  lemma {:induction false} BlocksPrefix(lib: Lib, t: seq<Act>, t': seq<Act>, from: nat, to: nat)
    requires to <= |t| && t <= t'
    ensures Blocks(lib, t', from, to) == Blocks(lib, t, from, to)
  {
    if from < to {
      BlocksPrefix(lib, t, t', from, to - 1);
    }
  }

  /** One act more. */
  lemma BlocksSnoc(lib: Lib, t: seq<Act>, act: Act, from: nat)
    requires from <= |t|
    ensures Blocks(lib, t + [act], from, |t| + 1) ==
              Blocks(lib, t, from, |t|) + (if IsBlock(lib, act) then [Parsed(lib, act.message).value] else [])
  {
    BlocksPrefix(lib, t, t + [act], from, |t|);
  }

  /** The state between two messages. */
  ghost predicate Collecting(lib: Lib, version: int, t: seq<Act>, from: nat) {
    from < |t| && t[from] == Sent(Message(GETADDR, [])) && forall i :: from < i < |t| ==> GoesOn(lib, version, t[i])
  }

  /** How one message received leaves the collection: over, or not. */
  datatype Progress = Over(ending: Ending) | On

  /** An address message: parsed, logged, and taken into the store and the queues. */
  method OnAddr(
    crawler: Crawler.Crawler, w: Site, lib: Lib, m: Message, logged: bool, now: int, ghost seat: Seat)
    returns (p: Progress)
    requires Ready(crawler, seat, w) && IsAddr(m)
    modifies crawler`queues, crawler.store
    ensures Ready(crawler, seat, w)
    ensures match Parsed(lib, m)
            case Err(_) =>
              p == Over(if logged then BadMessage else LogBroken) &&
              Sight(crawler, seat) == Raised(old(Sight(crawler, seat)), w.key, 0, 0, 1)
            case Ok(message) =>
              p == (if !logged then Over(LogBroken) else if |message.addrs| > 1 then Over(Answered) else On) &&
              Sight(crawler, seat) == Absorbed(w, old(Sight(crawler, seat)), message, logged, now)
  {
    hide AddrMessages.Parse, Absorbed;
    var parsed;
    if m.command == ADDR {
      parsed := AddrMessages.ParseMessage(lib, AddrMessages.Legacy, m.payload);
    } else {
      parsed := AddrMessages.ParseMessage(lib, AddrMessages.V2, m.payload);
    }
    match parsed {
      case Err(_) =>
        CountMalformed(crawler, w, seat);
        return Over(if logged then BadMessage else LogBroken);
      case Ok(message) =>
        TakeBlock(crawler, w, message, logged, now, seat);
        if !logged { return Over(LogBroken); }
        if |message.addrs| > 1 { return Over(Answered); }
        return On;
    }
  }

  /** What a sequence of logged messages, received at the times `nows`, makes of the crawl. */
  ghost function AbsorbedAll(w: Site, s: Scheduler.State, blocks: seq<AddrMessages.ParsedAddrMessage>, nows: seq<int>)
    : (r: Scheduler.State)
    requires |nows| == |blocks| && w.key in s.entries
    ensures w.key in r.entries && r.threads == s.threads
  {
    if blocks == [] then s
    else
      var n := |blocks| - 1;
      Absorbed(w, AbsorbedAll(w, s, blocks[..n], nows[..n]), blocks[n], true, nows[n])
  }

  ghost predicate Absorbs(
    w: Site, before: Scheduler.State, blocks: seq<AddrMessages.ParsedAddrMessage>, nows: seq<int>,
    after: Scheduler.State)
  {
    |nows| == |blocks| && w.key in before.entries && after == AbsorbedAll(w, before, blocks, nows)
  }

  ghost predicate AbsorbsInTime(
    w: Site, before: Scheduler.State, blocks: seq<AddrMessages.ParsedAddrMessage>, after: Scheduler.State)
  {
    exists nows :: Absorbs(w, before, blocks, nows, after)
  }

  /** The messages `blocks`, and then one that was not logged. */
  ghost predicate AbsorbsButLast(
    w: Site, before: Scheduler.State, blocks: seq<AddrMessages.ParsedAddrMessage>, last: AddrMessages.ParsedAddrMessage,
    after: Scheduler.State)
  {
    exists s, now :: AbsorbsInTime(w, before, blocks, s) && w.key in s.entries &&
        after == Absorbed(w, s, last, false, now)
  }

  /** The messages `blocks`, and then a malformed one. */
  ghost predicate AbsorbsThenBad(
    w: Site, before: Scheduler.State, blocks: seq<AddrMessages.ParsedAddrMessage>, after: Scheduler.State)
  {
    exists s :: AbsorbsInTime(w, before, blocks, s) && w.key in s.entries && after == Raised(s, w.key, 0, 0, 1)
  }

  /** What the collection has made of the crawl: its accepted messages, absorbed in order. */
  ghost predicate Figures(w: Site, lib: Lib, t: seq<Act>, from: nat, before: Scheduler.State, after: Scheduler.State) {
    AbsorbsInTime(w, before, Blocks(lib, t, from + 1, |t|), after)
  }

  /** And in the end, when the last message may be malformed, or have failed to be logged. */
  ghost predicate FinalFigures(
    w: Site, lib: Lib, t: seq<Act>, from: nat, ending: Ending, before: Scheduler.State, after: Scheduler.State)
  {
    t != [] &&
    var blocks := Blocks(lib, t, from + 1, |t|);
    if ending == LogBroken && IsBlock(lib, t[|t| - 1]) then
      blocks != [] && AbsorbsButLast(w, before, blocks[..|blocks| - 1], blocks[|blocks| - 1], after)
    else if ending == LogBroken || ending == BadMessage then AbsorbsThenBad(w, before, blocks, after)
    else Figures(w, lib, t, from, before, after)
  }

  /** An act that is no accepted message changes no figure. */
  lemma FiguresIdle(w: Site, lib: Lib, t: seq<Act>, act: Act, from: nat, before: Scheduler.State,
      after: Scheduler.State)
    requires from < |t| && Figures(w, lib, t, from, before, after) && !IsBlock(lib, act)
    ensures Figures(w, lib, t + [act], from, before, after)
  {
    hide Blocks, IsBlock, AbsorbsInTime;
    BlocksSnoc(lib, t, act, from + 1);
    var blocks := Blocks(lib, t, from + 1, |t|);
    assert blocks + [] == blocks;
  }

  lemma FiguresFinal(w: Site, lib: Lib, t: seq<Act>, from: nat, ending: Ending, before: Scheduler.State,
      after: Scheduler.State)
    requires t != [] && Figures(w, lib, t, from, before, after) && ending != LogBroken && ending != BadMessage
    ensures FinalFigures(w, lib, t, from, ending, before, after)
  {
    hide Figures;
  }

  lemma AbsorbsOn(
    w: Site, before: Scheduler.State, blocks: seq<AddrMessages.ParsedAddrMessage>, nows: seq<int>, s: Scheduler.State,
    m: AddrMessages.ParsedAddrMessage, now: int)
    requires Absorbs(w, before, blocks, nows, s)
    ensures w.key in s.entries && Absorbs(w, before, blocks + [m], nows + [now], Absorbed(w, s, m, true, now))
  {
    hide Absorbed;
    assert (blocks + [m])[..|blocks|] == blocks && (nows + [now])[..|nows|] == nows;
  }

  /** An address message, accounted for. */
  lemma FiguresAddr(
    w: Site, lib: Lib, t: seq<Act>, m: Message, t': seq<Act>, from: nat, p: Progress, logged: bool, now: int,
    before: Scheduler.State, between: Scheduler.State, after: Scheduler.State)
    requires from < |t| && IsAddr(m) && t' == t + [Heard(m)] && Figures(w, lib, t, from, before, between) &&
        w.key in between.entries
    requires match Parsed(lib, m)
             case Err(_) =>
               p == Over(if logged then BadMessage else LogBroken) && after == Raised(between, w.key, 0, 0, 1)
             case Ok(message) =>
               p == (if !logged then Over(LogBroken) else if |message.addrs| > 1 then Over(Answered) else On) &&
               after == Absorbed(w, between, message, logged, now)
    ensures match p
            case On => Figures(w, lib, t', from, before, after)
            case Over(ending) => FinalFigures(w, lib, t', from, ending, before, after)
  {
    hide Blocks, Parsed, IsAddr, Absorbed, Raised, Absorbs, AbsorbsInTime;
    BlocksSnoc(lib, t, Heard(m), from + 1);
    var blocks := Blocks(lib, t, from + 1, |t|);
    match Parsed(lib, m)
    case Err(_) =>
      assert blocks + [] == blocks;
      assert AbsorbsThenBad(w, before, blocks, after);
    case Ok(message) =>
      assert (blocks + [message])[..|blocks|] == blocks;
      InTimeOn(w, before, blocks, between, message, now);
      assert logged || AbsorbsButLast(w, before, blocks, message, after);
  }

  lemma InTimeOn(
    w: Site, before: Scheduler.State, blocks: seq<AddrMessages.ParsedAddrMessage>, s: Scheduler.State,
    m: AddrMessages.ParsedAddrMessage, now: int)
    requires AbsorbsInTime(w, before, blocks, s)
    ensures w.key in s.entries && AbsorbsInTime(w, before, blocks + [m], Absorbed(w, s, m, true, now))
  {
    hide Absorbs, Absorbed;
    var nows :| Absorbs(w, before, blocks, nows, s);
    AbsorbsOn(w, before, blocks, nows, s, m, now);
  }

  lemma CollectedAddr(lib: Lib, version: int, t: seq<Act>, m: Message, t': seq<Act>, from: nat, p: Progress,
                      logged: bool, partial: bool)
    requires Collecting(lib, version, t, from) && IsAddr(m) && t' == t + [Heard(m)]
    requires match Parsed(lib, m)
             case Err(_) => p == Over(if logged then BadMessage else LogBroken)
             case Ok(message) =>
               p == (if !logged then Over(LogBroken) else if |message.addrs| > 1 then Over(Answered) else On)
    ensures match p
            case On => Collecting(lib, version, t', from)
            case Over(ending) => Collected(lib, version, t', from, ending, partial)
  {
    hide Parsed, IsAddr;
  }

  lemma CollectedEnd(lib: Lib, version: int, t: seq<Act>, act: Act, from: nat, ending: Ending, partial: bool)
    requires Collecting(lib, version, t, from) && EndsWith(lib, version, ending, act, partial) && ending != CannotAsk
    ensures Collected(lib, version, t + [act], from, ending, partial)
  {
    hide Parsed, IsAddr, EndsWith, GoesOn;
  }

  method GetAddr(
    link: Link, crawler: Crawler.Crawler, w: Site, lib: Lib, version: int,
    hardTimeout: nat, idle: nat, logWrites: seq<bool>, epoch: nat -> int, ghost seat: Seat)
    returns (outcome: Option<CollectionOutcome>, ghost ending: Ending)
    requires Ready(crawler, seat, w)
    modifies link, link.conn, crawler`queues, crawler.store
    ensures Ready(crawler, seat, w) && old(link.trace) <= link.trace
    ensures outcome.Some? ==>
              var from := |old(link.trace)|;
              Collected(lib, version, link.trace, from, ending, link.conn.recvBuf != []) &&
              outcome.value == Grade(ending, |Blocks(lib, link.trace, from + 1, |link.trace|)|) &&
              FinalFigures(w, lib, link.trace, from, ending, old(Sight(crawler, seat)), Sight(crawler, seat))
    ensures outcome.Some? && ending == DeadlinePassed ==> link.clock >= old(link.clock) + hardTimeout
    ensures Visiting(w, old(Sight(crawler, seat)), seat.i) ==>
              Crawler.Leads(w.c, seat.i, old(Sight(crawler, seat)), Sight(crawler, seat))
  {
    hide Collected, Grade, Blocks, FinalFigures, Figures, Ready, Sight, Visiting, Crawler.Leads, Scheduler.Occurs;
    ghost var from, before := |link.trace|, Sight(crawler, seat);
    outcome, ending := Ask(link, crawler, w, lib, version, hardTimeout, idle, logWrites, epoch, seat);
    if Visiting(w, before, seat.i) {
      if outcome.Some? {
        CollectionLeads(w, lib, link.trace, from, ending, before, Sight(crawler, seat), seat.i);
      } else {
        FiguresLead(w, lib, link.trace, from, before, Sight(crawler, seat), seat.i);
      }
    }
  }

  lemma FiguresLead(
    w: Site, lib: Lib, t: seq<Act>, from: nat, before: Scheduler.State, after: Scheduler.State, i: nat)
    requires Figures(w, lib, t, from, before, after) && Visiting(w, before, i)
    ensures Crawler.Leads(w.c, i, before, after)
  {
    hide Crawler.Leads, Visiting, AbsorbsInTime, Blocks;
    InTimeLeads(w, before, Blocks(lib, t, from + 1, |t|), after, i);
  }

  /** The request, and the loop over its answers. */
  method Ask(
    link: Link, crawler: Crawler.Crawler, w: Site, lib: Lib, version: int,
    hardTimeout: nat, idle: nat, logWrites: seq<bool>, epoch: nat -> int, ghost seat: Seat)
    returns (outcome: Option<CollectionOutcome>, ghost ending: Ending)
    requires Ready(crawler, seat, w)
    modifies link, link.conn, crawler`queues, crawler.store
    ensures Ready(crawler, seat, w) && old(link.trace) <= link.trace
    ensures outcome.Some? ==>
              var from := |old(link.trace)|;
              Collected(lib, version, link.trace, from, ending, link.conn.recvBuf != []) &&
              outcome.value == Grade(ending, |Blocks(lib, link.trace, from + 1, |link.trace|)|) &&
              FinalFigures(w, lib, link.trace, from, ending, old(Sight(crawler, seat)), Sight(crawler, seat))
    ensures outcome.Some? && ending == DeadlinePassed ==> link.clock >= old(link.clock) + hardTimeout
    ensures outcome == None ==>
              Figures(w, lib, link.trace, |old(link.trace)|, old(Sight(crawler, seat)), Sight(crawler, seat))
  {
    ending := CannotAsk;
    ghost var from := |link.trace|;
    ghost var start := Sight(crawler, seat);
    var failure := link.Say(GETADDR, []);
    FiguresStart(w, lib, link.trace, from, start);
    if failure.Some? { return Some(SendFailed), CannotAsk; }
    var hardDeadline := link.clock + hardTimeout;
    var validMessages := 0;
    var writes := logWrites;
    assert Collecting(lib, version, link.trace, from);
    hide Blocks, Collecting, Collected, IsAddr, IsTimeout, Figures, FinalFigures, Link.Next;
    while true
      invariant Ready(crawler, seat, w) && old(link.trace) <= link.trace
      invariant from < |link.trace| && Collecting(lib, version, link.trace, from)
      invariant validMessages == |Blocks(lib, link.trace, from + 1, |link.trace|)|
      invariant Figures(w, lib, link.trace, from, start, Sight(crawler, seat))
      decreases |link.ticks|, |link.conn.recvBuf|
    {
      ghost var t := link.trace;
      if link.clock >= hardDeadline {
        DeadlineEnd(lib, version, t, from, link.conn.recvBuf != []);
        FiguresFinal(w, lib, t, from, DeadlinePassed, start, Sight(crawler, seat));
        return Some(if validMessages == 0 then HardTimeout else PartialHardTimeout), DeadlinePassed;
      }
      var wait := if hardDeadline - link.clock < idle then hardDeadline - link.clock else idle;
      var logged := writes == [] || writes[0];
      var pass;
      pass, ending := OnePass(link, crawler, w, lib, version, wait, validMessages, logged, epoch, from, start, seat);
      match pass {
        case Finished(o) => return Some(o), ending;
        case Stuck => return None, ending;
        case Again(counted) =>
          validMessages := validMessages + counted;
          if counted > 0 && writes != [] { writes := writes[1..]; }
      }
    }
  }

  /** What one turn of the loop comes to; `Stuck` is a wait that has not ended. */
  datatype Pass = Again(counted: nat) | Finished(outcome: CollectionOutcome) | Stuck

  /** One turn of the loop: one wait for a message. */
  method OnePass(
    link: Link, crawler: Crawler.Crawler, w: Site, lib: Lib, version: int, wait: nat,
    validMessages: nat, logged: bool, epoch: nat -> int, ghost from: nat, ghost start: Scheduler.State,
    ghost seat: Seat)
    returns (pass: Pass, ghost ending: Ending)
    requires Ready(crawler, seat, w) && from < |link.trace|
    requires Collecting(lib, version, link.trace, from)
    requires validMessages == |Blocks(lib, link.trace, from + 1, |link.trace|)|
    requires Figures(w, lib, link.trace, from, start, Sight(crawler, seat))
    modifies link, link.conn, crawler`queues, crawler.store
    ensures Ready(crawler, seat, w) && old(link.trace) <= link.trace
    ensures pass.Again? ==>
              Collecting(lib, version, link.trace, from) &&
              validMessages + pass.counted == |Blocks(lib, link.trace, from + 1, |link.trace|)| &&
              Figures(w, lib, link.trace, from, start, Sight(crawler, seat)) &&
              |link.ticks| <= |old(link.ticks)| &&
              (|link.ticks| < |old(link.ticks)| || |link.conn.recvBuf| < |old(link.conn.recvBuf)|)
    ensures pass.Stuck? ==> Figures(w, lib, link.trace, from, start, Sight(crawler, seat))
    ensures pass.Finished? ==>
              ending != DeadlinePassed && Collected(lib, version, link.trace, from, ending, link.conn.recvBuf != []) &&
              pass.outcome == Grade(ending, |Blocks(lib, link.trace, from + 1, |link.trace|)|) &&
              FinalFigures(w, lib, link.trace, from, ending, start, Sight(crawler, seat))
  {
    hide Blocks, Collecting, Collected, IsAddr, IsTimeout, Figures, FinalFigures, Link.Next, Grade;
    ending := CannotAsk;
    ghost var t := link.trace;
    var received := link.RecvOne(wait);
    var partial := link.conn.recvBuf != [];
    match received {
      case Got(m) =>
        var p, counted := OnMessage(link, crawler, w, lib, version, m, logged, epoch(link.clock), t, from, start, seat);
        pass, ending := Conclude(p, counted, validMessages);
      case Nothing =>
        var outcome;
        outcome, ending := OnSilence(w, lib, version, partial, validMessages, t, link.trace, from, start,
            Sight(crawler, seat));
        pass := Finished(outcome);
      case Failed(e) =>
        var outcome;
        outcome, ending := OnFailure(w, lib, version, e, partial, validMessages, t, link.trace, from, start,
            Sight(crawler, seat));
        pass := Finished(outcome);
      case Waiting =>
        assert link.trace == t;
        pass := Stuck;
    }
  }

  /** What a message leaves of the turn. */
  method Conclude(p: Progress, counted: nat, validMessages: nat) returns (pass: Pass, ghost ending: Ending)
    requires p.Over? ==> p.ending in {BadMessage, LogBroken, Answered, PingLost}
    requires counted > 0 ==> p == On || p == Over(Answered)
    ensures p == On ==> pass == Again(counted)
    ensures p.Over? ==>
              ending == p.ending && pass.Finished? &&
              forall n: nat :: ending == LogBroken || n == validMessages + counted ==> pass.outcome == Grade(ending, n)
  {
    match p {
      case On => return Again(counted), CannotAsk;
      case Over(BadMessage) =>
        return Finished(if validMessages == 0 then MalformedResponse else PartialMalformedResponse), BadMessage;
      case Over(PingLost) =>
        return Finished(if validMessages == 0 then RemoteDisconnect else PartialRemoteDisconnect), PingLost;
      case Over(Answered) => return Finished(CompleteQuiet), Answered;
      case Over(_) => return Finished(LogFailed), LogBroken;
    }
  }

  /** Nothing more came in time. */
  method OnSilence(
    ghost w: Site, ghost lib: Lib, ghost version: int, partial: bool, validMessages: nat,
    ghost t: seq<Act>, ghost t': seq<Act>, ghost from: nat, ghost before: Scheduler.State, ghost after: Scheduler.State)
    returns (outcome: CollectionOutcome, ghost ending: Ending)
    requires Collecting(lib, version, t, from) && Figures(w, lib, t, from, before, after)
    requires validMessages == |Blocks(lib, t, from + 1, |t|)| && t' == t + [Idled]
    ensures ending != DeadlinePassed && Collected(lib, version, t', from, ending, partial)
    ensures outcome == Grade(ending, |Blocks(lib, t', from + 1, |t'|)|)
    ensures FinalFigures(w, lib, t', from, ending, before, after)
  {
    ending := if partial then MidEnvelope else WentQuiet;
    SilenceEnds(lib, version, Idled, ending, partial);
    NoBlock(lib, Idled);
    hide Collecting, Collected, Figures, FinalFigures, Blocks, EndsWith, IsBlock;
    PlainEnd(w, lib, version, t, Idled, t', from, ending, partial, before, after);
    if partial {
      outcome := if validMessages == 0 then IncompleteEnvelopeTimeout else PartialIncompleteEnvelopeTimeout;
    } else {
      outcome := if validMessages == 0 then NoResponseTimeout else CompleteQuiet;
    }
  }

  /** The connection failed. */
  method OnFailure(
    ghost w: Site, ghost lib: Lib, ghost version: int, e: RecvError, ghost partial: bool, validMessages: nat,
    ghost t: seq<Act>, ghost t': seq<Act>, ghost from: nat, ghost before: Scheduler.State, ghost after: Scheduler.State)
    returns (outcome: CollectionOutcome, ghost ending: Ending)
    requires Collecting(lib, version, t, from) && Figures(w, lib, t, from, before, after)
    requires validMessages == |Blocks(lib, t, from + 1, |t|)| && t' == t + [Broke(e)]
    ensures ending != DeadlinePassed && Collected(lib, version, t', from, ending, partial)
    ensures outcome == Grade(ending, |Blocks(lib, t', from + 1, |t'|)|)
    ensures FinalFigures(w, lib, t', from, ending, before, after)
  {
    ending := if IsTimeout(e) then TransportTimedOut else TransportLost;
    SilenceEnds(lib, version, Broke(e), ending, partial);
    NoBlock(lib, Broke(e));
    hide Collecting, Collected, Figures, FinalFigures, Blocks, EndsWith, IsBlock, IsTimeout;
    PlainEnd(w, lib, version, t, Broke(e), t', from, ending, partial, before, after);
    if IsTimeout(e) {
      outcome := if validMessages == 0 then IncompleteEnvelopeTimeout else PartialIncompleteEnvelopeTimeout;
    } else {
      outcome := if validMessages == 0 then RemoteDisconnect else PartialRemoteDisconnect;
    }
  }

  /** The collection ends on something other than an accepted message. */
  lemma PlainEnd(w: Site, lib: Lib, version: int, t: seq<Act>, act: Act, t': seq<Act>, from: nat, ending: Ending,
                 partial: bool, before: Scheduler.State, after: Scheduler.State)
    requires Collecting(lib, version, t, from) && Figures(w, lib, t, from, before, after) && t' == t + [act]
    requires EndsWith(lib, version, ending, act, partial) && !IsBlock(lib, act)
    requires ending != CannotAsk && ending != LogBroken && ending != BadMessage
    ensures Collected(lib, version, t', from, ending, partial)
    ensures FinalFigures(w, lib, t', from, ending, before, after)
    ensures |Blocks(lib, t', from + 1, |t'|)| == |Blocks(lib, t, from + 1, |t|)|
  {
    hide Collecting, Collected, Figures, FinalFigures, Blocks, EndsWith, IsBlock;
    CollectedEnd(lib, version, t, act, from, ending, partial);
    InRange(lib, version, t, from);
    FiguresIdle(w, lib, t, act, from, before, after);
    FiguresFinal(w, lib, t', from, ending, before, after);
    BlocksSnoc(lib, t, act, from + 1);
    assert Blocks(lib, t, from + 1, |t|) + [] == Blocks(lib, t, from + 1, |t|);
  }

  /** The collection goes on after something other than an accepted message. */
  lemma PlainOn(w: Site, lib: Lib, version: int, t: seq<Act>, act: Act, t': seq<Act>, from: nat,
                before: Scheduler.State, after: Scheduler.State)
    requires Collecting(lib, version, t, from) && Figures(w, lib, t, from, before, after) && t' == t + [act]
    requires GoesOn(lib, version, act) && !IsBlock(lib, act)
    ensures Collecting(lib, version, t', from) && Figures(w, lib, t', from, before, after)
    ensures |Blocks(lib, t', from + 1, |t'|)| == |Blocks(lib, t, from + 1, |t|)|
  {
    CollectingOn(lib, version, t, act, t', from);
    hide Collecting, Figures, Blocks, GoesOn, IsBlock;
    FiguresIdle(w, lib, t, act, from, before, after);
    BlocksSnoc(lib, t, act, from + 1);
    assert Blocks(lib, t, from + 1, |t|) + [] == Blocks(lib, t, from + 1, |t|);
  }

  lemma CollectingOn(lib: Lib, version: int, t: seq<Act>, act: Act, t': seq<Act>, from: nat)
    requires Collecting(lib, version, t, from) && t' == t + [act] && GoesOn(lib, version, act)
    ensures Collecting(lib, version, t', from) && from < |t|
  {
    hide GoesOn;
  }

  lemma InRange(lib: Lib, version: int, t: seq<Act>, from: nat)
    requires Collecting(lib, version, t, from)
    ensures from < |t|
  {}

  lemma NoBlock(lib: Lib, act: Act)
    requires !act.Heard?
    ensures !IsBlock(lib, act)
  {}

  lemma SilenceEnds(lib: Lib, version: int, act: Act, ending: Ending, partial: bool)
    requires match act
             case Idled => ending == (if partial then MidEnvelope else WentQuiet)
             case Broke(e) => ending == (if IsTimeout(e) then TransportTimedOut else TransportLost)
             case _ => false
    ensures EndsWith(lib, version, ending, act, partial)
  {
    hide IsTimeout;
  }

  /** One message received: what it makes of the collection and of the figures. */
  method OnMessage(
    link: Link, crawler: Crawler.Crawler, w: Site, lib: Lib, version: int, m: Message, logged: bool, now: int,
    ghost t: seq<Act>, ghost from: nat, ghost start: Scheduler.State, ghost seat: Seat)
    returns (p: Progress, counted: nat)
    requires Ready(crawler, seat, w)
    requires from < |t| && link.trace == t + [Heard(m)] && Collecting(lib, version, t, from)
    requires Figures(w, lib, t, from, start, Sight(crawler, seat))
    modifies link`writes, link`outbox, link`clock, link`trace, crawler`queues, crawler.store
    ensures Ready(crawler, seat, w) && old(link.trace) <= link.trace
    ensures match p
            case On =>
              Collecting(lib, version, link.trace, from) &&
                  Figures(w, lib, link.trace, from, start, Sight(crawler, seat))
            case Over(ending) =>
              ending in {BadMessage, LogBroken, Answered, PingLost} &&
              Collected(lib, version, link.trace, from, ending, link.conn.recvBuf != []) &&
              FinalFigures(w, lib, link.trace, from, ending, start, Sight(crawler, seat))
    ensures p == Over(LogBroken) ||
            |Blocks(lib, link.trace, from + 1, |link.trace|)| == |Blocks(lib, t, from + 1, |t|)| + counted
    ensures counted > 0 ==> p == On || p == Over(Answered)
  {
    hide Blocks, GoesOn, Parsed, IsBlock, Figures, FinalFigures, Collecting, Collected, PingReply, Absorbed, Raised;
    counted := 0;
    if IsAddr(m) {
      ghost var between := Sight(crawler, seat);
      p := OnAddr(crawler, w, lib, m, logged, now, seat);
      AddrOn(w, lib, version, t, m, link.trace, from, p, logged, now, link.conn.recvBuf != [], start, between,
             Sight(crawler, seat));
      counted := if p == On || p == Over(Answered) then 1 else 0;
    } else if m.command == PING {
      p := OnPing(link, w, lib, version, m, t, from, start, Sight(crawler, seat));
    } else {
      OtherGoesOn(lib, version, m);
      PlainOn(w, lib, version, t, Heard(m), link.trace, from, start, Sight(crawler, seat));
      p := On;
    }
  }

  /** A message of no concern. */
  lemma OtherGoesOn(lib: Lib, version: int, m: Message)
    requires !IsAddr(m) && m.command != PING
    ensures GoesOn(lib, version, Heard(m)) && !IsBlock(lib, Heard(m))
  {}

  lemma FiguresStart(w: Site, lib: Lib, t: seq<Act>, from: nat, start: Scheduler.State)
    requires |t| == from + 1 && w.key in start.entries
    ensures Blocks(lib, t, from + 1, |t|) == [] && Figures(w, lib, t, from, start, start)
  {
    assert Absorbs(w, start, [], [], start);
    assert AbsorbsInTime(w, start, [], start);
  }

  lemma DeadlineEnd(lib: Lib, version: int, t: seq<Act>, from: nat, partial: bool)
    requires Collecting(lib, version, t, from)
    ensures Collected(lib, version, t, from, DeadlinePassed, partial)
  {
    hide GoesOn;
  }

  /** An address message, in all it does to the collection. */
  lemma AddrOn(
    w: Site, lib: Lib, version: int, t: seq<Act>, m: Message, t': seq<Act>, from: nat, p: Progress, logged: bool,
    now: int, partial: bool, before: Scheduler.State, between: Scheduler.State, after: Scheduler.State)
    requires Collecting(lib, version, t, from) && Figures(w, lib, t, from, before, between) && IsAddr(m)
    requires t' == t + [Heard(m)] && w.key in between.entries
    requires match Parsed(lib, m)
             case Err(_) =>
               p == Over(if logged then BadMessage else LogBroken) && after == Raised(between, w.key, 0, 0, 1)
             case Ok(message) =>
               p == (if !logged then Over(LogBroken) else if |message.addrs| > 1 then Over(Answered) else On) &&
               after == Absorbed(w, between, message, logged, now)
    ensures p == On ==> Collecting(lib, version, t', from) && Figures(w, lib, t', from, before, after)
    ensures p.Over? ==>
              p.ending in {BadMessage, LogBroken, Answered} && Collected(lib, version, t', from, p.ending, partial) &&
              FinalFigures(w, lib, t', from, p.ending, before, after)
    ensures p == Over(LogBroken) ||
            |Blocks(lib, t', from + 1, |t'|)| ==
              |Blocks(lib, t, from + 1, |t|)| + (if p == On || p == Over(Answered) then 1 else 0)
  {
    hide Blocks, Parsed, IsAddr, Absorbed, Raised, Collecting, Collected, Figures, FinalFigures;
    InRange(lib, version, t, from);
    FiguresAddr(w, lib, t, m, t', from, p, logged, now, before, between, after);
    CollectedAddr(lib, version, t, m, t', from, p, logged, partial);
    AddrCounted(lib, t, m, t', from);
  }

  lemma AddrCounted(lib: Lib, t: seq<Act>, m: Message, t': seq<Act>, from: nat)
    requires from < |t| && IsAddr(m) && t' == t + [Heard(m)]
    ensures |Blocks(lib, t', from + 1, |t'|)| == |Blocks(lib, t, from + 1, |t|)| + (if Parsed(lib, m).Ok? then 1 else 0)
  {
    IsBlockHere(lib, m);
    hide Blocks, Parsed, IsAddr, IsBlock;
    BlocksSnoc(lib, t, Heard(m), from + 1);
  }

  lemma IsBlockHere(lib: Lib, m: Message)
    requires IsAddr(m)
    ensures IsBlock(lib, Heard(m)) <==> Parsed(lib, m).Ok?
  {}

  method OnPing(
    link: Link, w: Site, lib: Lib, version: int, m: Message,
    ghost t: seq<Act>, ghost from: nat, ghost before: Scheduler.State, ghost after: Scheduler.State)
    returns (p: Progress)
    requires link.trace == t + [Heard(m)] && Collecting(lib, version, t, from) && m.command == PING
    requires Figures(w, lib, t, from, before, after)
    modifies link`writes, link`outbox, link`clock, link`trace
    ensures old(link.trace) <= link.trace
    ensures match p
            case On => Collecting(lib, version, link.trace, from) && Figures(w, lib, link.trace, from, before, after)
            case Over(ending) =>
              ending == PingLost && Collected(lib, version, link.trace, from, ending, link.conn.recvBuf != []) &&
              FinalFigures(w, lib, link.trace, from, ending, before, after)
    ensures |Blocks(lib, link.trace, from + 1, |link.trace|)| == |Blocks(lib, t, from + 1, |t|)|
  {
    ghost var heard := link.trace;
    ghost var partial := link.conn.recvBuf != [];
    PingActs(lib, version, m, partial);
    hide Blocks, GoesOn, EndsWith, Parsed, IsBlock, Figures, FinalFigures, Collecting, Collected, PING, PONG;
    if PingReply(m.payload, version) != BadPing {
      PlainOn(w, lib, version, t, Heard(m), heard, from, before, after);
    } else {
      PlainEnd(w, lib, version, t, Heard(m), heard, from, PingLost, partial, before, after);
    }
    var error := link.AnswerPing(m.payload, version);
    if PingReply(m.payload, version) == Pong {
      var pong := Message(PONG, m.payload);
      if error == None {
        PlainOn(w, lib, version, heard, Sent(pong), link.trace, from, before, after);
      } else {
        PlainEnd(w, lib, version, heard, Refused(pong, error.value.kind), link.trace, from, PingLost, partial,
            before, after);
      }
    }
    p := if error == None then On else Over(PingLost);
  }

  /** What a ping, and its answer, are to a collection. */
  lemma PingActs(lib: Lib, version: int, m: Message, partial: bool)
    requires m.command == PING
    ensures !IsBlock(lib, Heard(m))
    ensures PingReply(m.payload, version) != BadPing ==> GoesOn(lib, version, Heard(m))
    ensures PingReply(m.payload, version) == BadPing ==> EndsWith(lib, version, PingLost, Heard(m), partial)
    ensures var pong := Message(PONG, m.payload);
            !IsBlock(lib, Sent(pong)) && GoesOn(lib, version, Sent(pong)) &&
            forall kind :: !IsBlock(lib, Refused(pong, kind)) &&
                EndsWith(lib, version, PingLost, Refused(pong, kind), partial)
  {
    PingIsNoAddr();
    hide Parsed;
  }

  lemma PingIsNoAddr()
    ensures PING != ADDR && PING != ADDRV2
  {}

  // ---- the responder's figures -------------------------------------------------------------------------------------

  lemma {:induction false} BlocksSized(lib: Lib, t: seq<Act>, from: nat, to: nat)
    requires to <= |t|
    ensures forall i :: 0 <= i < |Blocks(lib, t, from, to)| ==>
              Blocks(lib, t, from, to)[i].declaredCount == Size(Blocks(lib, t, from, to)[i])
  {
    hide AddrMessages.Parse;
    if from < to {
      BlocksSized(lib, t, from, to - 1);
      if IsBlock(lib, t[to - 1]) {
        var m := t[to - 1].message;
        AddrMessages.DeclaredCounted(lib,
          if m.command == ADDR then AddrMessages.Legacy else AddrMessages.V2, m.payload);
      }
    }
  }

  lemma {:induction false} AbsorbedAllStats(
    w: Site, s: Scheduler.State, blocks: seq<AddrMessages.ParsedAddrMessage>, nows: seq<int>)
    requires |nows| == |blocks| && w.key in s.entries
    requires forall i :: 0 <= i < |blocks| ==> blocks[i].declaredCount == Size(blocks[i])
    ensures AbsorbedAll(w, s, blocks, nows).entries[w.key].stats ==
              Tallied(s.entries[w.key].stats, |blocks|, Declared(blocks), 0)
    decreases |blocks|
  {
    hide Absorbed, Size;
    if blocks != [] {
      var n := |blocks| - 1;
      AbsorbedAllStats(w, s, blocks[..n], nows[..n]);
      AbsorbedStats(w, AbsorbedAll(w, s, blocks[..n], nows[..n]), blocks[n], true, nows[n]);
    }
  }

  lemma InTimeStats(
    w: Site, before: Scheduler.State, blocks: seq<AddrMessages.ParsedAddrMessage>, after: Scheduler.State)
    requires AbsorbsInTime(w, before, blocks, after)
    requires forall i :: 0 <= i < |blocks| ==> blocks[i].declaredCount == Size(blocks[i])
    ensures w.key in before.entries && w.key in after.entries
    ensures after.entries[w.key].stats == Tallied(before.entries[w.key].stats, |blocks|, Declared(blocks), 0)
  {
    hide Size;
    var nows :| Absorbs(w, before, blocks, nows, after);
    AbsorbedAllStats(w, before, blocks, nows);
  }

  /** When a collection is over the responder's figures are those of its trace: as many valid messages as were
      accepted, all they declared, and one malformed message if it ended so; a message that could not be logged is
      credited but not counted as valid. */
  lemma FiguresExact(
    w: Site, lib: Lib, t: seq<Act>, from: nat, ending: Ending, before: Scheduler.State, after: Scheduler.State)
    requires FinalFigures(w, lib, t, from, ending, before, after)
    ensures w.key in before.entries && w.key in after.entries
    ensures var blocks := Blocks(lib, t, from + 1, |t|);
            var last := t[|t| - 1];
            var unlogged := if ending == LogBroken && IsBlock(lib, last) then 1 else 0;
            var bad := if (ending == LogBroken && !IsBlock(lib, last)) || ending == BadMessage then 1 else 0;
            unlogged <= |blocks| &&
            after.entries[w.key].stats ==
              Tallied(before.entries[w.key].stats, |blocks| - unlogged, Declared(blocks), bad)
  {
    BlocksSized(lib, t, from + 1, |t|);
    var blocks := Blocks(lib, t, from + 1, |t|);
    hide Blocks, AbsorbsInTime, AbsorbsButLast, AbsorbsThenBad, Size, IsBlock, Tallied;
    if ending == LogBroken && IsBlock(lib, t[|t| - 1]) {
      ButLastStats(w, before, blocks, after);
    } else if ending == LogBroken || ending == BadMessage {
      ThenBadStats(w, before, blocks, after);
    } else {
      InTimeStats(w, before, blocks, after);
    }
  }

  lemma ButLastStats(
    w: Site, before: Scheduler.State, blocks: seq<AddrMessages.ParsedAddrMessage>, after: Scheduler.State)
    requires blocks != [] && AbsorbsButLast(w, before, blocks[..|blocks| - 1], blocks[|blocks| - 1], after)
    requires forall i :: 0 <= i < |blocks| ==> blocks[i].declaredCount == Size(blocks[i])
    ensures w.key in before.entries && w.key in after.entries
    ensures after.entries[w.key].stats == Tallied(before.entries[w.key].stats, |blocks| - 1, Declared(blocks), 0)
  {
    hide AbsorbsInTime, Absorbed, Size;
    var less, last := blocks[..|blocks| - 1], blocks[|blocks| - 1];
    var s, now :| AbsorbsInTime(w, before, less, s) && w.key in s.entries && after == Absorbed(w, s, last, false, now);
    InTimeStats(w, before, less, s);
    AbsorbedStats(w, s, last, false, now);
  }

  lemma ThenBadStats(
    w: Site, before: Scheduler.State, blocks: seq<AddrMessages.ParsedAddrMessage>, after: Scheduler.State)
    requires AbsorbsThenBad(w, before, blocks, after)
    requires forall i :: 0 <= i < |blocks| ==> blocks[i].declaredCount == Size(blocks[i])
    ensures w.key in before.entries && w.key in after.entries
    ensures after.entries[w.key].stats == Tallied(before.entries[w.key].stats, |blocks|, Declared(blocks), 1)
  {
    hide AbsorbsInTime, Size, Declared;
    var s :| AbsorbsInTime(w, before, blocks, s) && w.key in s.entries && after == Raised(s, w.key, 0, 0, 1);
    InTimeStats(w, before, blocks, s);
  }

  // ---- a collection is part of a run ------------------------------------------------------------------------------

  lemma {:induction false} AbsorbedAllLeads(
    w: Site, s: Scheduler.State, blocks: seq<AddrMessages.ParsedAddrMessage>, nows: seq<int>, i: nat)
    requires |nows| == |blocks| && w.key in s.entries && Visiting(w, s, i)
    ensures Crawler.Leads(w.c, i, s, AbsorbedAll(w, s, blocks, nows)) && Visiting(w, AbsorbedAll(w, s, blocks, nows), i)
    decreases |blocks|
  {
    hide Crawler.Leads, Absorbed, Visiting;
    if blocks == [] {
      Crawler.LeadsNowhere(w.c, i, s);
    } else {
      var n := |blocks| - 1;
      var before := AbsorbedAll(w, s, blocks[..n], nows[..n]);
      AbsorbedAllLeads(w, s, blocks[..n], nows[..n], i);
      AbsorbedLeads(w, before, blocks[n], true, nows[n], i);
      Crawler.LeadsThrough(w.c, i, s, before, AbsorbedAll(w, s, blocks, nows));
    }
  }

  lemma InTimeLeads(
    w: Site, before: Scheduler.State, blocks: seq<AddrMessages.ParsedAddrMessage>, after: Scheduler.State, i: nat)
    requires AbsorbsInTime(w, before, blocks, after) && Visiting(w, before, i)
    ensures Crawler.Leads(w.c, i, before, after) && Visiting(w, after, i)
  {
    hide Crawler.Leads, Visiting;
    var nows :| Absorbs(w, before, blocks, nows, after);
    AbsorbedAllLeads(w, before, blocks, nows, i);
  }

  lemma ButLastLeads(
    w: Site, before: Scheduler.State, blocks: seq<AddrMessages.ParsedAddrMessage>, last: AddrMessages.ParsedAddrMessage,
    after: Scheduler.State, i: nat)
    requires AbsorbsButLast(w, before, blocks, last, after) && Visiting(w, before, i)
    ensures Crawler.Leads(w.c, i, before, after)
  {
    hide Crawler.Leads, Visiting, AbsorbsInTime, Absorbed;
    var s, now :| AbsorbsInTime(w, before, blocks, s) && w.key in s.entries &&
        after == Absorbed(w, s, last, false, now);
    InTimeLeads(w, before, blocks, s, i);
    AbsorbedLeads(w, s, last, false, now, i);
    Crawler.LeadsThrough(w.c, i, before, s, after);
  }

  lemma ThenBadLeads(
    w: Site, before: Scheduler.State, blocks: seq<AddrMessages.ParsedAddrMessage>, after: Scheduler.State, i: nat)
    requires AbsorbsThenBad(w, before, blocks, after) && Visiting(w, before, i)
    ensures Crawler.Leads(w.c, i, before, after)
  {
    hide Crawler.Leads, Visiting, AbsorbsInTime, Raised;
    var s :| AbsorbsInTime(w, before, blocks, s) && w.key in s.entries && after == Raised(s, w.key, 0, 0, 1);
    InTimeLeads(w, before, blocks, s, i);
    RaisedLeads(w, s, 0, 0, 1, i);
    Crawler.LeadsThrough(w.c, i, before, s, after);
  }

  /** Whatever the peer sends and however the collection ends, what it has made of the crawl is its worker's own part
      of a run: all that holds of every run holds after it. */
  lemma CollectionLeads(
    w: Site, lib: Lib, t: seq<Act>, from: nat, ending: Ending, before: Scheduler.State, after: Scheduler.State, i: nat)
    requires FinalFigures(w, lib, t, from, ending, before, after) && Visiting(w, before, i)
    ensures Crawler.Leads(w.c, i, before, after)
    ensures Scheduler.Occurs(w.c, before) ==> Scheduler.Occurs(w.c, after)
  {
    FiguresLeads(w, lib, t, from, ending, before, after, i);
    hide Crawler.Leads, Scheduler.Occurs;
    if Scheduler.Occurs(w.c, before) {
      Crawler.LeadsOccurs(w.c, i, before, after);
    }
  }

  lemma FiguresLeads(
    w: Site, lib: Lib, t: seq<Act>, from: nat, ending: Ending, before: Scheduler.State, after: Scheduler.State, i: nat)
    requires FinalFigures(w, lib, t, from, ending, before, after) && Visiting(w, before, i)
    ensures Crawler.Leads(w.c, i, before, after)
  {
    hide Crawler.Leads, Visiting, AbsorbsInTime, AbsorbsButLast, AbsorbsThenBad, Blocks, IsBlock;
    var blocks := Blocks(lib, t, from + 1, |t|);
    if ending == LogBroken && IsBlock(lib, t[|t| - 1]) {
      ButLastLeads(w, before, blocks[..|blocks| - 1], blocks[|blocks| - 1], after, i);
    } else if ending == LogBroken || ending == BadMessage {
      ThenBadLeads(w, before, blocks, after, i);
    } else {
      InTimeLeads(w, before, blocks, after, i);
    }
  }
}
