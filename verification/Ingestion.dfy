/** The consumer loop with its real handler: what process_record returns is no longer an input but what the
    behavioral store makes of the event. */
module Ingestion {
  import opened Prelude
  import C = ConsumerLoop
  import B = BehavioralStore

  /** A message as the loop gets it, its `outcome` unused, and what the handler meets if the message decodes. */
  datatype Arrival = Arrival(message: C.Delivery, event: B.Event, failures: nat, redisUp: bool)

  datatype Poll = Poll(up: bool, arrivals: seq<Arrival>, next: C.Offsets, signal: bool)

  /** The loop, the stores, and every message handed to process_record so far. */
  datatype State = State(loop: C.Loop, store: B.Store, handed: seq<Arrival>)

  function Handover(a: Arrival): B.Delivery { B.Delivery(a.message.id.tp.topic, a.event, a.failures, a.redisUp) }

  function Handovers(arrivals: seq<Arrival>): (ds: seq<B.Delivery>)
    ensures |ds| == |arrivals|
  {
    if arrivals == [] then [] else Handovers(arrivals[..|arrivals| - 1]) + [Handover(arrivals[|arrivals| - 1])]
  }

  function LoopOutcome(o: B.Outcome): C.ProcessOutcome {
    match o
    case Success => C.Success
    case Failure(t) => C.Failure(t, "")
    case Raised => C.Escapes
  }

  predicate Decodes(dec: C.Decoder, a: Arrival) { a.message.raw.Some? && dec(a.message.raw.value).None? }

  function One(dec: C.Decoder, round: B.CentRounding, s: State, a: Arrival): State {
    if !Decodes(dec, a) then s.(loop := C.HandleOne(dec, s.loop, a.message)) else
    var (store, o) := B.Process(round, s.store, Handover(a));
    State(C.HandleOne(dec, s.loop, a.message.(outcome := LoopOutcome(o))), store, s.handed + [a])
  }

  function Batch(dec: C.Decoder, round: B.CentRounding, s: State, arrivals: seq<Arrival>): State
    decreases |arrivals|
  {
    if s.loop.crashed || arrivals == [] then s else Batch(dec, round, One(dec, round, s, arrivals[0]), arrivals[1..])
  }

  function OnePoll(dec: C.Decoder, round: B.CentRounding, s: State, p: Poll): State {
    var loop := s.loop.(running := s.loop.running && !p.signal);
    if !p.up then s.(loop := loop.(crashed := true))
    else Batch(dec, round, s.(loop := loop.(position := p.next)), p.arrivals)
  }

  function Polls(dec: C.Decoder, round: B.CentRounding, s: State, ps: seq<Poll>): State
    decreases |ps|
  {
    if !s.loop.running || s.loop.crashed || ps == [] then s else Polls(dec, round, OnePoll(dec, round, s, ps[0]), ps[1..])
  }

  function Restarted(loop: C.Loop): C.Loop { loop.(running := true, crashed := false, position := loop.committed) }

  function Sessions(dec: C.Decoder, round: B.CentRounding, s: State, runs: seq<seq<Poll>>): State
    decreases |runs|
  {
    if runs == [] then s else
    Sessions(dec, round, Polls(dec, round, s.(loop := Restarted(s.loop)), runs[0]), runs[1..])
  }

  // ------------------------------------------------- the loop's part of a run

  /** The outcome does not depend on what the stores hold. */
  function OutcomeOf(round: B.CentRounding, a: Arrival): C.ProcessOutcome {
    LoopOutcome(B.Process(round, B.EMPTY, Handover(a)).1)
  }

  lemma OutcomeIsStateless(round: B.CentRounding, s: B.Store, d: B.Delivery)
    ensures B.Process(round, s, d).1 == B.Process(round, B.EMPTY, d).1
  {
  }

  function Seen(dec: C.Decoder, round: B.CentRounding, a: Arrival): C.Delivery {
    if Decodes(dec, a) then a.message.(outcome := OutcomeOf(round, a)) else a.message
  }

  function SeenBatch(dec: C.Decoder, round: B.CentRounding, arrivals: seq<Arrival>): (ds: seq<C.Delivery>)
    ensures |ds| == |arrivals|
    ensures forall i :: 0 <= i < |ds| ==> ds[i] == Seen(dec, round, arrivals[i])
  {
    if arrivals == [] then [] else [Seen(dec, round, arrivals[0])] + SeenBatch(dec, round, arrivals[1..])
  }

  function SeenPoll(dec: C.Decoder, round: B.CentRounding, p: Poll): C.Poll {
    C.Poll(p.up, SeenBatch(dec, round, p.arrivals), p.next, p.signal)
  }

  function SeenPolls(dec: C.Decoder, round: B.CentRounding, ps: seq<Poll>): (qs: seq<C.Poll>) {
    if ps == [] then [] else [SeenPoll(dec, round, ps[0])] + SeenPolls(dec, round, ps[1..])
  }

  function SeenRuns(dec: C.Decoder, round: B.CentRounding, runs: seq<seq<Poll>>): (rs: seq<seq<C.Poll>>) {
    if runs == [] then [] else [SeenPolls(dec, round, runs[0])] + SeenRuns(dec, round, runs[1..])
  }

  lemma {:induction false} BatchRefines(dec: C.Decoder, round: B.CentRounding, s: State, arrivals: seq<Arrival>)
    ensures Batch(dec, round, s, arrivals).loop == C.HandleBatch(dec, s.loop, SeenBatch(dec, round, arrivals))
    decreases |arrivals|
  {
    if s.loop.crashed || arrivals == [] {
    } else {
      OutcomeIsStateless(round, s.store, Handover(arrivals[0]));
      BatchRefines(dec, round, One(dec, round, s, arrivals[0]), arrivals[1..]);
      assert SeenBatch(dec, round, arrivals)[1..] == SeenBatch(dec, round, arrivals[1..]);
    }
  }

  lemma {:induction false} PollsRefine(dec: C.Decoder, round: B.CentRounding, s: State, ps: seq<Poll>)
    ensures Polls(dec, round, s, ps).loop == C.Polls(dec, s.loop, SeenPolls(dec, round, ps))
    decreases |ps|
  {
    if !s.loop.running || s.loop.crashed || ps == [] {
    } else {
      var p := ps[0];
      if p.up {
        BatchRefines(dec, round, s.(loop := s.loop.(running := s.loop.running && !p.signal, position := p.next)), p.arrivals);
      }
      PollsRefine(dec, round, OnePoll(dec, round, s, p), ps[1..]);
      assert SeenPolls(dec, round, ps)[1..] == SeenPolls(dec, round, ps[1..]);
    }
  }

  lemma {:induction false} SessionsRefine(dec: C.Decoder, round: B.CentRounding, s: State, runs: seq<seq<Poll>>)
    ensures Sessions(dec, round, s, runs).loop == C.Sessions(dec, s.loop, SeenRuns(dec, round, runs))
    decreases |runs|
  {
    if runs == [] {
    } else {
      PollsRefine(dec, round, s.(loop := Restarted(s.loop)), runs[0]);
      SessionsRefine(dec, round, Polls(dec, round, s.(loop := Restarted(s.loop)), runs[0]), runs[1..]);
      assert SeenRuns(dec, round, runs)[1..] == SeenRuns(dec, round, runs[1..]);
    }
  }

  // ---------------------------------------------------- the stores' part of a run

  /** The event each message of the log carries. */
  type Log = C.MsgId -> B.Event

  predicate Carries(log: Log, arrivals: seq<Arrival>) {
    forall i :: 0 <= i < |arrivals| ==> arrivals[i].event == log(arrivals[i].message.id)
  }

  predicate AllCarry(log: Log, runs: seq<seq<Poll>>) {
    forall i, j :: 0 <= i < |runs| && 0 <= j < |runs[i]| ==> Carries(log, runs[i][j].arrivals)
  }

  /** Events of one id are the same event. */
  ghost predicate OneEventPerId(log: Log) {
    forall m: C.MsgId, n: C.MsgId :: log(m).id == log(n).id ==> log(m) == log(n)
  }

  ghost predicate FromLog(log: Log, e: B.Event) { exists m: C.MsgId :: log(m) == e }

  /** The event fits its topic, by name. */
  predicate FitsTopic(a: Arrival) {
    match a.event
    case PageView(_, _, _, _) => a.message.id.tp.topic == "events.page_views"
    case Purchase(_, _, _, _, _) => a.message.id.tp.topic == "events.purchases"
    case Session(_, _, _, _) => a.message.id.tp.topic == "events.sessions"
  }

  predicate Counted(e: B.Event) { e.Session? ==> e.isStart }

  /** The event was stored and, if profiles count it, reached its profile. */
  predicate Reached(a: Arrival) { FitsTopic(a) && a.failures < 3 && (Counted(a.event) ==> a.redisUp) }

  /** The event was stored, but its profile missed it. */
  predicate Missed(a: Arrival) { FitsTopic(a) && a.failures < 3 && Counted(a.event) && !a.redisUp }

  /** A handing over of the message did all it should. */
  ghost predicate Arrived(s: State, m: C.MsgId) {
    exists i :: 0 <= i < |s.handed| && s.handed[i].message.id == m && Reached(s.handed[i])
  }

  predicate DeadOrLost(loop: C.Loop, m: C.MsgId) { m in C.FirstIds(loop.dlq) || m in loop.dlqLost }

  /** The stores hold what was handed over, every processed message's event is in the table, and nothing is there
      that the log does not carry. */
  ghost predicate Holds(round: B.CentRounding, log: Log, s: State) {
    && s.store == B.Run(round, B.EMPTY, Handovers(s.handed))
    && (forall m :: m in s.loop.processed ==> log(m).id in s.store.rows && Arrived(s, m))
    && (forall i :: 0 <= i < |s.handed| && Missed(s.handed[i]) ==> DeadOrLost(s.loop, s.handed[i].message.id))
    && (forall k :: k in s.store.rows ==> s.store.rows[k].id == k && FromLog(log, s.store.rows[k]))
  }

  lemma ProcessRows(round: B.CentRounding, s: B.Store, d: B.Delivery)
    ensures
      var (t, o) := B.Process(round, s, d);
      && t.rows == (if d.event.id in t.rows && d.event.id !in s.rows then s.rows[d.event.id := d.event] else s.rows)
      && (o.Success? ==> d.event.id in t.rows)
  {
  }

  lemma LoopProcessed(dec: C.Decoder, s: C.Loop, d: C.Delivery)
    ensures
      var t := C.HandleOne(dec, s, d);
      t.processed == s.processed + if C.DecodeError(dec, d).None? && d.outcome.Success? then [d.id] else []
  {
  }

  /** The dead-letter lists only grow, and a failed message is put on one of them. */
  lemma LoopDeadLetters(dec: C.Decoder, s: C.Loop, d: C.Delivery)
    ensures
      var t := C.HandleOne(dec, s, d);
      && (forall m :: DeadOrLost(s, m) ==> DeadOrLost(t, m))
      && (d.raw.Some? && dec(d.raw.value).None? && d.outcome.Failure? ==> DeadOrLost(t, d.id))
  {
    C.MessageEffect(dec, s, d);
    var t := C.HandleOne(dec, s, d);
    if |t.dlq| > |s.dlq| {
      C.FirstIdsPush(s.dlq, t.dlq[|s.dlq|]);
      assert t.dlq == s.dlq + [t.dlq[|s.dlq|]];
      LastIsIn(C.FirstIds(s.dlq), d.id);
    }
  }

  lemma LastIsIn(xs: seq<C.MsgId>, x: C.MsgId)
    ensures x in xs + [x] && forall y :: y in xs ==> y in xs + [x]
  {
  }

  /** A handed-over message: what its outcome says about its stores. */
  lemma HandedOver(dec: C.Decoder, round: B.CentRounding, s: State, a: Arrival)
    requires Decodes(dec, a)
    ensures
      var t := One(dec, round, s, a);
      && t.handed == s.handed + [a]
      && (forall m :: DeadOrLost(s.loop, m) ==> DeadOrLost(t.loop, m))
      && (Missed(a) ==> DeadOrLost(t.loop, a.message.id))
      && t.loop.processed == s.loop.processed + if Reached(a) then [a.message.id] else []
  {
    var o := B.Process(round, s.store, Handover(a)).1;
    var d := a.message.(outcome := LoopOutcome(o));
    B.OutcomeExactly(round, s.store, Handover(a));
    LoopProcessed(dec, s.loop, d);
    LoopDeadLetters(dec, s.loop, d);
  }

  lemma HandoversSnoc(arrivals: seq<Arrival>, a: Arrival)
    ensures Handovers(arrivals + [a]) == Handovers(arrivals) + [Handover(a)]
  {
    ButLast(arrivals, a);
  }

  lemma OneHolds(dec: C.Decoder, round: B.CentRounding, log: Log, s: State, a: Arrival)
    requires Holds(round, log, s) && a.event == log(a.message.id)
    ensures Holds(round, log, One(dec, round, s, a))
  {
    if Decodes(dec, a) {
      HandedOverHolds(dec, round, log, s, a);
    } else {
      LoopProcessed(dec, s.loop, a.message);
      LoopDeadLetters(dec, s.loop, a.message);
      forall m | Arrived(s, m) ensures Arrived(One(dec, round, s, a), m) {}
    }
  }

  lemma HandedOverHolds(dec: C.Decoder, round: B.CentRounding, log: Log, s: State, a: Arrival)
    requires Holds(round, log, s) && a.event == log(a.message.id) && Decodes(dec, a)
    ensures Holds(round, log, One(dec, round, s, a))
  {
    var t := One(dec, round, s, a);
    HandedOver(dec, round, s, a);
    HandoversSnoc(s.handed, a);
    ButLast(Handovers(s.handed), Handover(a));
    assert t.handed[|s.handed|] == a && forall i :: 0 <= i < |s.handed| ==> t.handed[i] == s.handed[i];
    assert FromLog(log, a.event);
    ProcessRows(round, s.store, Handover(a));
    B.EffectExactly(round, s.store, Handover(a));
    ArrivalsStay(s, t, a);
  }

  lemma ArrivalsStay(s: State, t: State, a: Arrival)
    requires t.handed == s.handed + [a]
    ensures forall m :: Arrived(s, m) ==> Arrived(t, m)
    ensures Reached(a) ==> Arrived(t, a.message.id)
  {
    assert t.handed[|s.handed|] == a;
    forall m | Arrived(s, m) ensures Arrived(t, m) {
      var i :| 0 <= i < |s.handed| && s.handed[i].message.id == m && Reached(s.handed[i]);
      assert t.handed[i] == s.handed[i];
    }
  }

  lemma {:induction false} BatchHolds(dec: C.Decoder, round: B.CentRounding, log: Log, s: State, arrivals: seq<Arrival>)
    requires Holds(round, log, s) && Carries(log, arrivals)
    ensures Holds(round, log, Batch(dec, round, s, arrivals))
    decreases |arrivals|
  {
    if s.loop.crashed || arrivals == [] {
    } else {
      OneHolds(dec, round, log, s, arrivals[0]);
      BatchHolds(dec, round, log, One(dec, round, s, arrivals[0]), arrivals[1..]);
    }
  }

  lemma OnePollHolds(dec: C.Decoder, round: B.CentRounding, log: Log, s: State, p: Poll)
    requires Holds(round, log, s) && Carries(log, p.arrivals)
    ensures Holds(round, log, OnePoll(dec, round, s, p))
  {
    var running := s.loop.running && !p.signal;
    if p.up {
      LoopMovedHolds(round, log, s, s.loop.(running := running, position := p.next));
      BatchHolds(dec, round, log, s.(loop := s.loop.(running := running, position := p.next)), p.arrivals);
    } else {
      LoopMovedHolds(round, log, s, s.loop.(running := running, crashed := true));
    }
  }

  lemma LoopMovedHolds(round: B.CentRounding, log: Log, s: State, loop: C.Loop)
    requires Holds(round, log, s)
    requires loop.processed == s.loop.processed && loop.dlq == s.loop.dlq && loop.dlqLost == s.loop.dlqLost
    ensures Holds(round, log, s.(loop := loop))
  {
    forall m | Arrived(s, m) ensures Arrived(s.(loop := loop), m) {}
  }

  lemma {:induction false} PollsHold(dec: C.Decoder, round: B.CentRounding, log: Log, s: State, ps: seq<Poll>)
    requires Holds(round, log, s) && forall j :: 0 <= j < |ps| ==> Carries(log, ps[j].arrivals)
    ensures Holds(round, log, Polls(dec, round, s, ps))
    decreases |ps|
  {
    if !s.loop.running || s.loop.crashed || ps == [] {
    } else {
      OnePollHolds(dec, round, log, s, ps[0]);
      PollsHold(dec, round, log, OnePoll(dec, round, s, ps[0]), ps[1..]);
    }
  }

  lemma {:induction false} SessionsHold(dec: C.Decoder, round: B.CentRounding, log: Log, s: State, runs: seq<seq<Poll>>)
    requires Holds(round, log, s) && AllCarry(log, runs)
    ensures Holds(round, log, Sessions(dec, round, s, runs))
    decreases |runs|
  {
    if runs == [] {
    } else {
      PollsHold(dec, round, log, s.(loop := Restarted(s.loop)), runs[0]);
      SessionsHold(dec, round, log, Polls(dec, round, s.(loop := Restarted(s.loop)), runs[0]), runs[1..]);
    }
  }

  // ------------------------------------------------------------------ end to end

  function Fresh(start: C.Offsets): State { State(C.Fresh(start), B.EMPTY, []) }

  /** Over any restarts of the real consumer, each event below the committed offsets is in the table, or its message
      is on the dead-letter queue, or lost on the way to it, or in the tail of a batch in which the loop died.
      The stores are what the store model makes of the deliveries handed over, so all it proves applies to them. */
  lemma EveryEventAccounted(dec: C.Decoder, round: B.CentRounding, log: Log, start: C.Offsets, runs: seq<seq<Poll>>)
    requires C.ValidSessions(dec, C.Fresh(start), SeenRuns(dec, round, runs)) && AllCarry(log, runs) && OneEventPerId(log)
    ensures
      var t := Sessions(dec, round, Fresh(start), runs);
      && t.store == B.Run(round, B.EMPTY, Handovers(t.handed))
      && (forall k :: k in t.store.rows ==> t.store.rows[k].id == k && FromLog(log, t.store.rows[k]))
      && (forall m :: C.InRange(m, start, t.loop.committed) ==>
            || InTable(t.store, log(m))
            || m in C.FirstIds(t.loop.dlq)
            || m in t.loop.dlqLost
            || m in C.LostOver(dec, C.Fresh(start), SeenRuns(dec, round, runs)))
  {
    var t := Sessions(dec, round, Fresh(start), runs);
    SessionsHold(dec, round, log, Fresh(start), runs);
    SessionsRefine(dec, round, Fresh(start), runs);
    C.SessionsCover(dec, start, C.Fresh(start), SeenRuns(dec, round, runs), {});
    forall m | m in t.loop.processed ensures InTable(t.store, log(m)) {
      var e := t.store.rows[log(m).id];
      var n :| log(n) == e;
    }
  }

  /** Over any restarts: a message counts as processed only if its event is in the table and, when profiles count it,
      reached its profile; and every event stored that its profile missed is on the dead-letter queue or lost on the way
      there. */
  lemma ProfileMissesAreDead(dec: C.Decoder, round: B.CentRounding, log: Log, start: C.Offsets, runs: seq<seq<Poll>>)
    requires AllCarry(log, runs)
    ensures
      var t := Sessions(dec, round, Fresh(start), runs);
      && (forall m :: m in t.loop.processed ==> log(m).id in t.store.rows && Arrived(t, m))
      && (forall i :: 0 <= i < |t.handed| && Missed(t.handed[i]) ==> DeadOrLost(t.loop, t.handed[i].message.id))
  {
    SessionsHold(dec, round, log, Fresh(start), runs);
  }

  predicate InTable(s: B.Store, e: B.Event) { e.id in s.rows && s.rows[e.id] == e }
}
