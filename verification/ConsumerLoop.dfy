/** The consumer's poll loop: decode, process, dead-letter, commit.

    A commit acknowledges everything the last poll returned, so the first commit inside a batch
    already covers the rest of it.  What the environment does to a message is part of its delivery;
    a session ends when a signal has come, when an exception escapes, or with the script of polls. */
module ConsumerLoop {
  import opened Prelude
  import W = WireFormat

  datatype TopicPartition = TopicPartition(topic: string, partition: nat)
  datatype MsgId = MsgId(tp: TopicPartition, offset: nat)
  type Offsets = map<TopicPartition, nat>

  /** What process_record does: Escapes is an exception it does not catch. */
  datatype ProcessOutcome = Success | Failure(errorType: string, errorMessage: string) | Escapes

  /** `raw` is absent for a record with a null value. */
  datatype Delivery = Delivery(id: MsgId, raw: Option<seq<W.byte>>, outcome: ProcessOutcome,
                               dlqUp: bool, commitUp: bool, signal: bool)

  datatype Poll = Poll(up: bool, batch: seq<Delivery>, next: Offsets, signal: bool)

  datatype Envelope = Envelope(topic: string, payload: string, errorType: string, errorMessage: string)

  datatype Loop = Loop(running: bool, crashed: bool, position: Offsets, committed: Offsets,
                       processed: seq<MsgId>, dlq: seq<(MsgId, Envelope)>, dlqLost: seq<MsgId>)

  /** The decoder's verdict on a message: None, or the type and text of its error. */
  type Decoder = seq<W.byte> -> Option<(string, string)>

  // -------------------------------------------------------------- one message

  /** The error of decode; a null value is not subscriptable. */
  function DecodeError(dec: Decoder, d: Delivery): Option<(string, string)> {
    if d.raw.None? then Some(("TypeError", "")) else dec(d.raw.value)
  }

  /** An exception leaves the loop body: process_record lets one through, or a null value has no hex form. */
  predicate Escaping(dec: Decoder, d: Delivery) {
    d.raw.None? || (dec(d.raw.value).None? && d.outcome.Escapes?)
  }

  predicate Stops(dec: Decoder, d: Delivery) {
    Escaping(dec, d) || !d.commitUp
  }

  function DeadLetter(s: Loop, d: Delivery, errorType: string, errorMessage: string): Loop
    requires d.raw.Some?
  {
    if d.dlqUp
    then s.(dlq := s.dlq + [(d.id, Envelope(d.id.tp.topic, W.Hex(d.raw.value), errorType, errorMessage))])
    else s.(dlqLost := s.dlqLost + [d.id])
  }

  function Commit(s: Loop, d: Delivery): Loop {
    if d.commitUp then s.(committed := s.position) else s.(crashed := true)
  }

  function HandleOne(dec: Decoder, s: Loop, d: Delivery): Loop {
    var s1 := s.(running := s.running && !d.signal);
    if d.raw.None? then s1.(crashed := true) else
    match DecodeError(dec, d)
    case Some(e) => Commit(DeadLetter(s1, d, e.0, e.1), d)
    case None =>
      match d.outcome
      case Escapes => s1.(crashed := true)
      case Failure(t, m) => Commit(DeadLetter(s1, d, t, m), d)
      case Success => Commit(s1.(processed := s1.processed + [d.id]), d)
  }

  function HandleBatch(dec: Decoder, s: Loop, batch: seq<Delivery>): Loop
    decreases |batch|
  {
    if s.crashed || batch == [] then s else HandleBatch(dec, HandleOne(dec, s, batch[0]), batch[1..])
  }

  function OnePoll(dec: Decoder, s: Loop, p: Poll): Loop {
    var s1 := s.(running := s.running && !p.signal);
    if !p.up then s1.(crashed := true) else HandleBatch(dec, s1.(position := p.next), p.batch)
  }

  function Polls(dec: Decoder, s: Loop, ps: seq<Poll>): Loop
    decreases |ps|
  {
    if !s.running || s.crashed || ps == [] then s else Polls(dec, OnePoll(dec, s, ps[0]), ps[1..])
  }

  /** A process start: reading resumes at the committed offsets. */
  function Session(dec: Decoder, s: Loop, ps: seq<Poll>): Loop {
    Polls(dec, s.(running := true, crashed := false, position := s.committed), ps)
  }

  function Sessions(dec: Decoder, s: Loop, runs: seq<seq<Poll>>): Loop
    decreases |runs|
  {
    if runs == [] then s else Sessions(dec, Session(dec, s, runs[0]), runs[1..])
  }

  // --------------------------------------------------- one message, field by field

  /** The dead letter of a message: its topic, its bytes in hexadecimal, and the error that decoding or processing gave. */
  ghost predicate LetterOf(dec: Decoder, d: Delivery, e: Envelope) {
    && e.topic == d.id.tp.topic && d.raw.Some? && W.Unhex(e.payload) == d.raw
    && if dec(d.raw.value).Some? then e.errorType == dec(d.raw.value).value.0 && e.errorMessage == dec(d.raw.value).value.1
       else d.outcome.Failure? && e.errorType == d.outcome.errorType && e.errorMessage == d.outcome.errorMessage
  }

  /** What one loop body does: an escaping exception kills the loop before anything is recorded; otherwise the message is
      processed, or dead-lettered, or lost on the way there, and then the whole position is committed, or the loop dies
      of the commit. */
  lemma MessageEffect(dec: Decoder, s: Loop, d: Delivery)
    ensures
      var t := HandleOne(dec, s, d);
      && t.running == (s.running && !d.signal) && t.position == s.position
      && if d.raw.None? || (dec(d.raw.value).None? && d.outcome.Escapes?)
         then
           && t.crashed && t.committed == s.committed
           && t.processed == s.processed && t.dlq == s.dlq && t.dlqLost == s.dlqLost
         else
           var fine := dec(d.raw.value).None? && d.outcome.Success?;
           && t.processed == (if fine then s.processed + [d.id] else s.processed)
           && t.dlqLost == (if !fine && !d.dlqUp then s.dlqLost + [d.id] else s.dlqLost)
           && (if !fine && d.dlqUp
               then |t.dlq| == |s.dlq| + 1 && t.dlq[..|s.dlq|] == s.dlq && t.dlq[|s.dlq|].0 == d.id
                    && LetterOf(dec, d, t.dlq[|s.dlq|].1)
               else t.dlq == s.dlq)
           && t.committed == (if d.commitUp then s.position else s.committed)
           && t.crashed == (s.crashed || !d.commitUp)
  {
    if d.raw.Some? { W.HexRoundTrip(d.raw.value); }
  }

  /** A poll that fails kills the loop and records nothing; one that brings nothing only moves the position. */
  lemma IdlePollEffect(dec: Decoder, s: Loop, p: Poll)
    requires !p.up || p.batch == []
    ensures OnePoll(dec, s, p) ==
      if !p.up then s.(running := s.running && !p.signal, crashed := true)
      else s.(running := s.running && !p.signal, position := p.next)
  {
  }

  // ------------------------------------------------------- what the broker does

  function Ids(batch: seq<Delivery>): (ids: set<MsgId>) {
    set i | 0 <= i < |batch| :: batch[i].id
  }

  /** A poll returns each message between the old and the new position once. */
  ghost predicate ValidPoll(position: Offsets, p: Poll) {
    && p.next.Keys == position.Keys
    && (forall tp :: tp in position ==> position[tp] <= p.next[tp])
    && (forall i, j :: 0 <= i < j < |p.batch| ==> p.batch[i].id != p.batch[j].id)
    && (forall id :: id in Ids(p.batch) <==> InRange(id, position, p.next))
  }

  predicate InRange(id: MsgId, from: Offsets, to: Offsets) {
    id.tp in from && id.tp in to && from[id.tp] <= id.offset < to[id.tp]
  }

  ghost predicate ValidPolls(dec: Decoder, s: Loop, ps: seq<Poll>)
    decreases |ps|
  {
    s.running && !s.crashed && ps != [] ==>
      (ps[0].up ==> ValidPoll(s.position, ps[0])) && ValidPolls(dec, OnePoll(dec, s, ps[0]), ps[1..])
  }

  ghost predicate ValidSessions(dec: Decoder, s: Loop, runs: seq<seq<Poll>>)
    decreases |runs|
  {
    runs != [] ==>
      && ValidPolls(dec, s.(running := true, crashed := false, position := s.committed), runs[0])
      && ValidSessions(dec, Session(dec, s, runs[0]), runs[1..])
  }

  // ------------------------------------------------------------------- fates

  datatype Fate = Processed | DeadLettered | DlqLost | NoFate

  /** Where a message goes once its turn comes. */
  function FateOf(dec: Decoder, d: Delivery): Fate {
    if Escaping(dec, d) then NoFate else
    if DecodeError(dec, d).None? && d.outcome.Success? then Processed else
    if d.dlqUp then DeadLettered else DlqLost
  }

  function WithFate(dec: Decoder, ds: seq<Delivery>, f: Fate): (ids: seq<MsgId>) {
    if ds == [] then [] else (if FateOf(dec, ds[0]) == f then [ds[0].id] else []) + WithFate(dec, ds[1..], f)
  }

  function FirstIds(pairs: seq<(MsgId, Envelope)>): (ids: seq<MsgId>)
    ensures |ids| == |pairs|
  {
    if pairs == [] then [] else [pairs[0].0] + FirstIds(pairs[1..])
  }

  function Handled(s: Loop): set<MsgId> {
    (set id | id in s.processed) + (set id | id in FirstIds(s.dlq)) + (set id | id in s.dlqLost)
  }

  /** The first message of a batch at which the loop dies, or the batch's length. */
  function StopAt(dec: Decoder, batch: seq<Delivery>): (k: nat)
    ensures k <= |batch|
    ensures forall i :: 0 <= i < k ==> !Stops(dec, batch[i])
    ensures k < |batch| ==> Stops(dec, batch[k])
  {
    if batch == [] || Stops(dec, batch[0]) then 0 else 1 + StopAt(dec, batch[1..])
  }

  /** How many messages of a batch get a fate: those before the stop, and the one whose commit failed. */
  function Decided(dec: Decoder, batch: seq<Delivery>): (n: nat)
    ensures n <= |batch|
  {
    var k := StopAt(dec, batch);
    if k < |batch| && !Escaping(dec, batch[k]) then k + 1 else k
  }

  /** The tail a dying loop leaves behind although its offsets are committed. */
  function LostTail(dec: Decoder, p: Poll): set<MsgId> {
    if p.up && StopAt(dec, p.batch) >= 1 then Ids(p.batch[Decided(dec, p.batch)..]) else {}
  }

  // ------------------------------------------------------------ batch theorems

  lemma FirstIdsAppend(a: seq<(MsgId, Envelope)>, b: seq<(MsgId, Envelope)>)
    ensures FirstIds(a + b) == FirstIds(a) + FirstIds(b)
  {
    if a == [] {
      assert a + b == b;
    } else {
      assert (a + b)[1..] == a[1..] + b;
      FirstIdsAppend(a[1..], b);
    }
  }

  lemma {:induction false} WithFateAppend(dec: Decoder, a: seq<Delivery>, b: seq<Delivery>, f: Fate)
    ensures WithFate(dec, a + b, f) == WithFate(dec, a, f) + WithFate(dec, b, f)
  {
    if a == [] {
      assert a + b == b;
    } else {
      var head := if FateOf(dec, a[0]) == f then [a[0].id] else [];
      assert (a + b)[0] == a[0] && (a + b)[1..] == a[1..] + b;
      WithFateAppend(dec, a[1..], b, f);
      assert head + (WithFate(dec, a[1..], f) + WithFate(dec, b, f)) == head + WithFate(dec, a[1..], f) + WithFate(dec, b, f);
    }
  }

  lemma {:induction false} WithFateOne(dec: Decoder, d: Delivery, f: Fate)
    ensures WithFate(dec, [d], f) == if FateOf(dec, d) == f then [d.id] else []
  {
    assert [d][1..] == [];
  }

  /** t is s after the deliveries ds got their fates, each in exactly one of the three lists. */
  ghost predicate Routed(dec: Decoder, s: Loop, t: Loop, ds: seq<Delivery>) {
    && t.processed == s.processed + WithFate(dec, ds, Processed)
    && FirstIds(t.dlq) == FirstIds(s.dlq) + WithFate(dec, ds, DeadLettered)
    && t.dlqLost == s.dlqLost + WithFate(dec, ds, DlqLost)
    && (forall i :: 0 <= i < |ds| ==> !FateOf(dec, ds[i]).NoFate?)
  }

  lemma {:induction false} OneLists(dec: Decoder, s: Loop, d: Delivery)
    requires !Escaping(dec, d)
    ensures
      var t, f := HandleOne(dec, s, d), FateOf(dec, d);
      && !f.NoFate?
      && t.processed == (if f.Processed? then s.processed + [d.id] else s.processed)
      && t.dlqLost == (if f.DlqLost? then s.dlqLost + [d.id] else s.dlqLost)
      && (f.DeadLettered? ==> exists e :: t.dlq == s.dlq + [(d.id, e)])
      && (!f.DeadLettered? ==> t.dlq == s.dlq)
  {
    var t, f := HandleOne(dec, s, d), FateOf(dec, d);
    if f.DeadLettered? {
      var e := if DecodeError(dec, d).Some? then DecodeError(dec, d).value else (d.outcome.errorType, d.outcome.errorMessage);
      assert t.dlq == s.dlq + [(d.id, Envelope(d.id.tp.topic, W.Hex(d.raw.value), e.0, e.1))];
    }
  }

  lemma {:induction false} OneOffsets(dec: Decoder, s: Loop, d: Delivery)
    requires !Escaping(dec, d)
    ensures
      var t := HandleOne(dec, s, d);
      && t.position == s.position
      && t.committed == (if d.commitUp then s.position else s.committed)
      && t.crashed == (s.crashed || !d.commitUp)
  {
  }

  lemma {:induction false} FirstIdsPush(a: seq<(MsgId, Envelope)>, e: (MsgId, Envelope))
    ensures FirstIds(a + [e]) == FirstIds(a) + [e.0]
  {
    FirstIdsAppend(a, [e]);
    assert [e][1..] == [];
  }

  lemma {:induction false} RoutedOne(dec: Decoder, s: Loop, d: Delivery)
    requires !Escaping(dec, d)
    ensures Routed(dec, s, HandleOne(dec, s, d), [d])
  {
    OneLists(dec, s, d);
    WithFateOne(dec, d, Processed);
    WithFateOne(dec, d, DeadLettered);
    WithFateOne(dec, d, DlqLost);
    if FateOf(dec, d).DeadLettered? {
      var e :| HandleOne(dec, s, d).dlq == s.dlq + [(d.id, e)];
      FirstIdsPush(s.dlq, (d.id, e));
    }
  }

  lemma {:induction false} RoutedChain(dec: Decoder, s: Loop, t: Loop, u: Loop, ds: seq<Delivery>, es: seq<Delivery>)
    requires Routed(dec, s, t, ds) && Routed(dec, t, u, es)
    ensures Routed(dec, s, u, ds + es)
  {
    FatesChain(dec, s.processed, ds, es, Processed);
    FatesChain(dec, FirstIds(s.dlq), ds, es, DeadLettered);
    FatesChain(dec, s.dlqLost, ds, es, DlqLost);
  }

  lemma FatesChain(dec: Decoder, before: seq<MsgId>, ds: seq<Delivery>, es: seq<Delivery>, f: Fate)
    ensures before + WithFate(dec, ds, f) + WithFate(dec, es, f) == before + WithFate(dec, ds + es, f)
  {
    WithFateAppend(dec, ds, es, f);
  }

  lemma {:induction false} StopCons(dec: Decoder, batch: seq<Delivery>)
    requires batch != [] && !Stops(dec, batch[0])
    ensures StopAt(dec, batch) == 1 + StopAt(dec, batch[1..])
    ensures Decided(dec, batch) == 1 + Decided(dec, batch[1..])
  {
  }

  lemma {:induction false} StoppedBatch(dec: Decoder, s: Loop, batch: seq<Delivery>)
    requires !s.crashed && batch != [] && Stops(dec, batch[0])
    ensures HandleBatch(dec, s, batch) == HandleOne(dec, s, batch[0])
    ensures Routed(dec, s, HandleOne(dec, s, batch[0]), batch[..Decided(dec, batch)])
  {
    if Escaping(dec, batch[0]) {
      assert batch[..0] == [];
    } else {
      OneOffsets(dec, s, batch[0]);
      RoutedOne(dec, s, batch[0]);
      assert batch[..1] == [batch[0]];
    }
  }

  /** Who gets a fate in a batch: everything before the stop, and a message whose commit failed. */
  lemma {:induction false} BatchRouted(dec: Decoder, s: Loop, batch: seq<Delivery>)
    requires !s.crashed
    ensures Routed(dec, s, HandleBatch(dec, s, batch), batch[..Decided(dec, batch)])
    decreases |batch|
  {
    if batch == [] {
    } else {
      var d := batch[0];
      if Stops(dec, d) {
        StoppedBatch(dec, s, batch);
      } else {
        var s1 := HandleOne(dec, s, d);
        OneOffsets(dec, s, d);
        RoutedOne(dec, s, d);
        BatchRouted(dec, s1, batch[1..]);
        StopCons(dec, batch);
        var n := Decided(dec, batch[1..]);
        assert batch[..1 + n] == [d] + batch[1..][..n];
        RoutedChain(dec, s, s1, HandleBatch(dec, s1, batch[1..]), [d], batch[1..][..n]);
      }
    }
  }

  lemma {:induction false} BatchOffsets(dec: Decoder, s: Loop, batch: seq<Delivery>)
    requires !s.crashed
    ensures
      var t, k := HandleBatch(dec, s, batch), StopAt(dec, batch);
      && t.position == s.position
      && t.committed == (if k >= 1 then s.position else s.committed)
      && (t.crashed <==> k < |batch|)
    decreases |batch|
  {
    if batch == [] {
    } else {
      if !Escaping(dec, batch[0]) { OneOffsets(dec, s, batch[0]); }
      if Stops(dec, batch[0]) {
        StoppedBatch(dec, s, batch);
      } else {
        BatchOffsets(dec, HandleOne(dec, s, batch[0]), batch[1..]);
        StopCons(dec, batch);
      }
    }
  }

  /** One batch, in closed form: who gets a fate, what is committed, whether the loop survives. */
  lemma {:induction false} BatchEffect(dec: Decoder, s: Loop, batch: seq<Delivery>)
    requires !s.crashed
    ensures
      var t := HandleBatch(dec, s, batch);
      var k := StopAt(dec, batch);
      && Routed(dec, s, t, batch[..Decided(dec, batch)])
      && t.position == s.position
      && t.committed == (if k >= 1 then s.position else s.committed)
      && (t.crashed <==> k < |batch|)
  {
    BatchRouted(dec, s, batch);
    BatchOffsets(dec, s, batch);
  }

  lemma {:induction false} WithFateIn(dec: Decoder, ds: seq<Delivery>, f: Fate, id: MsgId)
    ensures id in WithFate(dec, ds, f) <==> exists i :: 0 <= i < |ds| && ds[i].id == id && FateOf(dec, ds[i]) == f
  {
    if ds == [] {
    } else {
      WithFateIn(dec, ds[1..], f, id);
      if i :| 0 <= i < |ds| && ds[i].id == id && FateOf(dec, ds[i]) == f {
        if i > 0 { assert ds[1..][i - 1] == ds[i]; }
      }
      if i :| 0 <= i < |ds| - 1 && ds[1..][i].id == id && FateOf(dec, ds[1..][i]) == f {
        assert ds[i + 1] == ds[1..][i];
      }
    }
  }

  lemma {:induction false} RoutedHandles(dec: Decoder, s: Loop, t: Loop, ds: seq<Delivery>)
    requires Routed(dec, s, t, ds)
    ensures Handled(t) == Handled(s) + Ids(ds)
  {
    forall id ensures id in Handled(t) <==> id in Handled(s) + Ids(ds) {
      SomeFate(dec, ds, id);
    }
  }

  lemma {:induction false} SomeFate(dec: Decoder, ds: seq<Delivery>, id: MsgId)
    requires forall i :: 0 <= i < |ds| ==> !FateOf(dec, ds[i]).NoFate?
    ensures id in Ids(ds) <==>
      id in WithFate(dec, ds, Processed) || id in WithFate(dec, ds, DeadLettered) || id in WithFate(dec, ds, DlqLost)
  {
    WithFateIn(dec, ds, Processed, id);
    WithFateIn(dec, ds, DeadLettered, id);
    WithFateIn(dec, ds, DlqLost, id);
    if id in Ids(ds) {
      var i :| 0 <= i < |ds| && ds[i].id == id;
      var f := FateOf(dec, ds[i]);
      assert id in WithFate(dec, ds, f);
    }
  }

  // ------------------------------------------------------- coverage over sessions

  /** Everything between the start and the committed offsets was handled or is in lost. */
  ghost predicate Covered(start: Offsets, s: Loop, lost: set<MsgId>) {
    && s.committed.Keys == start.Keys && s.position.Keys == start.Keys
    && (forall tp :: tp in start ==> start[tp] <= s.committed[tp])
    && (forall id :: InRange(id, start, s.committed) ==> id in Handled(s) || id in lost)
  }

  /** At a poll boundary of a living loop nothing is waiting between the commit and the position. */
  ghost predicate AtBoundary(s: Loop) {
    !s.crashed ==> s.position == s.committed
  }

  lemma {:induction false} OnePollEffect(dec: Decoder, start: Offsets, s: Loop, p: Poll, lost: set<MsgId>)
    requires !s.crashed && s.position == s.committed && Covered(start, s, lost)
    requires p.up ==> ValidPoll(s.position, p)
    ensures
      var t := OnePoll(dec, s, p);
      Covered(start, t, lost + LostTail(dec, p)) && AtBoundary(t)
  {
    if p.up {
      var s1 := s.(running := s.running && !p.signal, position := p.next);
      var t := HandleBatch(dec, s1, p.batch);
      var n := Decided(dec, p.batch);
      BatchEffect(dec, s1, p.batch);
      RoutedHandles(dec, s1, t, p.batch[..n]);
      if |p.batch| == 0 {
        assert p.next == s.position by {
          forall tp | tp in s.position ensures p.next[tp] == s.position[tp] {
            if s.position[tp] < p.next[tp] {
              assert InRange(MsgId(tp, s.position[tp]), s.position, p.next);
            }
          }
        }
      }
      if StopAt(dec, p.batch) >= 1 {
        forall id | InRange(id, start, t.committed) ensures id in Handled(t) || id in lost + LostTail(dec, p) {
          if !InRange(id, start, s.committed) {
            assert id in Ids(p.batch);
            SplitIds(p.batch, n);
          }
        }
      }
    }
  }

  lemma {:induction false} SplitIds(batch: seq<Delivery>, n: nat)
    requires n <= |batch|
    ensures Ids(batch) == Ids(batch[..n]) + Ids(batch[n..])
  {
    forall id | id in Ids(batch) ensures id in Ids(batch[..n]) + Ids(batch[n..]) {
      var i :| 0 <= i < |batch| && batch[i].id == id;
      if i < n { assert batch[..n][i].id == id; } else { assert batch[n..][i - n].id == id; }
    }
  }

  /** Inside a batch the messages that are committed and not handled are among the rest of that batch, all of
      which is committed from the first commit on. */
  lemma {:induction false} InsideBatch(dec: Decoder, start: Offsets, s: Loop, p: Poll, n: nat)
    requires !s.crashed && s.position == s.committed && Covered(start, s, {})
    requires p.up && ValidPoll(s.position, p) && n <= StopAt(dec, p.batch)
    ensures
      var t := HandleBatch(dec, s.(position := p.next), p.batch[..n]);
      && (forall id :: InRange(id, start, t.committed) && id !in Handled(t) ==> id in Ids(p.batch[n..]))
      && (n >= 1 ==> forall id :: id in Ids(p.batch[n..]) ==> InRange(id, start, t.committed))
  {
    var s1 := s.(position := p.next);
    var t := HandleBatch(dec, s1, p.batch[..n]);
    StopPrefix(dec, p.batch, n);
    BatchEffect(dec, s1, p.batch[..n]);
    assert p.batch[..n][..n] == p.batch[..n];
    RoutedHandles(dec, s1, t, p.batch[..n]);
    SplitIds(p.batch, n);
    forall id | InRange(id, start, t.committed) && id !in Handled(t) ensures id in Ids(p.batch[n..]) {
      if !InRange(id, start, s.committed) { assert id in Ids(p.batch); }
    }
  }

  lemma {:induction false} StopPrefix(dec: Decoder, batch: seq<Delivery>, n: nat)
    requires n <= StopAt(dec, batch)
    ensures StopAt(dec, batch[..n]) == n
  {
    if n == 0 {
    } else {
      assert batch[..n][1..] == batch[1..][..n - 1];
      StopPrefix(dec, batch[1..], n - 1);
    }
  }

  function LostIn(dec: Decoder, s: Loop, ps: seq<Poll>): set<MsgId>
    decreases |ps|
  {
    if !s.running || s.crashed || ps == [] then {} else
    LostTail(dec, ps[0]) + LostIn(dec, OnePoll(dec, s, ps[0]), ps[1..])
  }

  function LostOver(dec: Decoder, s: Loop, runs: seq<seq<Poll>>): set<MsgId>
    decreases |runs|
  {
    if runs == [] then {} else
    LostIn(dec, s.(running := true, crashed := false, position := s.committed), runs[0])
      + LostOver(dec, Session(dec, s, runs[0]), runs[1..])
  }

  lemma {:induction false} PollsCover(dec: Decoder, start: Offsets, s: Loop, ps: seq<Poll>, lost: set<MsgId>)
    requires Covered(start, s, lost) && AtBoundary(s) && ValidPolls(dec, s, ps)
    ensures Covered(start, Polls(dec, s, ps), lost + LostIn(dec, s, ps))
    ensures AtBoundary(Polls(dec, s, ps))
    decreases |ps|
  {
    if !s.running || s.crashed || ps == [] {
    } else {
      OnePollEffect(dec, start, s, ps[0], lost);
      PollsCover(dec, start, OnePoll(dec, s, ps[0]), ps[1..], lost + LostTail(dec, ps[0]));
      assert lost + LostTail(dec, ps[0]) + LostIn(dec, OnePoll(dec, s, ps[0]), ps[1..]) == lost + LostIn(dec, s, ps);
    }
  }

  /** Over any number of restarts, whatever lies below the committed offsets was handled, or was in the
      unhandled tail of a batch in which the loop died after a commit. */
  lemma {:induction false} SessionsCover(dec: Decoder, start: Offsets, s: Loop, runs: seq<seq<Poll>>, lost: set<MsgId>)
    requires Covered(start, s, lost) && ValidSessions(dec, s, runs)
    ensures Covered(start, Sessions(dec, s, runs), lost + LostOver(dec, s, runs))
    decreases |runs|
  {
    if runs == [] {
    } else {
      var s0 := s.(running := true, crashed := false, position := s.committed);
      PollsCover(dec, start, s0, runs[0], lost);
      SessionsCover(dec, start, Session(dec, s, runs[0]), runs[1..], lost + LostIn(dec, s0, runs[0]));
      assert lost + LostIn(dec, s0, runs[0]) + LostOver(dec, Session(dec, s, runs[0]), runs[1..]) == lost + LostOver(dec, s, runs);
    }
  }

  /** In every session that ends without an escaping exception, each message up to the committed offsets was
      handled and nothing it polled is left over. */
  lemma {:induction false} CleanSessionLosesNothing(dec: Decoder, s: Loop, ps: seq<Poll>)
    requires ValidPolls(dec, s.(running := true, crashed := false, position := s.committed), ps)
    requires !Session(dec, s, ps).crashed
    ensures
      var t := Session(dec, s, ps);
      t.position == t.committed && forall id :: InRange(id, s.committed, t.committed) ==> id in Handled(t)
  {
    var s0 := s.(running := true, crashed := false, position := s.committed);
    PollsCover(dec, s.committed, s0, ps, {});
    NoCrashNoLoss(dec, s0, ps);
  }

  lemma {:induction false} NoCrashNoLoss(dec: Decoder, s: Loop, ps: seq<Poll>)
    requires !Polls(dec, s, ps).crashed
    ensures LostIn(dec, s, ps) == {}
    decreases |ps|
  {
    if !s.running || s.crashed || ps == [] {
    } else {
      var t := OnePoll(dec, s, ps[0]);
      assert !t.crashed;
      BatchEffect(dec, s.(running := s.running && !ps[0].signal, position := ps[0].next), ps[0].batch);
      assert Ids(ps[0].batch[|ps[0].batch|..]) == {};
      NoCrashNoLoss(dec, t, ps[1..]);
    }
  }

  // -------------------------------------------------- at most once, exact losses

  /** The first message of the poll commits, unless its processing escapes. */
  predicate FirstCommits(dec: Decoder, p: Poll) {
    p.up && p.batch != [] ==> Escaping(dec, p.batch[0]) || p.batch[0].commitUp
  }

  /** Every poll the loop reaches does. */
  predicate FirstsCommit(dec: Decoder, s: Loop, ps: seq<Poll>)
    decreases |ps|
  {
    s.running && !s.crashed && ps != [] ==> FirstCommits(dec, ps[0]) && FirstsCommit(dec, OnePoll(dec, s, ps[0]), ps[1..])
  }

  predicate AllFirstsCommit(dec: Decoder, s: Loop, runs: seq<seq<Poll>>)
    decreases |runs|
  {
    runs != [] ==>
      && FirstsCommit(dec, s.(running := true, crashed := false, position := s.committed), runs[0])
      && AllFirstsCommit(dec, Session(dec, s, runs[0]), runs[1..])
  }

  /** Handled messages lie below the committed offsets, none of them is lost, and none was handled twice. */
  ghost predicate OnceOnly(start: Offsets, s: Loop, lost: set<MsgId>) {
    && Covered(start, s, lost)
    && (forall id :: id in Handled(s) ==> InRange(id, start, s.committed))
    && (forall id :: id in lost ==> InRange(id, start, s.committed))
    && lost !! Handled(s)
    && NoRepeats(s.processed + FirstIds(s.dlq) + s.dlqLost)
  }

  ghost predicate NoRepeats(ids: seq<MsgId>) {
    forall i, j :: 0 <= i < j < |ids| ==> ids[i] != ids[j]
  }

  lemma WithFateOnce(dec: Decoder, ds: seq<Delivery>, f: Fate)
    requires forall i, j :: 0 <= i < j < |ds| ==> ds[i].id != ds[j].id
    ensures NoRepeats(WithFate(dec, ds, f))
  {
    if ds == [] {
    } else {
      WithFateOnce(dec, ds[1..], f);
      WithFateIn(dec, ds[1..], f, ds[0].id);
    }
  }

  lemma {:induction false} NoRepeatsJoin(a: seq<MsgId>, b: seq<MsgId>)
    requires NoRepeats(a) && NoRepeats(b) && forall x :: x in a ==> x !in b
    ensures NoRepeats(a + b)
  {
    var c := a + b;
    forall i, j | 0 <= i < j < |c| ensures c[i] != c[j] {
      assert i < |a| ==> c[i] in a;
      assert j >= |a| ==> c[j] in b;
    }
  }

  lemma {:induction false} RoutedOnce(dec: Decoder, s: Loop, t: Loop, ds: seq<Delivery>)
    requires Routed(dec, s, t, ds) && NoRepeats(s.processed + FirstIds(s.dlq) + s.dlqLost)
    requires forall i, j :: 0 <= i < j < |ds| ==> ds[i].id != ds[j].id
    requires Ids(ds) !! Handled(s)
    ensures NoRepeats(t.processed + FirstIds(t.dlq) + t.dlqLost)
  {
    var p, q, r := WithFate(dec, ds, Processed), WithFate(dec, ds, DeadLettered), WithFate(dec, ds, DlqLost);
    WithFateOnce(dec, ds, Processed);
    WithFateOnce(dec, ds, DeadLettered);
    WithFateOnce(dec, ds, DlqLost);
    forall id ensures !(id in p && id in q) && !(id in p && id in r) && !(id in q && id in r)
                   && (id in p + q + r ==> id in Ids(ds)) {
      WithFateIn(dec, ds, Processed, id);
      WithFateIn(dec, ds, DeadLettered, id);
      WithFateIn(dec, ds, DlqLost, id);
    }
    var a, b, c := s.processed, FirstIds(s.dlq), s.dlqLost;
    Parts(a, b, c);
    forall id | id in p + q + r ensures id !in a + b + c { assert id !in Handled(s); }
    NoRepeatsJoin(a, p);
    NoRepeatsJoin(b, q);
    NoRepeatsJoin(c, r);
    NoRepeatsJoin(a + p, b + q);
    NoRepeatsJoin(a + p + (b + q), c + r);
    assert t.processed + FirstIds(t.dlq) + t.dlqLost == a + p + (b + q) + (c + r);
  }

  lemma {:induction false} Parts(a: seq<MsgId>, b: seq<MsgId>, c: seq<MsgId>)
    requires NoRepeats(a + b + c)
    ensures NoRepeats(a) && NoRepeats(b) && NoRepeats(c)
    ensures forall x :: x in a ==> x !in b && x !in c
    ensures forall x :: x in b ==> x !in c
  {
    var all := a + b + c;
    assert forall i :: 0 <= i < |a| ==> all[i] == a[i];
    assert forall i :: 0 <= i < |b| ==> all[|a| + i] == b[i];
    assert forall i :: 0 <= i < |c| ==> all[|a| + |b| + i] == c[i];
  }

  lemma {:induction false} OnePollOnce(dec: Decoder, start: Offsets, s: Loop, p: Poll, lost: set<MsgId>)
    requires !s.crashed && s.position == s.committed && OnceOnly(start, s, lost)
    requires (p.up ==> ValidPoll(s.position, p)) && FirstCommits(dec, p)
    ensures OnceOnly(start, OnePoll(dec, s, p), lost + LostTail(dec, p))
  {
    OnePollEffect(dec, start, s, p, lost);
    if p.up {
      var s1 := s.(running := s.running && !p.signal, position := p.next);
      var t := HandleBatch(dec, s1, p.batch);
      var n, k := Decided(dec, p.batch), StopAt(dec, p.batch);
      BatchEffect(dec, s1, p.batch);
      assert k == 0 ==> n == 0;
      RoutedHandles(dec, s1, t, p.batch[..n]);
      SplitIds(p.batch, n);
      forall id | id in Ids(p.batch) ensures id !in Handled(s) && id !in lost && InRange(id, start, p.next) {
        assert InRange(id, s.position, p.next);
      }
      RoutedOnce(dec, s1, t, p.batch[..n]);
      forall id | id in Ids(p.batch[n..]) ensures id !in Ids(p.batch[..n]) {
      }
      if k == 0 { assert p.batch[..0] == []; }
    }
  }

  lemma {:induction false} PollsOnce(dec: Decoder, start: Offsets, s: Loop, ps: seq<Poll>, lost: set<MsgId>)
    requires OnceOnly(start, s, lost) && AtBoundary(s) && ValidPolls(dec, s, ps) && FirstsCommit(dec, s, ps)
    ensures OnceOnly(start, Polls(dec, s, ps), lost + LostIn(dec, s, ps))
    decreases |ps|
  {
    if !s.running || s.crashed || ps == [] {
    } else {
      OnePollOnce(dec, start, s, ps[0], lost);
      OnePollEffect(dec, start, s, ps[0], lost);
      PollsOnce(dec, start, OnePoll(dec, s, ps[0]), ps[1..], lost + LostTail(dec, ps[0]));
      assert lost + LostTail(dec, ps[0]) + LostIn(dec, OnePoll(dec, s, ps[0]), ps[1..]) == lost + LostIn(dec, s, ps);
    }
  }

  lemma {:induction false} SessionsOnce(dec: Decoder, start: Offsets, s: Loop, runs: seq<seq<Poll>>, lost: set<MsgId>)
    requires OnceOnly(start, s, lost) && ValidSessions(dec, s, runs) && AllFirstsCommit(dec, s, runs)
    ensures OnceOnly(start, Sessions(dec, s, runs), lost + LostOver(dec, s, runs))
    decreases |runs|
  {
    if runs == [] {
    } else {
      var s0 := s.(running := true, crashed := false, position := s.committed);
      PollsOnce(dec, start, s0, runs[0], lost);
      SessionsOnce(dec, start, Session(dec, s, runs[0]), runs[1..], lost + LostIn(dec, s0, runs[0]));
      assert lost + LostIn(dec, s0, runs[0]) + LostOver(dec, Session(dec, s, runs[0]), runs[1..]) == lost + LostOver(dec, s, runs);
    }
  }

  function Fresh(start: Offsets): Loop {
    Loop(false, false, start, start, [], [], [])
  }

  /** While no first commit of a batch fails the loop is at-most-once over any number of restarts: each message is
      in one of the three lists at most once, and the committed messages in none of them are exactly the lost
      tails. */
  lemma AtMostOnce(dec: Decoder, start: Offsets, runs: seq<seq<Poll>>)
    requires ValidSessions(dec, Fresh(start), runs) && AllFirstsCommit(dec, Fresh(start), runs)
    ensures
      var t := Sessions(dec, Fresh(start), runs);
      && NoRepeats(t.processed + FirstIds(t.dlq) + t.dlqLost)
      && (forall id :: InRange(id, start, t.committed) && id !in Handled(t) <==> id in LostOver(dec, Fresh(start), runs))
  {
    SessionsOnce(dec, start, Fresh(start), runs, {});
  }

  /** No handled message is left for the broker to deliver again. */
  ghost predicate NothingToRepeat(start: Offsets, s: Loop) {
    forall id :: id in Handled(s) ==> InRange(id, start, s.committed)
  }

  /** ... at the start and at the end of every session. */
  ghost predicate NeverToRepeat(dec: Decoder, start: Offsets, s: Loop, runs: seq<seq<Poll>>)
    decreases |runs|
  {
    NothingToRepeat(start, s) && (runs != [] ==> NeverToRepeat(dec, start, Session(dec, s, runs[0]), runs[1..]))
  }

  /** A first commit that fails leaves its message handled and uncommitted. */
  lemma FailedFirstRemains(dec: Decoder, start: Offsets, s: Loop, p: Poll, lost: set<MsgId>)
    requires !s.crashed && s.position == s.committed && Covered(start, s, lost)
    requires p.up && ValidPoll(s.position, p) && !FirstCommits(dec, p)
    ensures OnePoll(dec, s, p).crashed && !NothingToRepeat(start, OnePoll(dec, s, p))
    ensures p.batch[0].id in Handled(OnePoll(dec, s, p)) && OnePoll(dec, s, p).committed == s.committed
  {
    var s1 := s.(running := s.running && !p.signal, position := p.next);
    BatchEffect(dec, s1, p.batch);
    RoutedHandles(dec, s1, HandleBatch(dec, s1, p.batch), p.batch[..1]);
    assert p.batch[..1][0].id in Ids(p.batch[..1]);
    assert p.batch[0].id in Ids(p.batch);
    assert InRange(p.batch[0].id, s.position, p.next);
  }

  lemma {:induction false} PollsRepeatIff(dec: Decoder, start: Offsets, s: Loop, ps: seq<Poll>, lost: set<MsgId>)
    requires OnceOnly(start, s, lost) && AtBoundary(s) && ValidPolls(dec, s, ps)
    ensures NothingToRepeat(start, Polls(dec, s, ps)) <==> FirstsCommit(dec, s, ps)
    decreases |ps|
  {
    if !s.running || s.crashed || ps == [] {
    } else {
      if FirstCommits(dec, ps[0]) {
        OnePollOnce(dec, start, s, ps[0], lost);
        OnePollEffect(dec, start, s, ps[0], lost);
        PollsRepeatIff(dec, start, OnePoll(dec, s, ps[0]), ps[1..], lost + LostTail(dec, ps[0]));
      } else {
        FailedFirstRemains(dec, start, s, ps[0], lost);
      }
    }
  }

  lemma {:induction false} SessionsRepeatIff(dec: Decoder, start: Offsets, s: Loop, runs: seq<seq<Poll>>, lost: set<MsgId>)
    requires OnceOnly(start, s, lost) && ValidSessions(dec, s, runs)
    ensures NeverToRepeat(dec, start, s, runs) <==> AllFirstsCommit(dec, s, runs)
    decreases |runs|
  {
    if runs == [] {
    } else {
      var s0 := s.(running := true, crashed := false, position := s.committed);
      PollsRepeatIff(dec, start, s0, runs[0], lost);
      if FirstsCommit(dec, s0, runs[0]) {
        PollsOnce(dec, start, s0, runs[0], lost);
        SessionsRepeatIff(dec, start, Session(dec, s, runs[0]), runs[1..], lost + LostIn(dec, s0, runs[0]));
      }
    }
  }

  /** Exactly: over any restarts no handled message is ever left uncommitted if and only if the first message of
      every batch the loop reaches commits or escapes.  A commit that fails later in a batch repeats nothing. */
  lemma RepeatsExactly(dec: Decoder, start: Offsets, runs: seq<seq<Poll>>)
    requires ValidSessions(dec, Fresh(start), runs)
    ensures NeverToRepeat(dec, start, Fresh(start), runs) <==> AllFirstsCommit(dec, Fresh(start), runs)
  {
    SessionsRepeatIff(dec, start, Fresh(start), runs, {});
  }

  /** The messages the loop is given. */
  function PolledIn(dec: Decoder, s: Loop, ps: seq<Poll>): set<MsgId>
    decreases |ps|
  {
    if !s.running || s.crashed || ps == [] then {} else
    (if ps[0].up then Ids(ps[0].batch) else {}) + PolledIn(dec, OnePoll(dec, s, ps[0]), ps[1..])
  }

  function PolledOver(dec: Decoder, s: Loop, runs: seq<seq<Poll>>): set<MsgId>
    decreases |runs|
  {
    if runs == [] then {} else
    PolledIn(dec, s.(running := true, crashed := false, position := s.committed), runs[0])
      + PolledOver(dec, Session(dec, s, runs[0]), runs[1..])
  }

  predicate Behind(a: Offsets, b: Offsets) { a.Keys == b.Keys && forall tp :: tp in a ==> a[tp] <= b[tp] }

  lemma OnePollMoves(dec: Decoder, s: Loop, p: Poll)
    requires !s.crashed && Behind(s.committed, s.position) && (p.up ==> ValidPoll(s.position, p))
    ensures
      var t := OnePoll(dec, s, p);
      && Behind(s.position, t.position) && Behind(s.committed, t.committed) && Behind(t.committed, t.position)
      && (forall id :: InRange(id, s.position, t.position) ==> p.up && id in Ids(p.batch))
  {
    if p.up { BatchOffsets(dec, s.(running := s.running && !p.signal, position := p.next), p.batch); }
  }

  /** What the position passes in a session, the session was given. */
  lemma {:induction false} PollsRead(dec: Decoder, s: Loop, ps: seq<Poll>)
    requires Behind(s.committed, s.position) && ValidPolls(dec, s, ps)
    ensures
      var t := Polls(dec, s, ps);
      && Behind(s.position, t.position) && Behind(s.committed, t.committed) && Behind(t.committed, t.position)
      && (forall id :: InRange(id, s.position, t.position) ==> id in PolledIn(dec, s, ps))
    decreases |ps|
  {
    if !s.running || s.crashed || ps == [] {
    } else {
      OnePollMoves(dec, s, ps[0]);
      PollsRead(dec, OnePoll(dec, s, ps[0]), ps[1..]);
    }
  }

  /** What the last session passes beyond the first one's committed offsets, some session was given. */
  lemma {:induction false} SessionsRead(dec: Decoder, s: Loop, runs: seq<seq<Poll>>, id: MsgId)
    requires ValidSessions(dec, s, runs) && runs != [] && InRange(id, s.committed, Sessions(dec, s, runs).position)
    ensures id in PolledOver(dec, s, runs)
    decreases |runs|
  {
    var s0 := s.(running := true, crashed := false, position := s.committed);
    var t := Session(dec, s, runs[0]);
    PollsRead(dec, s0, runs[0]);
    assert |runs| == 1 ==> Sessions(dec, s, runs) == t;
    if !InRange(id, s.committed, t.position) {
      SessionsRead(dec, t, runs[1..], id);
    }
  }

  /** A failing first commit makes the loop handle a message and not commit it: whatever the later sessions poll, once one
      of them has read past the message, it was given to them again. */
  lemma FailedCommitRepeats(dec: Decoder, s: Loop, p: Poll, later: seq<seq<Poll>>)
    requires p.up && p.batch != [] && !Escaping(dec, p.batch[0]) && !p.batch[0].commitUp && ValidPoll(s.committed, p)
    requires later != [] && ValidSessions(dec, Session(dec, s, [p]), later)
    ensures
      var t, id := Session(dec, s, [p]), p.batch[0].id;
      && id in Handled(t) && t.committed == s.committed
      && id.tp in Sessions(dec, t, later).position
      && (id.offset < Sessions(dec, t, later).position[id.tp] ==> id in PolledOver(dec, t, later))
  {
    var s0 := s.(running := true, crashed := false, position := s.committed);
    var s1 := s0.(running := !p.signal, position := p.next);
    var t, id := Session(dec, s, [p]), p.batch[0].id;
    BatchEffect(dec, s1, p.batch);
    RoutedHandles(dec, s1, HandleBatch(dec, s1, p.batch), p.batch[..1]);
    assert p.batch[..1][0].id in Ids(p.batch[..1]);
    assert Polls(dec, s0, [p]) == OnePoll(dec, s0, p);
    assert id in Ids(p.batch) && InRange(id, s.committed, p.next);
    SessionsMove(dec, t, later);
    if id.offset < Sessions(dec, t, later).position[id.tp] { SessionsRead(dec, t, later, id); }
  }

  lemma {:induction false} SessionsMove(dec: Decoder, s: Loop, runs: seq<seq<Poll>>)
    requires ValidSessions(dec, s, runs) && runs != []
    ensures Behind(s.committed, Sessions(dec, s, runs).position)
    decreases |runs|
  {
    var t := Session(dec, s, runs[0]);
    PollsRead(dec, s.(running := true, crashed := false, position := s.committed), runs[0]);
    if |runs| == 1 {
    } else {
      SessionsMove(dec, t, runs[1..]);
    }
  }

  // -------------------------------------------------------- shutdown and poison

  /** A signal that comes inside a batch lets the batch finish and stops the loop before the next poll. */
  lemma {:induction false} SignalDrains(dec: Decoder, s: Loop, ps: seq<Poll>, i: nat)
    requires s.running && !s.crashed && ps != [] && ps[0].up
    requires i < |ps[0].batch| && ps[0].batch[i].signal && StopAt(dec, ps[0].batch) == |ps[0].batch|
    ensures
      var t := Polls(dec, s, ps);
      && t == OnePoll(dec, s, ps[0]) && !t.running && !t.crashed
      && Routed(dec, s, t, ps[0].batch) && t.committed == ps[0].next
  {
    var s1 := s.(running := s.running && !ps[0].signal, position := ps[0].next);
    BatchEffect(dec, s1, ps[0].batch);
    assert ps[0].batch[..|ps[0].batch|] == ps[0].batch;
    SignalStops(dec, s1, ps[0].batch, i);
  }

  lemma {:induction false} SignalStops(dec: Decoder, s: Loop, batch: seq<Delivery>, i: nat)
    requires !s.crashed && i < |batch| && batch[i].signal && StopAt(dec, batch) == |batch|
    ensures !HandleBatch(dec, s, batch).running
    decreases |batch|
  {
    var s1 := HandleOne(dec, s, batch[0]);
    assert !Stops(dec, batch[0]);
    if i > 0 {
      SignalStops(dec, s1, batch[1..], i - 1);
    } else {
      StaysStopped(dec, s1, batch[1..]);
    }
  }

  lemma {:induction false} StaysStopped(dec: Decoder, s: Loop, batch: seq<Delivery>)
    requires !s.running
    ensures !HandleBatch(dec, s, batch).running
    decreases |batch|
  {
    if !s.crashed && batch != [] { StaysStopped(dec, HandleOne(dec, s, batch[0]), batch[1..]); }
  }

  /** Before anything else the session polls an escaping message, or fails to: polls that bring nothing do not count. */
  predicate PoisonFirst(dec: Decoder, ps: seq<Poll>) {
    ps == [] || !ps[0].up || if ps[0].batch == [] then PoisonFirst(dec, ps[1..]) else Escaping(dec, ps[0].batch[0])
  }

  predicate NothingRecorded(s: Loop, t: Loop) {
    t.committed == s.committed && t.processed == s.processed && t.dlq == s.dlq && t.dlqLost == s.dlqLost
  }

  lemma {:induction false} PoisonEndsSession(dec: Decoder, s: Loop, ps: seq<Poll>)
    requires PoisonFirst(dec, ps)
    ensures NothingRecorded(s, Polls(dec, s, ps))
    decreases |ps|
  {
    if !s.running || s.crashed || ps == [] {
    } else {
      var p := ps[0];
      if p.up && p.batch != [] {
        StoppedBatch(dec, s.(running := s.running && !p.signal, position := p.next), p.batch);
      }
      var t := OnePoll(dec, s, p);
      if t.crashed {
        assert Polls(dec, t, ps[1..]) == t;
      } else {
        PoisonEndsSession(dec, t, ps[1..]);
      }
    }
  }

  /** A message that escapes, by its processing or by its null value, blocks the group while it is first in line: any
      restarts that come upon such a message first, after any polls that bring nothing, commit nothing and record
      nothing. */
  lemma {:induction false} PoisonBlocks(dec: Decoder, s: Loop, runs: seq<seq<Poll>>)
    requires forall i :: 0 <= i < |runs| ==> PoisonFirst(dec, runs[i])
    ensures NothingRecorded(s, Sessions(dec, s, runs))
    decreases |runs|
  {
    if runs == [] {
    } else {
      PoisonEndsSession(dec, s.(running := true, crashed := false, position := s.committed), runs[0]);
      PoisonBlocks(dec, Session(dec, s, runs[0]), runs[1..]);
    }
  }

  // ------------------------------------------------------- rejected wire bytes

  function ErrorName(e: W.DecodeError): string {
    match e
    case BadMagic => "SchemaRegistryError"
    case UnknownSchema => "SchemaRegistryError"
    case ShortHeader => "error"
    case BadBody => "EOFError"
  }

  /** The decoder of the wire format over the schemas in reach. */
  function WireDecoder<S(!new), R(!new)>(codec: W.Codec<S, R>, schemas: map<int, S>): Decoder {
    bytes => match W.Decode(codec, schemas, bytes)
      case Ok(_) => None
      case Err(e) => Some((ErrorName(e), ""))
  }

  /** Bytes the wire format rejects are dead-lettered when the queue is up, whatever process_record would have
      done, and the queued payload gives the bytes back. */
  lemma RejectedBytesReachDlq<S(!new), R(!new)>(codec: W.Codec<S, R>, schemas: map<int, S>, s: Loop, d: Delivery)
    requires d.raw.Some? && W.Decode(codec, schemas, d.raw.value).Err? && d.dlqUp
    ensures
      var t := HandleOne(WireDecoder(codec, schemas), s, d);
      && t.processed == s.processed && t.dlqLost == s.dlqLost && |t.dlq| == |s.dlq| + 1
      && t.dlq[|s.dlq|].0 == d.id && t.dlq[|s.dlq|].1.topic == d.id.tp.topic
      && W.Unhex(t.dlq[|s.dlq|].1.payload) == d.raw
  {
    W.HexRoundTrip(d.raw.value);
  }

  // ------------------------------------------------------------- the loop itself

  class Consumer {
    const dec: Decoder
    var running: bool
    var crashed: bool
    var position: Offsets
    var committed: Offsets
    var processed: seq<MsgId>
    var dlq: seq<(MsgId, Envelope)>
    var dlqLost: seq<MsgId>

    ghost function State(): Loop
      reads this
    {
      Loop(running, crashed, position, committed, processed, dlq, dlqLost)
    }

    method HandleShutdown()
      modifies this`running
      ensures State() == old(State()).(running := false)
    {
      running := false;
    }

    method SendToDlq(d: Delivery, errorType: string, errorMessage: string)
      requires d.raw.Some?
      modifies this`dlq, this`dlqLost
      ensures State() == DeadLetter(old(State()), d, errorType, errorMessage)
    {
      var payload := W.Hex(d.raw.value);
      if d.dlqUp {
        dlq := dlq + [(d.id, Envelope(d.id.tp.topic, payload, errorType, errorMessage))];
      } else {
        dlqLost := dlqLost + [d.id];
      }
    }

    /** One pass of the inner loop; crashed is set where an exception leaves it. */
    method HandleMessage(d: Delivery)
      modifies this
      ensures State() == HandleOne(dec, old(State()), d)
    {
      if d.signal { HandleShutdown(); }
      var rejected := DecodeError(dec, d);
      if rejected.Some? {
        if d.raw.None? {
          crashed := true;
          return;
        }
        SendToDlq(d, rejected.value.0, rejected.value.1);
      } else {
        match d.outcome {
          case Escapes =>
            crashed := true;
            return;
          case Failure(t, m) =>
            SendToDlq(d, t, m);
          case Success =>
            processed := processed + [d.id];
        }
      }
      if d.commitUp { committed := position; } else { crashed := true; }
    }

    /** The loop over a script of polls. */
    method Run(ps: seq<Poll>)
      modifies this
      ensures State() == Session(dec, old(State()), ps)
    {
      running, crashed, position := true, false, committed;
      ghost var start := State();
      var i := 0;
      while running && !crashed && i < |ps|
        invariant 0 <= i <= |ps|
        invariant Polls(dec, start, ps) == Polls(dec, State(), ps[i..])
      {
        var p := ps[i];
        ghost var before := State();
        assert ps[i..][1..] == ps[i + 1..];
        if p.signal { HandleShutdown(); }
        if !p.up {
          crashed := true;
        } else {
          position := p.next;
          ghost var polled := State();
          var j := 0;
          while !crashed && j < |p.batch|
            invariant 0 <= j <= |p.batch|
            invariant HandleBatch(dec, polled, p.batch) == HandleBatch(dec, State(), p.batch[j..])
          {
            assert p.batch[j..][1..] == p.batch[j + 1..];
            HandleMessage(p.batch[j]);
            j := j + 1;
          }
        }
        assert State() == OnePoll(dec, before, p);
        i := i + 1;
      }
    }
  }
}
