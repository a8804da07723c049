/** Simulation runs: the enqueueing transaction and its job as a protocol over one row, the
    synchronous endpoint, and what every completed row holds.

    Likelihoods and scores are stored with four decimals and kept here in ten-thousandths. */
module SimulationRuns {
  import opened Prelude
  import R = ReplyParsing

  type Id = nat
  const UNIT: int := 10_000

  datatype Status = Pending | Running | Completed | Failed

  datatype Row = Row(org: Option<Id>, segment: Id, stimulus: string, status: Status,
                     verbatim: Option<string>, sentiment: Option<string>,
                     likelihood: Option<int>, score: Option<int>,
                     keyFactors: Option<seq<R.Json>>, error: Option<string>, completedAt: Option<int>)

  type Table = map<Id, Row>

  function NewRow(org: Option<Id>, segment: Id, stimulus: string, status: Status): Row {
    Row(org, segment, stimulus, status, None, None, None, None, None, None, None)
  }

  // ---------------------------------------------------------------- result fields

  /** NUMERIC(5, 4): to the nearest ten-thousandth, halves away from zero; the values are never negative. */
  function Round4(x: real): int { (x * UNIT as real + 0.5).Floor }

  /** The nearest ten-thousandth, halves up. */
  lemma RoundsToNearest(x: real)
    ensures Round4(x) as real - 0.5 <= x * 10000.0 < Round4(x) as real + 0.5
  {
  }

  /** The driver's text for a reply value: a string is itself, null is NULL, anything else is up to the driver,
      which may refuse it. */
  type TextOf = R.Json -> Option<string>

  datatype Text = Stored(t: Option<string>) | Unstorable

  function VerbatimText(text: TextOf, v: R.Json): Text {
    match v
    case JNull => Stored(None)
    case JStr(s) => Stored(Some(s))
    case _ => if text(v).Some? then Stored(text(v)) else Unstorable
  }

  function WithResult(row: Row, r: R.ValidResponse, verbatim: Option<string>, at: int): Row {
    row.(verbatim := verbatim, sentiment := Some(r.sentiment),
         likelihood := Some(Round4(r.likelihood.r)), score := Some(Round4(R.ScoreOf(r))),
         keyFactors := Some(r.keyFactors), error := None, status := Completed, completedAt := Some(at))
  }

  /** The nudge in ten-thousandths. */
  function NudgeUnits(sentiment: string): int {
    if sentiment == "positive" then 500 else if sentiment == "negative" then -800 else 0
  }

  function ClampUnits(n: int): int { if n < 0 then 0 else if n > UNIT then UNIT else n }

  /** The stored score is the stored likelihood, nudged and clamped: exactly, in the stored precision. */
  lemma ScoreRoundsExactly(l: real, sentiment: string)
    requires 0.0 <= l <= 1.0
    ensures 0 <= Round4(l) <= UNIT
    ensures Round4(R.Score(l, sentiment)) == ClampUnits(Round4(l) + NudgeUnits(sentiment))
  {
    var n := NudgeUnits(sentiment);
    assert R.Nudge(sentiment) * UNIT as real == n as real;
    var x := l * UNIT as real + 0.5;
    assert (l + R.Nudge(sentiment)) * UNIT as real + 0.5 == x + n as real;
    FloorShift(x, n);
    assert Round4(0.0) == 0 && Round4(1.0) == UNIT;
    FloorMonotone(x, 10000.5);
    var y := l + R.Nudge(sentiment);
    if y < 0.0 {
      FloorMonotone(x + n as real, 0.5);
    } else if y > 1.0 {
      FloorMonotone(10000.5, x + n as real);
    } else {
      FloorMonotone(0.5, x + n as real);
      FloorMonotone(x + n as real, 10000.5);
    }
  }

  lemma FloorShift(x: real, n: int)
    ensures (x + n as real).Floor == x.Floor + n
  {
  }

  lemma FloorMonotone(x: real, y: real)
    requires x <= y
    ensures x.Floor <= y.Floor
  {
  }

  /** What a completed row holds, the verbatim text aside. */
  ghost predicate ResultOk(row: Row) {
    && row.sentiment.Some? && R.ValidSentiment(row.sentiment.value)
    && row.likelihood.Some? && 0 <= row.likelihood.value <= UNIT
    && row.score == Some(ClampUnits(row.likelihood.value + NudgeUnits(row.sentiment.value)))
    && row.keyFactors.Some? && row.completedAt.Some?
  }

  lemma WithResultOk(row: Row, r: R.ValidResponse, verbatim: Option<string>, at: int)
    ensures ResultOk(WithResult(row, r, verbatim, at))
  {
    ScoreRoundsExactly(r.likelihood.r, r.sentiment);
  }

  // ----------------------------------------------- the table under every writer

  /** One committed write to the table. */
  datatype Write =
    | EnqueueCommit(id: Id, org: Id, segment: Id, stimulus: string)
    | StatusUpdate(id: Id, status: Status, error: string)
    | ResultUpdate(id: Id, response: R.ValidResponse, at: int)
    | SyncCall(id: Id, org: Id, segment: Id, stimulus: string, call: Sync)
    | CompetitionInsert(id: Id, segment: Id, stimulus: string, response: R.ValidResponse, at: int, orgNullable: bool)

  /** How a synchronous call goes: refused before the row, inference fails, or a reply; and whether the commit succeeds. */
  datatype Sync = Refused | InferenceFails(error: string) | Replied(response: R.ValidResponse, at: int, commitUp: bool)

  function SetStatus(row: Row, status: Status, error: string): Row {
    if error != "" then row.(status := status, error := Some(error)) else row.(status := status)
  }

  function Apply(text: TextOf, t: Table, w: Write): Table {
    match w
    case EnqueueCommit(id, org, segment, stimulus) =>
      if id in t then t else t[id := NewRow(Some(org), segment, stimulus, Pending)]
    case StatusUpdate(id, status, error) =>
      if id in t && !status.Completed? then t[id := SetStatus(t[id], status, error)] else t
    case ResultUpdate(id, r, at) =>
      var v := VerbatimText(text, r.verbatim);
      if id in t && v.Stored? then t[id := WithResult(t[id], r, v.t, at)] else t
    case SyncCall(id, org, segment, stimulus, call) =>
      SyncResult(text, t, id, NewRow(Some(org), segment, stimulus, Running), call)
    case CompetitionInsert(id, segment, stimulus, r, at, orgNullable) =>
      var v := VerbatimText(text, r.verbatim);
      if id in t || !orgNullable || v.Unstorable? then t
      else t[id := WithResult(NewRow(None, segment, stimulus, Completed), r, v.t, at)]
  }

  /** A synchronous call as its client and the table see it: one completed row, or nothing at all. */
  function SyncResult(text: TextOf, t: Table, id: Id, row: Row, call: Sync): Table {
    if id in t || !call.Replied? || !call.commitUp then t else
    match VerbatimText(text, call.response.verbatim)
    case Unstorable => t
    case Stored(v) => t[id := WithResult(row, call.response, v, call.at)]
  }

  function Writes(text: TextOf, t: Table, ws: seq<Write>): Table {
    if ws == [] then t else Apply(text, Writes(text, t, ws[..|ws| - 1]), ws[|ws| - 1])
  }

  ghost predicate AllCompletedOk(t: Table) {
    forall id :: id in t && t[id].status.Completed? ==> ResultOk(t[id])
  }

  /** In every committed state, whatever the workers, the synchronous calls and the competitions write and in
      whatever order, a completed row has its sentiment, likelihood, factors and time set and its score is the
      nudged and clamped likelihood, between 0 and 1. */
  lemma {:induction false} CompletedRowsAreScored(text: TextOf, ws: seq<Write>)
    ensures AllCompletedOk(Writes(text, map[], ws))
    ensures forall id :: id in Writes(text, map[], ws) && Writes(text, map[], ws)[id].status.Completed? ==>
      0 <= Writes(text, map[], ws)[id].score.value <= UNIT
  {
    if ws == [] {
    } else {
      var before := Writes(text, map[], ws[..|ws| - 1]);
      CompletedRowsAreScored(text, ws[..|ws| - 1]);
      ApplyKeepsOk(text, before, ws[|ws| - 1]);
    }
  }

  lemma ApplyKeepsOk(text: TextOf, t: Table, w: Write)
    requires AllCompletedOk(t)
    ensures AllCompletedOk(Apply(text, t, w))
  {
    match w
    case ResultUpdate(id, r, at) =>
      var v := VerbatimText(text, r.verbatim);
      if id in t && v.Stored? { WithResultOk(t[id], r, v.t, at); }
    case SyncCall(id, org, segment, stimulus, call) =>
      if call.Replied? {
        var v := VerbatimText(text, call.response.verbatim);
        if v.Stored? { WithResultOk(NewRow(Some(org), segment, stimulus, Running), call.response, v.t, call.at); }
      }
    case CompetitionInsert(id, segment, stimulus, r, at, _) =>
      var v := VerbatimText(text, r.verbatim);
      if v.Stored? { WithResultOk(NewRow(None, segment, stimulus, Completed), r, v.t, at); }
    case _ =>
  }

  /** A stored reply, and when it was stored. */
  datatype Reply = Reply(response: R.ValidResponse, at: int)

  /** The row holds the reply, field by field: the text as it is stored, the sentiment, the likelihood and the nudged
      score to four decimals, the key factors and the time. */
  ghost predicate Holds(text: TextOf, row: Row, reply: Reply) {
    var r := reply.response;
    && (match r.verbatim
        case JNull => row.verbatim == None
        case JStr(s) => row.verbatim == Some(s)
        case v => row.verbatim.Some? && row.verbatim == text(v))
    && row.sentiment == Some(r.sentiment)
    && row.likelihood == Some(Round4(r.likelihood.r))
    && row.score == Some(Round4(R.Score(r.likelihood.r, r.sentiment)))
    && row.keyFactors == Some(r.keyFactors)
    && row.completedAt == Some(reply.at)
  }

  ghost predicate HoldsNothing(row: Row) {
    row.verbatim == row.sentiment == None && row.likelihood == row.score == None && row.keyFactors == None && row.completedAt == None
  }

  predicate Storable(text: TextOf, v: R.Json) { v.JNull? || v.JStr? || text(v).Some? }

  /** The reply a write stores in the row of `id`: an update needs the row, an insert needs its id free. */
  function StoredReply(text: TextOf, t: Table, w: Write, id: Id): Option<Reply> {
    match w
    case ResultUpdate(i, r, at) =>
      if i == id && id in t && Storable(text, r.verbatim) then Some(Reply(r, at)) else None
    case SyncCall(i, _, _, _, call) =>
      if i == id && id !in t && call.Replied? && call.commitUp && Storable(text, call.response.verbatim)
      then Some(Reply(call.response, call.at))
      else None
    case CompetitionInsert(i, _, _, r, at, orgNullable) =>
      if i == id && id !in t && orgNullable && Storable(text, r.verbatim) then Some(Reply(r, at)) else None
    case _ => None
  }

  /** ... and the last one stored over a run of writes. */
  function LastReply(text: TextOf, ws: seq<Write>, id: Id): Option<Reply> {
    if ws == [] then None else
    var front := ws[..|ws| - 1];
    var stored := StoredReply(text, Writes(text, map[], front), ws[|ws| - 1], id);
    if stored.Some? then stored else LastReply(text, front, id)
  }

  /** A row holds the last reply stored for it, and only a stored reply completes it. */
  ghost predicate TellsLastReply(text: TextOf, row: Row, reply: Option<Reply>) {
    && (row.status.Completed? ==> reply.Some?)
    && (if reply.Some? then Holds(text, row, reply.value) else HoldsNothing(row))
  }

  /** Over every run of writes by worker, synchronous calls and competitions. */
  lemma {:induction false} RowsTellLastReplies(text: TextOf, ws: seq<Write>, id: Id)
    ensures
      var t := Writes(text, map[], ws);
      if id in t then TellsLastReply(text, t[id], LastReply(text, ws, id)) else LastReply(text, ws, id).None?
  {
    if ws == [] {
    } else {
      var front := ws[..|ws| - 1];
      RowsTellLastReplies(text, front, id);
      WriteTells(text, Writes(text, map[], front), ws[|ws| - 1], id, LastReply(text, front, id));
    }
  }

  lemma WriteTells(text: TextOf, t: Table, w: Write, id: Id, last: Option<Reply>)
    requires if id in t then TellsLastReply(text, t[id], last) else last.None?
    ensures
      var t', stored := Apply(text, t, w), StoredReply(text, t, w, id);
      var last' := if stored.Some? then stored else last;
      if id in t' then TellsLastReply(text, t'[id], last') else last'.None?
  {
  }

  ghost predicate Full(row: Row) { ResultOk(row) && row.verbatim.Some? }

  /** Whoever writes and in whatever order, a completed row has all its result fields, its verbatim text too, if and
      only if the last reply stored for it did not say null; without the text it has all the others. */
  lemma CompletedRowsAreFullExactly(text: TextOf, ws: seq<Write>, id: Id)
    requires id in Writes(text, map[], ws) && Writes(text, map[], ws)[id].status.Completed?
    ensures
      var row, reply := Writes(text, map[], ws)[id], LastReply(text, ws, id);
      ResultOk(row) && reply.Some? && (Full(row) <==> !reply.value.response.verbatim.JNull?)
  {
    RowsTellLastReplies(text, ws, id);
    CompletedRowsAreScored(text, ws);
  }

  /** What a run was started for: by the first write that stores its row. */
  datatype Request = Request(org: Option<Id>, segment: Id, stimulus: string)

  function RequestOf(text: TextOf, ws: seq<Write>, id: Id): Option<Request> {
    if ws == [] then None else
    var front := ws[..|ws| - 1];
    if RequestOf(text, front, id).Some? then RequestOf(text, front, id) else
    match ws[|ws| - 1]
    case EnqueueCommit(i, org, segment, stimulus) => if i == id then Some(Request(Some(org), segment, stimulus)) else None
    case SyncCall(i, org, segment, stimulus, call) =>
      if i == id && call.Replied? && call.commitUp && Storable(text, call.response.verbatim)
      then Some(Request(Some(org), segment, stimulus))
      else None
    case CompetitionInsert(i, segment, stimulus, r, _, orgNullable) =>
      if i == id && orgNullable && Storable(text, r.verbatim) then Some(Request(None, segment, stimulus)) else None
    case _ => None
  }

  /** A row exists exactly once something has stored it, and keeps its org, segment and stimulus for good. */
  lemma {:induction false} RowsKeepRequests(text: TextOf, ws: seq<Write>, id: Id)
    ensures
      var t, q := Writes(text, map[], ws), RequestOf(text, ws, id);
      && (id in t <==> q.Some?)
      && (id in t ==> t[id].org == q.value.org && t[id].segment == q.value.segment && t[id].stimulus == q.value.stimulus)
  {
    if ws == [] {
    } else {
      RowsKeepRequests(text, ws[..|ws| - 1], id);
    }
  }

  /** The rows that a write leaves alone. */
  ghost predicate OthersStay(t: Table, t': Table, id: Id) { forall k :: k in t && k != id ==> k in t' && t'[k] == t[k] }

  /** What each write does to its own row, and that it does nothing to any other. */
  lemma WriteEffect(text: TextOf, t: Table, w: Write)
    ensures OthersStay(t, Apply(text, t, w), w.id) && Apply(text, t, w).Keys <= t.Keys + {w.id}
    ensures
      var t' := Apply(text, t, w);
      match w
      case EnqueueCommit(id, org, segment, stimulus) =>
        && id in t'
        && (id !in t ==> t'[id].status.Pending? && HoldsNothing(t'[id]) && t'[id].error == None)
        && (id in t ==> t' == t)
      case StatusUpdate(id, status, error) =>
        id in t && !status.Completed? ==>
          && t'[id].status == status
          && (if error != "" then t'[id].error == Some(error) else t'[id].error == t[id].error)
          && t'[id] == t[id].(status := status, error := t'[id].error)
      case ResultUpdate(id, r, at) =>
        if id in t && Storable(text, r.verbatim)
        then t'[id].status.Completed? && t'[id].error == None && Holds(text, t'[id], Reply(r, at))
        else t' == t
      case SyncCall(id, _, _, _, call) =>
        if id !in t && call.Replied? && call.commitUp && Storable(text, call.response.verbatim)
        then id in t' && t'[id].status.Completed? && t'[id].error == None && Holds(text, t'[id], Reply(call.response, call.at))
        else t' == t
      case CompetitionInsert(id, _, _, r, at, orgNullable) =>
        if id !in t && orgNullable && Storable(text, r.verbatim)
        then id in t' && t'[id].status.Completed? && Holds(text, t'[id], Reply(r, at))
        else t' == t
  {
  }

  /** Each synchronous call commits exactly one completed row, for its own org, segment and stimulus and with the reply
      it got, or leaves the table as it was: the row is there exactly when the call got a reply that can be stored, and
      its commit succeeded. */
  lemma SyncCommitsOneOrNothing(text: TextOf, t: Table, id: Id, org: Id, segment: Id, stimulus: string, call: Sync)
    ensures
      var t' := Apply(text, t, SyncCall(id, org, segment, stimulus, call));
      if id !in t && call.Replied? && call.commitUp && Storable(text, call.response.verbatim)
      then
        && t'.Keys == t.Keys + {id} && t' - {id} == t
        && t'[id].status.Completed? && ResultOk(t'[id]) && Holds(text, t'[id], Reply(call.response, call.at))
        && t'[id].org == Some(org) && t'[id].segment == segment && t'[id].stimulus == stimulus
      else t' == t
  {
    var row := NewRow(Some(org), segment, stimulus, Running);
    if call.Replied? && VerbatimText(text, call.response.verbatim).Stored? {
      WithResultOk(row, call.response, VerbatimText(text, call.response.verbatim).t, call.at);
      var t' := Apply(text, t, SyncCall(id, org, segment, stimulus, call));
      if id !in t { assert t' - {id} == t || t' == t; }
    }
  }

  // ------------------------------------------- one transaction and one job, interleaved

  datatype Api = Begun | Flushed | Enqueued | Committed | RolledBack
  datatype Worker = Waiting | Working | Failing | Ended

  /** The row as others see it, its status history, and when the commit and the worker's updates happened. */
  datatype Sys = Sys(api: Api, worker: Worker, queued: bool, row: Option<Row>, history: seq<Status>, clock: nat,
                     committedAt: Option<nat>, runningAt: Option<nat>, lastAt: Option<nat>, last: Status)

  datatype Move =
    | ApiFlush
    | ApiEnqueue(ok: bool)
    | ApiEnd(ok: bool)
    | WorkerStart(up: bool)
    | WorkerFinish(reply: Option<R.ValidResponse>, at: int, up: bool)
    | WorkerFail(error: string, up: bool)

  const BEGIN := Sys(Begun, Waiting, false, None, [], 0, None, None, None, Pending)

  /** UPDATE ... WHERE id = the run: no row matches before the row is committed. */
  function Update(s: Sys, row: Row): Sys {
    if s.row.None? then s else s.(row := Some(row), history := s.history + [row.status])
  }

  function RowOr(s: Sys): Row {
    match s.row case Some(r) => r case None => NewRow(None, 0, "", Pending)
  }

  /** One step; a step whose turn it is not changes nothing. */
  function Next(text: TextOf, added: Row, s: Sys, m: Move): Sys {
    var s1 := s.(clock := s.clock + 1);
    match m
    case ApiFlush => if s.api.Begun? then s1.(api := Flushed) else s
    case ApiEnqueue(ok) =>
      if !s.api.Flushed? then s else if ok then s1.(api := Enqueued, queued := true) else s1.(api := RolledBack)
    case ApiEnd(ok) =>
      if !s.api.Enqueued? then s else
      if !ok then s1.(api := RolledBack) else
      s1.(api := Committed, row := Some(added), history := s.history + [added.status], committedAt := Some(s.clock))
    case WorkerStart(up) =>
      if !s.queued || !s.worker.Waiting? then s else
      if !up then s1.(worker := Ended) else
      Update(s1, SetStatus(RowOr(s), Running, "")).(worker := Working, runningAt := Some(s.clock))
    case WorkerFinish(reply, at, up) =>
      if !s.worker.Working? then s else
      if reply.None? || !up then s1.(worker := Failing) else
      var v := VerbatimText(text, reply.value.verbatim);
      if v.Unstorable? then s1.(worker := Failing) else
      Update(s1, WithResult(RowOr(s), reply.value, v.t, at)).(worker := Ended, lastAt := Some(s.clock), last := Completed)
    case WorkerFail(error, up) =>
      if !s.worker.Failing? then s else
      if !up then s1.(worker := Ended) else
      Update(s1, SetStatus(RowOr(s), Failed, error)).(worker := Ended, lastAt := Some(s.clock), last := Failed)
  }

  function Moves(text: TextOf, added: Row, ms: seq<Move>): Sys {
    if ms == [] then BEGIN else Next(text, added, Moves(text, added, ms[..|ms| - 1]), ms[|ms| - 1])
  }

  predicate Before(a: Option<nat>, b: Option<nat>) {
    a.Some? && b.Some? && a.value < b.value
  }

  /** The history the three times determine. */
  function Expected(s: Sys): seq<Status> {
    if s.committedAt.None? then [] else
    [Pending] + (if Before(s.committedAt, s.runningAt) then [Running] else [])
              + (if Before(s.committedAt, s.lastAt) then [s.last] else [])
  }

  ghost predicate Inv(s: Sys) {
    && s.history == Expected(s)
    && (s.row.Some? <==> s.committedAt.Some?) && (s.api.Committed? <==> s.committedAt.Some?)
    && (s.row.Some? ==> s.row.value.status == s.history[|s.history| - 1])
    && (s.committedAt.Some? ==> s.committedAt.value < s.clock)
    && (s.runningAt.Some? ==> s.runningAt.value < s.clock)
    && (s.lastAt.Some? ==> s.runningAt.Some? && s.runningAt.value < s.lastAt.value < s.clock && s.worker.Ended? && Terminal(s.last))
    && (s.worker.Working? || s.worker.Failing? ==> s.runningAt.Some? && s.lastAt.None?)
    && (s.worker.Waiting? ==> s.runningAt.None? && s.lastAt.None?)
    && (s.queued ==> !s.api.Begun? && !s.api.Flushed?)
    && (s.worker.Waiting? || s.queued)
  }

  predicate Terminal(st: Status) { st.Completed? || st.Failed? }

  lemma {:induction false} InvHolds(text: TextOf, added: Row, ms: seq<Move>)
    requires added.status.Pending?
    ensures Inv(Moves(text, added, ms))
  {
    if ms == [] {
    } else {
      InvHolds(text, added, ms[..|ms| - 1]);
      NextKeepsInv(text, added, Moves(text, added, ms[..|ms| - 1]), ms[|ms| - 1]);
    }
  }

  lemma NextKeepsInv(text: TextOf, added: Row, s: Sys, m: Move)
    requires added.status.Pending? && Inv(s)
    ensures Inv(Next(text, added, s, m))
  {
    match m
    case WorkerStart(_) => StartKeepsInv(text, added, s, m);
    case WorkerFinish(_, _, _) => FinishKeepsInv(text, added, s, m);
    case WorkerFail(_, _) => FailKeepsInv(text, added, s, m);
    case _ =>
  }

  lemma StartKeepsInv(text: TextOf, added: Row, s: Sys, m: Move)
    requires Inv(s) && m.WorkerStart?
    ensures Inv(Next(text, added, s, m))
  {
  }

  lemma FinishKeepsInv(text: TextOf, added: Row, s: Sys, m: Move)
    requires Inv(s) && m.WorkerFinish?
    ensures Inv(Next(text, added, s, m))
  {
  }

  lemma FailKeepsInv(text: TextOf, added: Row, s: Sys, m: Move)
    requires Inv(s) && m.WorkerFail?
    ensures Inv(Next(text, added, s, m))
  {
  }

  /** xs is ys with elements left out. */
  predicate Subsequence(xs: seq<Status>, ys: seq<Status>) {
    xs == [] || (ys != [] && if xs[0] == ys[0] then Subsequence(xs[1..], ys[1..]) else Subsequence(xs, ys[1..]))
  }

  /** For every interleaving: the committed history is what the order of the commit and the worker's updates
      determines, and a subsequence of pending, running, then completed or failed. */
  lemma {:induction false} HistoryIsLegal(text: TextOf, added: Row, ms: seq<Move>)
    requires added.status.Pending?
    ensures
      var s := Moves(text, added, ms);
      && s.history == Expected(s)
      && (Subsequence(s.history, [Pending, Running, Completed]) || Subsequence(s.history, [Pending, Running, Failed]))
  {
    InvHolds(text, added, ms);
    Subsequences(Moves(text, added, ms).last);
    Subsequences(Completed);
  }

  lemma Subsequences(t: Status)
    ensures Subsequence([], [Pending, Running, t]) && Subsequence([Pending], [Pending, Running, t])
    ensures Subsequence([Pending, Running], [Pending, Running, t]) && Subsequence([Pending, Running, t], [Pending, Running, t])
    ensures t != Running ==> Subsequence([Pending, t], [Pending, Running, t])
  {
    SubsequenceCons(Pending, [], [Running, t]);
    SubsequenceCons(Pending, [Running], [Running, t]);
    SubsequenceCons(Running, [], [t]);
    SubsequenceCons(Pending, [Running, t], [Running, t]);
    SubsequenceCons(Running, [t], [t]);
    SubsequenceCons(t, [], []);
    SubsequenceCons(Pending, [t], [Running, t]);
    assert [Running, t][1..] == [t];
    assert [Pending] + [] == [Pending] && [Pending] + [Running, t] == [Pending, Running, t];
    assert [Pending] + [Running] == [Pending, Running] && [Running] + [t] == [Running, t];
    assert [Running] + [] == [Running] && [t] + [] == [t] && [Pending] + [t] == [Pending, t];
  }

  lemma {:induction false} SubsequenceCons(x: Status, xs: seq<Status>, ys: seq<Status>)
    requires Subsequence(xs, ys)
    ensures Subsequence([x] + xs, [x] + ys)
  {
    assert ([x] + xs)[1..] == xs && ([x] + ys)[1..] == ys;
  }

  /** For every interleaving: the row is there and terminal exactly when the worker's last update came after the
      commit of the enqueueing transaction. */
  lemma {:induction false} TerminalIffLastAfterCommit(text: TextOf, added: Row, ms: seq<Move>)
    requires added.status.Pending?
    ensures
      var s := Moves(text, added, ms);
      && ((s.row.Some? && Terminal(s.row.value.status)) <==> Before(s.committedAt, s.lastAt))
      && (s.row.Some? && Terminal(s.row.value.status) ==> s.row.value.status == s.last && s.worker.Ended?)
  {
    InvHolds(text, added, ms);
  }

  /** The last move that a committed row can show: a reply that was stored, or a failure. */
  ghost predicate ShowsMove(text: TextOf, added: Row, row: Row, m: Move) {
    match m
    case WorkerFinish(reply, at, up) =>
      row.status.Completed? ==> up && reply.Some? && Holds(text, row, Reply(reply.value, at)) && row.error == None
    case WorkerFail(error, up) =>
      row.status.Failed? ==> up && HoldsNothing(row) && row.error == if error != "" then Some(error) else added.error
    case _ => true
  }

  ghost predicate Tells(text: TextOf, added: Row, row: Row, ms: seq<Move>) {
    && row.org == added.org && row.segment == added.segment && row.stimulus == added.stimulus
    && (row.status.Pending? || row.status.Running? ==> HoldsNothing(row) && row.error == added.error)
    && (row.status.Completed? ==> exists k :: 0 <= k < |ms| && ms[k].WorkerFinish? && ShowsMove(text, added, row, ms[k]))
    && (row.status.Failed? ==> exists k :: 0 <= k < |ms| && ms[k].WorkerFail? && ShowsMove(text, added, row, ms[k]))
  }

  /** For every interleaving: the committed row keeps what was enqueued; completed, it holds a reply the worker got;
      failed, it holds the worker's error and no result; until then it holds neither. */
  lemma {:induction false} RowTellsItsJob(text: TextOf, added: Row, ms: seq<Move>)
    requires added.status.Pending? && HoldsNothing(added)
    ensures
      var s := Moves(text, added, ms);
      s.row.Some? ==> Tells(text, added, s.row.value, ms)
    decreases |ms|
  {
    if ms == [] {
    } else {
      var front, m := ms[..|ms| - 1], ms[|ms| - 1];
      RowTellsItsJob(text, added, front);
      InvHolds(text, added, front);
      TellsOn(text, added, Moves(text, added, front), front, m);
      assert front + [m] == ms;
    }
  }

  lemma TellsOn(text: TextOf, added: Row, s: Sys, front: seq<Move>, m: Move)
    requires Inv(s) && added.status.Pending? && HoldsNothing(added) && (s.row.Some? ==> Tells(text, added, s.row.value, front))
    ensures
      var t := Next(text, added, s, m);
      t.row.Some? ==> Tells(text, added, t.row.value, front + [m])
  {
    var t, ms := Next(text, added, s, m), front + [m];
    assert ms[|front|] == m;
    assert forall k :: 0 <= k < |front| ==> ms[k] == front[k];
    if t.row.Some? {
      if s.row.Some? && t.row == s.row {
        var row := t.row.value;
        if row.status.Completed? {
          var k :| 0 <= k < |front| && front[k].WorkerFinish? && ShowsMove(text, added, row, front[k]);
          assert ms[k].WorkerFinish?;
        }
        if row.status.Failed? {
          var k :| 0 <= k < |front| && front[k].WorkerFail? && ShowsMove(text, added, row, front[k]);
          assert ms[k].WorkerFail?;
        }
      } else {
        assert ShowsMove(text, added, t.row.value, ms[|front|]);
      }
    }
  }

  /** A row committed after the worker ended stays pending for good, though its job is over. */
  lemma {:induction false} LostRaceStaysPending(text: TextOf, added: Row, ms: seq<Move>, more: seq<Move>)
    requires added.status.Pending?
    requires
      var s := Moves(text, added, ms);
      s.worker.Ended? && s.api.Committed? && !Before(s.committedAt, s.lastAt) && !Before(s.committedAt, s.runningAt)
    ensures Moves(text, added, ms + more).row == Some(added)
  {
    InvHolds(text, added, ms);
    if more == [] {
      assert ms + more == ms;
      PendingRowIsFresh(text, added, ms);
    } else {
      assert (ms + more)[..|ms + more| - 1] == ms + more[..|more| - 1];
      LostRaceStaysPending(text, added, ms, more[..|more| - 1]);
      EndedStays(text, added, ms, more[..|more| - 1]);
    }
  }

  lemma {:induction false} EndedStays(text: TextOf, added: Row, ms: seq<Move>, more: seq<Move>)
    requires Moves(text, added, ms).worker.Ended? && Moves(text, added, ms).api.Committed?
    ensures Moves(text, added, ms + more).worker.Ended? && Moves(text, added, ms + more).api.Committed?
  {
    if more == [] {
      assert ms + more == ms;
    } else {
      assert (ms + more)[..|ms + more| - 1] == ms + more[..|more| - 1];
      EndedStays(text, added, ms, more[..|more| - 1]);
    }
  }

  lemma {:induction false} PendingRowIsFresh(text: TextOf, added: Row, ms: seq<Move>)
    requires added.status.Pending?
    ensures
      var s := Moves(text, added, ms);
      s.row.Some? && s.history == [Pending] ==> s.row == Some(added)
  {
    if ms == [] {
    } else {
      PendingRowIsFresh(text, added, ms[..|ms| - 1]);
      InvHolds(text, added, ms[..|ms| - 1]);
    }
  }

  /** The race is real: a job can run to completion before its row is committed. */
  lemma {:induction false} LostRaceExists(text: TextOf, added: Row, r: R.ValidResponse)
    requires added.status.Pending? && r.verbatim.JStr?
    ensures
      var ms := [ApiFlush, ApiEnqueue(true), WorkerStart(true), WorkerFinish(Some(r), 0, true)] + [ApiEnd(true)];
      var s := Moves(text, added, ms);
      s.worker.Ended? && s.last.Completed? && s.row == Some(added)
  {
    FourMoves(text, added, ApiFlush, ApiEnqueue(true), WorkerStart(true), WorkerFinish(Some(r), 0, true));
    MovesSnoc(text, added, [ApiFlush, ApiEnqueue(true), WorkerStart(true), WorkerFinish(Some(r), 0, true)], ApiEnd(true));
  }

  lemma {:induction false} FourMoves(text: TextOf, added: Row, a: Move, b: Move, c: Move, d: Move)
    ensures Moves(text, added, [a, b, c, d]) ==
      Next(text, added, Next(text, added, Next(text, added, Next(text, added, BEGIN, a), b), c), d)
  {
    assert [a, b, c, d][..3] == [a, b, c] && [a, b, c][..2] == [a, b] && [a, b][..1] == [a] && [a][..0] == [];
    assert Moves(text, added, [a]) == Next(text, added, BEGIN, a);
    assert Moves(text, added, [a, b]) == Next(text, added, Moves(text, added, [a]), b);
    assert Moves(text, added, [a, b, c]) == Next(text, added, Moves(text, added, [a, b]), c);
  }

  lemma {:induction false} MovesSnoc(text: TextOf, added: Row, ms: seq<Move>, m: Move)
    ensures Moves(text, added, ms + [m]) == Next(text, added, Moves(text, added, ms), m)
  {
    ButLast(ms, m);
  }

  // ------------------------------------------------------- the writers, in place

  /** How the job goes: whether each of its writes succeeds, and the reply. */
  datatype Job = Job(startUp: bool, reply: Option<R.ValidResponse>, at: int, finishUp: bool, error: string, failUp: bool)

  /** The job's updates of the table when nothing comes between them. */
  function JobResult(text: TextOf, t: Table, id: Id, j: Job): Table {
    if !j.startUp then t else
    var t1 := Apply(text, t, StatusUpdate(id, Running, ""));
    if j.reply.Some? && j.finishUp && VerbatimText(text, j.reply.value.verbatim).Stored?
    then Apply(text, t1, ResultUpdate(id, j.reply.value, j.at))
    else if j.failUp then Apply(text, t1, StatusUpdate(id, Failed, j.error)) else t1
  }

  /** Run alone on a committed row the job does what the worker's three steps of the protocol do. */
  lemma JobIsItsMoves(text: TextOf, added: Row, s: Sys, t: Table, id: Id, j: Job)
    requires s.queued && s.worker.Waiting? && s.row.Some? && id in t && t[id] == s.row.value
    ensures
      var s1 := Next(text, added, s, WorkerStart(j.startUp));
      var s2 := Next(text, added, s1, WorkerFinish(j.reply, j.at, j.finishUp));
      var s3 := Next(text, added, s2, WorkerFail(j.error, j.failUp));
      s3.worker.Ended? && s3.row == Some(JobResult(text, t, id, j)[id])
  {
  }

  class Database {
    const text: TextOf
    var rows: Table
    /** Rows the open API transaction has flushed but not committed. */
    var session: Table

    method SetRunStatus(id: Id, status: Status, error: string, up: bool) returns (ok: bool)
      requires !status.Completed?
      modifies this`rows
      ensures ok == up && rows == if up then Apply(text, old(rows), StatusUpdate(id, status, error)) else old(rows)
      ensures ok && id in rows ==> rows[id].status == status && (error != "" ==> rows[id].error == Some(error))
    {
      if !up { return false; }
      if id in rows {
        if error != "" {
          rows := rows[id := rows[id].(status := status, error := Some(error))];
        } else {
          rows := rows[id := rows[id].(status := status)];
        }
      }
      ok := true;
    }

    /** None is a raised error. */
    method RunSimulationJob(id: Id, j: Job) returns (score: Option<real>)
      modifies this`rows
      ensures rows == JobResult(text, old(rows), id, j)
      ensures OthersStay(old(rows), rows, id) && rows.Keys == old(rows).Keys
      ensures score.Some? <==> j.startUp && j.reply.Some? && j.finishUp && Storable(text, j.reply.value.verbatim)
      ensures score.Some? ==> score.value == R.Score(j.reply.value.likelihood.r, j.reply.value.sentiment)
      ensures id in rows && score.Some? ==>
        && rows[id].status.Completed? && rows[id].error == None && Holds(text, rows[id], Reply(j.reply.value, j.at))
        && rows[id].org == old(rows)[id].org && rows[id].segment == old(rows)[id].segment
        && rows[id].stimulus == old(rows)[id].stimulus
      ensures id in rows && score.None? ==>
        rows[id] == old(rows)[id].(
          status := if !j.startUp then old(rows)[id].status else if j.failUp then Failed else Running,
          error := if j.startUp && j.failUp && j.error != "" then Some(j.error) else old(rows)[id].error)
    {
      var started := SetRunStatus(id, Running, "", j.startUp);
      if !started { return None; }
      if j.reply.Some? && j.finishUp {
        var v := VerbatimText(text, j.reply.value.verbatim);
        if v.Stored? {
          if id in rows { rows := rows[id := WithResult(rows[id], j.reply.value, v.t, j.at)]; }
          return Some(R.ScoreOf(j.reply.value));
        }
      }
      var _ := SetRunStatus(id, Failed, j.error, j.failUp);
      score := None;
    }

    method Commit()
      modifies this
      ensures rows == old(rows) + old(session) && session == map[]
    {
      rows := rows + session;
      session := map[];
    }

    method Rollback()
      modifies this`session
      ensures session == map[]
    {
      session := map[];
    }

    /** The endpoint inside its transaction bracket: the row is added, filled field by field, and committed, or all
        of it is rolled back. */
    method RunSimulationSync(id: Id, org: Id, segment: Id, stimulus: string, call: Sync) returns (status: nat)
      requires session == map[]
      modifies this
      ensures status in {201, 404, 500, 502}
      ensures rows == Apply(text, old(rows), SyncCall(id, org, segment, stimulus, call)) && session == map[]
      ensures status == 201 <==> rows != old(rows)
      ensures status == 502 <==> id !in old(rows) && call.InferenceFails?
      ensures status == 404 <==> call.Refused?
      ensures status == 201 ==>
        && OthersStay(old(rows), rows, id) && rows.Keys == old(rows).Keys + {id}
        && rows[id].status.Completed? && Holds(text, rows[id], Reply(call.response, call.at))
        && rows[id].org == Some(org) && rows[id].segment == segment && rows[id].stimulus == stimulus
    {
      if call.Refused? { return 404; }
      if id in rows { return 500; }
      var row := NewRow(Some(org), segment, stimulus, Running);
      session := session[id := row];
      if call.InferenceFails? {
        row := row.(status := Failed, error := Some(call.error));
        session := session[id := row];
        Rollback();
        return 502;
      }
      var v := VerbatimText(text, call.response.verbatim);
      row := row.(sentiment := Some(call.response.sentiment));
      row := row.(likelihood := Some(Round4(call.response.likelihood.r)));
      row := row.(score := Some(Round4(R.ScoreOf(call.response))));
      row := row.(keyFactors := Some(call.response.keyFactors));
      row := row.(status := Completed, completedAt := Some(call.at));
      if v.Unstorable? || !call.commitUp {
        Rollback();
        return 500;
      }
      row := row.(verbatim := v.t);
      session := session[id := row];
      assert row == WithResult(NewRow(Some(org), segment, stimulus, Running), call.response, v.t, call.at);
      Commit();
      assert rows == old(rows)[id := row];
      assert id in rows && id !in old(rows);
      status := 201;
    }
  }
}
