/** Segment freshness: edits through the API, extractions and drift marks all write a segment's row without locks.

    An edit loads the row, then flushes only the columns it changed. An extraction fetches, embeds and updates in
    separate tasks. A drift check takes its cutoff and count, queries, and marks. All share one clock, in seconds. */
module Freshness {
  import opened Prelude

  type Id = nat
  type Definition = string
  const DAY: int := 86_400

  datatype Segment = Segment(definition: Definition, stale: bool, trained: Option<int>)

  /** An edit in progress: the request body's definition, and the row as it was loaded. */
  datatype Edit = Edit(id: Id, body: Option<Definition>, loaded: Segment)

  /** An extraction in progress: what it fetched, and whether the embedding is stored. */
  datatype Extraction = Extraction(id: Id, definition: Definition, embedded: bool)

  /** A drift check in progress. */
  datatype Check = Check(cutoff: int, scanned: nat, listed: Option<seq<Id>>)

  /** `vectors` holds the definition each stored embedding was built from; `used` every id ever given out. */
  datatype State = State(now: int, segments: map<Id, Segment>, used: set<Id>, vectors: map<Id, Definition>,
                         edits: map<Id, Edit>, extractions: map<Id, Extraction>, checks: map<Id, Check>)

  datatype Op =
    | Create(id: Id, definition: Definition)
    | Delete(id: Id)
    | Load(e: Id, id: Id, body: Option<Definition>)
    | Flush(e: Id)
    | Fetch(x: Id, id: Id)
    | Embed(x: Id)
    | Update(x: Id)
    | End(x: Id)
    | StartCheck(d: Id, days: int)
    | Query(d: Id, rows: seq<Id>)
    | Mark(d: Id)
    | Tick(seconds: nat)

  type Table = map<Id, Segment>

  /** The columns whose value differs from the loaded one are written, and no others. */
  function Flushed(row: Segment, edit: Edit): Segment {
    if edit.body.None? then row else
    row.(definition := if edit.body.value != edit.loaded.definition then edit.body.value else row.definition,
         stale := if !edit.loaded.stale then true else row.stale)
  }

  predicate Drifted(row: Segment, cutoff: int) { row.trained.None? || row.trained.value < cutoff }

  /** NULLS FIRST, then oldest first. */
  predicate OldestFirst(a: Segment, b: Segment) {
    a.trained.None? || (b.trained.Some? && a.trained.value <= b.trained.value)
  }

  /** A result of the scan's query: the drifted rows, each once, oldest first. */
  predicate Lists(t: Table, cutoff: int, rows: seq<Id>) {
    && (forall i, j :: 0 <= i < j < |rows| ==> rows[i] != rows[j])
    && (forall id :: id in rows ==> id in t && Drifted(t[id], cutoff))
    && (forall id :: id in t && Drifted(t[id], cutoff) ==> id in rows)
    && (forall i, j :: 0 <= i < j < |rows| ==> OldestFirst(t[rows[i]], t[rows[j]]))
  }

  function MarkRows(t: Table, ids: seq<Id>): Table {
    map id | id in t :: if id in ids then t[id].(stale := true) else t[id]
  }

  function Step(s: State, op: Op): State {
    match op
    case Create(id, definition) =>
      if id in s.used then s else
      s.(segments := s.segments[id := Segment(definition, true, None)], used := s.used + {id})
    case Delete(id) => s.(segments := s.segments - {id})
    case Load(e, id, body) =>
      if id in s.segments && e !in s.edits then s.(edits := s.edits[e := Edit(id, body, s.segments[id])]) else s
    case Flush(e) =>
      if e !in s.edits then s else
      var edit := s.edits[e];
      s.(edits := s.edits - {e},
         segments := if edit.id in s.segments then s.segments[edit.id := Flushed(s.segments[edit.id], edit)] else s.segments)
    case Fetch(x, id) =>
      if id in s.segments && x !in s.extractions
      then s.(extractions := s.extractions[x := Extraction(id, s.segments[id].definition, false)])
      else s
    case Embed(x) =>
      if x !in s.extractions then s else
      var job := s.extractions[x];
      s.(extractions := s.extractions[x := job.(embedded := true)], vectors := s.vectors[job.id := job.definition])
    case Update(x) =>
      if x in s.extractions && s.extractions[x].embedded && s.extractions[x].id in s.segments
      then s.(segments := s.segments[s.extractions[x].id := Trained(s.segments[s.extractions[x].id], s.now)])
      else s
    case End(x) => s.(extractions := s.extractions - {x})
    case StartCheck(d, days) =>
      if d in s.checks then s else s.(checks := s.checks[d := Check(s.now - days * DAY, |s.segments|, None)])
    case Query(d, rows) =>
      if d in s.checks && Lists(s.segments, s.checks[d].cutoff, rows)
      then s.(checks := s.checks[d := s.checks[d].(listed := Some(rows))])
      else s
    case Mark(d) =>
      if d in s.checks && s.checks[d].listed.Some?
      then s.(segments := MarkRows(s.segments, s.checks[d].listed.value), checks := s.checks - {d})
      else s
    case Tick(seconds) => s.(now := s.now + seconds)
  }

  function Trained(row: Segment, now: int): Segment { row.(trained := Some(now), stale := false) }

  function Run(s: State, ops: seq<Op>): State
    decreases |ops|
  {
    if ops == [] then s else Step(Run(s, ops[..|ops| - 1]), ops[|ops| - 1])
  }

  function Start(now: int): State { State(now, map[], {}, map[], map[], map[], map[]) }

  // -------------------------------------------------------- each step, field by field

  /** No other row of the table changes. */
  predicate OthersStay(t: Table, t': Table, id: Id) {
    && (forall k :: k in t && k != id ==> k in t' && t'[k] == t[k])
    && (forall k :: k in t' && k != id ==> k in t)
  }

  /** What the API does: a new segment is stale and untrained; a deleted one is gone, its embedding is not; an edit loads
      the row and writes the columns that differ from what it loaded. */
  lemma ApiEffect(s: State, op: Op)
    requires op.Create? || op.Delete? || op.Load? || op.Flush?
    ensures
      var t := Step(s, op);
      && t.now == s.now && t.vectors == s.vectors && t.extractions == s.extractions && t.checks == s.checks
      && match op
         case Create(id, definition) =>
           if id in s.used then t == s
           else
             && OthersStay(s.segments, t.segments, id) && id in t.segments
             && t.segments[id].definition == definition && t.segments[id].stale && t.segments[id].trained == None
             && t.used == s.used + {id}
         case Delete(id) => OthersStay(s.segments, t.segments, id) && id !in t.segments && t.used == s.used
         case Load(e, id, body) =>
           && t.segments == s.segments
           && (id in s.segments && e !in s.edits ==>
                 e in t.edits && t.edits[e].id == id && t.edits[e].body == body && t.edits[e].loaded == s.segments[id])
         case Flush(e) =>
           && (e !in s.edits ==> t == s)
           && (e in s.edits ==>
                 var edit := s.edits[e];
                 && e !in t.edits && OthersStay(s.segments, t.segments, edit.id)
                 && (edit.id in t.segments <==> edit.id in s.segments)
                 && (edit.id in s.segments ==>
                       var was, row := s.segments[edit.id], t.segments[edit.id];
                       && row.trained == was.trained
                       && (edit.body.None? ==> row == was)
                       && (edit.body.Some? ==>
                             && row.definition == (if edit.body.value == edit.loaded.definition then was.definition
                                                   else edit.body.value)
                             && (row.stale <==> was.stale || !edit.loaded.stale))))
  {
  }

  /** What an extraction does: it fetches the definition, stores an embedding of what it fetched, and marks the row as
      trained now and fresh, if the row is still there. */
  lemma ExtractionEffect(s: State, op: Op)
    requires op.Fetch? || op.Embed? || op.Update? || op.End?
    ensures
      var t := Step(s, op);
      && t.now == s.now && t.used == s.used && t.edits == s.edits && t.checks == s.checks
      && match op
         case Fetch(x, id) =>
           && t.segments == s.segments && t.vectors == s.vectors
           && (id in s.segments && x !in s.extractions ==>
                 x in t.extractions && t.extractions[x].id == id && !t.extractions[x].embedded
                 && t.extractions[x].definition == s.segments[id].definition)
         case Embed(x) =>
           && t.segments == s.segments
           && (x in s.extractions ==>
                 && t.vectors == s.vectors[s.extractions[x].id := s.extractions[x].definition]
                 && x in t.extractions && t.extractions[x].embedded)
         case Update(x) =>
           && t.vectors == s.vectors && t.extractions == s.extractions
           && if x in s.extractions && s.extractions[x].embedded && s.extractions[x].id in s.segments
              then
                var id := s.extractions[x].id;
                && OthersStay(s.segments, t.segments, id) && id in t.segments
                && t.segments[id].trained == Some(s.now) && !t.segments[id].stale
                && t.segments[id].definition == s.segments[id].definition
              else t.segments == s.segments
         case End(x) => t.segments == s.segments && t.vectors == s.vectors && x !in t.extractions
  {
  }

  /** What a drift check does: it takes its cutoff and a count, lists what has drifted, and raises the flag of what it
      listed; a mark changes no other column, and nothing else does. */
  lemma CheckEffect(s: State, op: Op)
    requires op.StartCheck? || op.Query? || op.Mark? || op.Tick?
    ensures
      var t := Step(s, op);
      && t.used == s.used && t.vectors == s.vectors && t.edits == s.edits && t.extractions == s.extractions
      && (op.Tick? ==> t.now == s.now + op.seconds && t.segments == s.segments) && (!op.Tick? ==> t.now == s.now)
      && (op.StartCheck? && op.d !in s.checks ==>
            t.segments == s.segments && op.d in t.checks
            && t.checks[op.d] == Check(s.now - op.days * 86_400, |s.segments|, None))
      && (op.Query? ==> t.segments == s.segments)
      && (op.Mark? ==>
            && t.segments.Keys == s.segments.Keys
            && forall id :: id in s.segments ==>
                 && t.segments[id].definition == s.segments[id].definition && t.segments[id].trained == s.segments[id].trained
                 && (t.segments[id].stale <==>
                       s.segments[id].stale
                       || (op.d in s.checks && s.checks[op.d].listed.Some? && id in s.checks[op.d].listed.value)))
  {
  }

  // ---------------------------------------------------------------- a fresh segment is a current one

  /** No definition edit is flushed during an extraction of its segment, and no extraction updates a segment while a
      definition edit that had loaded a stale row is open. */
  ghost predicate Apart(s: State, op: Op) {
    && (op.Flush? && op.e in s.edits && s.edits[op.e].body.Some? ==>
        forall x :: x in s.extractions ==> s.extractions[x].id != s.edits[op.e].id)
    && (op.Update? && op.x in s.extractions ==>
        forall e :: e in s.edits && s.edits[e].body.Some? && s.edits[e].loaded.stale ==>
          s.edits[e].id != s.extractions[op.x].id)
  }

  ghost predicate RunsApart(s: State, ops: seq<Op>)
    decreases |ops|
  {
    ops == [] || (RunsApart(s, ops[..|ops| - 1]) && Apart(Run(s, ops[..|ops| - 1]), ops[|ops| - 1]))
  }

  /** Trained, and the stored embedding was built from the current definition. */
  predicate Current(s: State, id: Id)
    requires id in s.segments
  {
    s.segments[id].trained.Some? && id in s.vectors && s.vectors[id] == s.segments[id].definition
  }

  ghost predicate JobHolds(s: State, job: Extraction) {
    && job.id in s.used
    && (job.id in s.segments ==> job.definition == s.segments[job.id].definition)
    && (job.embedded && job.id in s.segments ==> job.id in s.vectors && s.vectors[job.id] == job.definition)
  }

  ghost predicate EditHolds(s: State, edit: Edit) {
    && edit.id in s.used
    && (edit.body.Some? && edit.id in s.segments && edit.loaded.stale ==> s.segments[edit.id].stale)
  }

  ghost predicate RowHolds(s: State, id: Id)
    requires id in s.segments
  {
    id in s.used && (!s.segments[id].stale ==> Current(s, id))
  }

  ghost predicate Honest(s: State) {
    && (forall id :: id in s.segments ==> RowHolds(s, id))
    && (forall x :: x in s.extractions ==> JobHolds(s, s.extractions[x]))
    && (forall e :: e in s.edits ==> EditHolds(s, s.edits[e]))
  }

  lemma RowsStayHonest(s: State, op: Op, id: Id)
    requires Honest(s) && Apart(s, op) && id in Step(s, op).segments
    ensures RowHolds(Step(s, op), id)
  {
    if id in s.segments { assert RowHolds(s, id); }
    if (op.Update? || op.Embed?) && op.x in s.extractions {
      assert JobHolds(s, s.extractions[op.x]);
    } else if op.Flush? && op.e in s.edits {
      assert EditHolds(s, s.edits[op.e]);
    }
  }

  lemma JobsStayHonest(s: State, op: Op, x: Id)
    requires Honest(s) && Apart(s, op) && x in Step(s, op).extractions
    ensures JobHolds(Step(s, op), Step(s, op).extractions[x])
  {
    if x in s.extractions { assert JobHolds(s, s.extractions[x]); }
    if op.Embed? && op.x in s.extractions {
      assert JobHolds(s, s.extractions[op.x]);
    } else if op.Flush? && op.e in s.edits {
      assert s.edits[op.e].body.Some? ==> s.extractions[x].id != s.edits[op.e].id;
    } else if op.Fetch? && op.id in s.segments {
      assert RowHolds(s, op.id);
    }
  }

  lemma EditsStayHonest(s: State, op: Op, e: Id)
    requires Honest(s) && Apart(s, op) && e in Step(s, op).edits
    ensures EditHolds(Step(s, op), Step(s, op).edits[e])
  {
    if e in s.edits { assert EditHolds(s, s.edits[e]); }
    if op.Load? && op.id in s.segments { assert RowHolds(s, op.id); }
    if op.Update? && op.x in s.extractions { assert JobHolds(s, s.extractions[op.x]); }
  }

  lemma StepKeepsHonest(s: State, op: Op)
    requires Honest(s) && Apart(s, op)
    ensures Honest(Step(s, op))
  {
    var s' := Step(s, op);
    forall id | id in s'.segments ensures RowHolds(s', id) { RowsStayHonest(s, op, id); }
    forall x | x in s'.extractions ensures JobHolds(s', s'.extractions[x]) { JobsStayHonest(s, op, x); }
    forall e | e in s'.edits ensures EditHolds(s', s'.edits[e]) { EditsStayHonest(s, op, e); }
  }

  lemma {:induction false} RunKeepsHonest(s: State, ops: seq<Op>)
    requires Honest(s) && RunsApart(s, ops)
    ensures Honest(Run(s, ops))
    decreases |ops|
  {
    if ops == [] {
    } else {
      RunKeepsHonest(s, ops[..|ops| - 1]);
      StepKeepsHonest(Run(s, ops[..|ops| - 1]), ops[|ops| - 1]);
    }
  }

  /** In every run that keeps edits and extractions so apart, is_stale = FALSE tells the truth. */
  lemma FreshMeansCurrent(now: int, ops: seq<Op>, id: Id)
    requires RunsApart(Start(now), ops) && id in Run(Start(now), ops).segments
    ensures var s := Run(Start(now), ops);
      !s.segments[id].stale ==> Current(s, id)
  {
    RunKeepsHonest(Start(now), ops);
    assert RowHolds(Run(Start(now), ops), id);
  }

  // ---------------------------------------------------------------- one edit racing one extraction

  /** Where the five steps of an edit and an extraction of the same segment stand in a run. */
  datatype Race = Race(id: Id, e: Id, x: Id, body: Definition, load: nat, flush: nat, fetch: nat, embed: nat, update: nat)

  /** The operation is about another segment, edit and extraction, or only passes time or reads. */
  predicate Elsewhere(s: State, r: Race, op: Op) {
    match op
    case Create(id, _) => id != r.id
    case Delete(id) => id != r.id
    case Load(e, id, _) => e != r.e && id != r.id
    case Flush(e) => e != r.e && (e in s.edits ==> s.edits[e].id != r.id)
    case Fetch(x, id) => x != r.x && id != r.id
    case Embed(x) => x != r.x && (x in s.extractions ==> s.extractions[x].id != r.id)
    case Update(x) => x != r.x && (x in s.extractions ==> s.extractions[x].id != r.id)
    case End(x) => x != r.x
    case Mark(d) => d in s.checks && s.checks[d].listed.Some? ==> r.id !in s.checks[d].listed.value
    case _ => true
  }

  ghost predicate Placed(s: State, r: Race, ops: seq<Op>, k: nat)
    requires k < |ops|
  {
    if k == r.load then ops[k] == Load(r.e, r.id, Some(r.body))
    else if k == r.flush then ops[k] == Flush(r.e)
    else if k == r.fetch then ops[k] == Fetch(r.x, r.id)
    else if k == r.embed then ops[k] == Embed(r.x)
    else if k == r.update then ops[k] == Update(r.x)
    else Elsewhere(Run(s, ops[..k]), r, ops[k])
  }

  /** `ops` from `s` holds the edit's two steps and the extraction's three, in any interleaving, among operations
      that do not concern them. */
  ghost predicate Races(s: State, r: Race, ops: seq<Op>) {
    && r.load < r.flush < |ops| && r.fetch < r.embed < r.update < |ops|
    && |multiset{r.load, r.flush, r.fetch, r.embed, r.update}| == 5
    && r.load !in [r.fetch, r.embed, r.update] && r.flush !in [r.fetch, r.embed, r.update]
    && r.id in s.segments && r.e !in s.edits && r.x !in s.extractions
    && (forall k :: 0 <= k < |ops| ==> Placed(s, r, ops, k))
  }

  function DefinitionAfter(row: Segment, r: Race, k: nat): Definition {
    if r.flush < k then r.body else row.definition
  }

  /** The flag after `k` operations: the flush raises it unless the edit had loaded a row that was already stale. */
  function StaleAfter(row: Segment, r: Race, k: nat): bool {
    if r.update < k && (r.flush < r.update || k <= r.flush) then false
    else if r.flush < k then !(r.load < r.update < r.flush && row.stale)
    else row.stale
  }

  function FetchedDuring(row: Segment, r: Race): Definition {
    if r.flush < r.fetch then r.body else row.definition
  }

  ghost predicate Tracks(s: State, s': State, r: Race, k: nat)
    requires r.id in s.segments
  {
    var row := s.segments[r.id];
    && r.id in s'.segments
    && s'.segments[r.id].definition == DefinitionAfter(row, r, k)
    && s'.segments[r.id].stale == StaleAfter(row, r, k)
    && (r.e in s'.edits <==> r.load < k <= r.flush)
    && (r.e in s'.edits ==>
        && s'.edits[r.e].id == r.id && s'.edits[r.e].body == Some(r.body)
        && s'.edits[r.e].loaded.definition == row.definition
        && s'.edits[r.e].loaded.stale == if r.update < r.load then false else row.stale)
    && (r.x in s'.extractions <==> r.fetch < k)
    && (r.x in s'.extractions ==> s'.extractions[r.x] == Extraction(r.id, FetchedDuring(row, r), r.embed < k))
    && (r.embed < k ==> r.id in s'.vectors && s'.vectors[r.id] == FetchedDuring(row, r))
  }

  lemma RaceStep(s: State, s': State, r: Race, ops: seq<Op>, k: nat)
    requires Races(s, r, ops) && k < |ops| && s' == Run(s, ops[..k]) && Tracks(s, s', r, k)
    requires k in [r.load, r.flush, r.fetch, r.embed, r.update]
    ensures Tracks(s, Step(s', ops[k]), r, k + 1)
  {
    assert Placed(s, r, ops, k);
  }

  lemma ElsewhereStep(s: State, s': State, r: Race, ops: seq<Op>, k: nat)
    requires Races(s, r, ops) && k < |ops| && s' == Run(s, ops[..k]) && Tracks(s, s', r, k)
    requires k !in [r.load, r.flush, r.fetch, r.embed, r.update]
    ensures Tracks(s, Step(s', ops[k]), r, k + 1)
  {
    assert Placed(s, r, ops, k);
    assert k != r.load && k != r.flush && k != r.fetch && k != r.embed && k != r.update;
    NothingElsewhere(s', r, ops[k]);
  }

  /** What a race reads and writes is the same in both states. */
  ghost predicate SameForRace(s: State, s': State, r: Race) {
    && (r.id in s'.segments <==> r.id in s.segments)
    && (r.id in s.segments ==> s'.segments[r.id] == s.segments[r.id])
    && (r.e in s'.edits <==> r.e in s.edits)
    && (r.e in s.edits ==> s'.edits[r.e] == s.edits[r.e])
    && (r.x in s'.extractions <==> r.x in s.extractions)
    && (r.x in s.extractions ==> s'.extractions[r.x] == s.extractions[r.x])
    && (r.id in s'.vectors <==> r.id in s.vectors)
    && (r.id in s.vectors ==> s'.vectors[r.id] == s.vectors[r.id])
  }

  lemma NoExtractionElsewhere(s: State, r: Race, op: Op)
    requires Elsewhere(s, r, op) && (op.Fetch? || op.Embed? || op.Update? || op.End?)
    ensures SameForRace(s, Step(s, op), r)
  {
  }

  lemma NoEditElsewhere(s: State, r: Race, op: Op)
    requires Elsewhere(s, r, op) && (op.Create? || op.Delete? || op.Load? || op.Flush?)
    ensures SameForRace(s, Step(s, op), r)
  {
  }

  lemma NoCheckElsewhere(s: State, r: Race, op: Op)
    requires Elsewhere(s, r, op) && (op.StartCheck? || op.Query? || op.Mark? || op.Tick?)
    ensures SameForRace(s, Step(s, op), r)
  {
  }

  lemma NothingElsewhere(s: State, r: Race, op: Op)
    requires Elsewhere(s, r, op)
    ensures SameForRace(s, Step(s, op), r)
  {
    if op.Fetch? || op.Embed? || op.Update? || op.End? {
      NoExtractionElsewhere(s, r, op);
    } else if op.Create? || op.Delete? || op.Load? || op.Flush? {
      NoEditElsewhere(s, r, op);
    } else {
      NoCheckElsewhere(s, r, op);
    }
  }

  lemma RaceNext(s: State, s': State, r: Race, ops: seq<Op>, k: nat)
    requires Races(s, r, ops) && k < |ops| && s' == Run(s, ops[..k]) && Tracks(s, s', r, k)
    ensures Tracks(s, Run(s, ops[..k + 1]), r, k + 1)
  {
    RunUpTo(s, ops, k);
    if k in [r.load, r.flush, r.fetch, r.embed, r.update] {
      RaceStep(s, s', r, ops, k);
    } else {
      ElsewhereStep(s, s', r, ops, k);
    }
  }

  lemma {:induction false} RaceTracked(s: State, r: Race, ops: seq<Op>, k: nat)
    requires Races(s, r, ops) && k <= |ops|
    ensures Tracks(s, Run(s, ops[..k]), r, k)
  {
    if k == 0 {
      assert ops[..0] == [];
    } else {
      RaceTracked(s, r, ops, k - 1);
      RaceNext(s, Run(s, ops[..k - 1]), r, ops, k - 1);
    }
  }

  lemma RunUpTo(s: State, ops: seq<Op>, k: nat)
    requires k < |ops|
    ensures Run(s, ops[..k + 1]) == Step(Run(s, ops[..k]), ops[k])
  {
    assert ops[..k + 1] == ops[..k] + [ops[k]];
    RunSnoc(s, ops[..k], ops[k]);
  }

  lemma RunSnoc(s: State, ops: seq<Op>, op: Op)
    ensures Run(s, ops + [op]) == Step(Run(s, ops), op)
  {
    ButLast(ops, op);
  }

  /** The race leaves a segment marked fresh over an embedding of another definition exactly when the edit changes
      the definition and either is flushed between the fetch and the update, or had loaded a stale row before the
      update and is flushed after it: the flush then does not write the flag. */
  lemma RaceExactly(s: State, r: Race, ops: seq<Op>)
    requires Races(s, r, ops)
    ensures var s' := Run(s, ops);
      && r.id in s'.segments && r.id in s'.vectors
      && (!s'.segments[r.id].stale && s'.vectors[r.id] != s'.segments[r.id].definition <==>
          && r.body != s.segments[r.id].definition
          && (r.fetch < r.flush < r.update || (r.load < r.update < r.flush && s.segments[r.id].stale)))
  {
    RaceTracked(s, r, ops, |ops|);
    assert ops[..|ops|] == ops;
  }

  // ------------------------------------------------- exactly when the flag tells the truth

  /** The segment is gone, stale, or current. */
  predicate Truthful(s: State, id: Id) { id in s.segments ==> s.segments[id].stale || Current(s, id) }

  /** The step keeps it so: an embedding of a fresh segment is of its definition; an update finds one that is; and an
      edit that had loaded a stale row finds it stale still, or leaves the definition as it is. */
  predicate Suits(s: State, op: Op, id: Id) {
    id in s.segments ==>
    var row := s.segments[id];
    match op
    case Embed(x) =>
      x in s.extractions && s.extractions[x].id == id ==> row.stale || s.extractions[x].definition == row.definition
    case Update(x) =>
      x in s.extractions && s.extractions[x].id == id && s.extractions[x].embedded ==>
        id in s.vectors && s.vectors[id] == row.definition
    case Flush(e) =>
      e in s.edits && s.edits[e].id == id && s.edits[e].body.Some? ==>
        || !s.edits[e].loaded.stale || row.stale
        || s.edits[e].body.value == s.edits[e].loaded.definition || s.edits[e].body.value == row.definition
    case _ => true
  }

  ghost predicate AllSuit(s: State, ops: seq<Op>, id: Id)
    decreases |ops|
  {
    ops == [] || (AllSuit(s, ops[..|ops| - 1], id) && Suits(Run(s, ops[..|ops| - 1]), ops[|ops| - 1], id))
  }

  /** At every moment of the run. */
  ghost predicate AlwaysTruthful(s: State, ops: seq<Op>, id: Id)
    decreases |ops|
  {
    Truthful(Run(s, ops), id) && (ops == [] || AlwaysTruthful(s, ops[..|ops| - 1], id))
  }

  lemma TruthStep(s: State, op: Op, id: Id)
    requires Truthful(s, id)
    ensures Truthful(Step(s, op), id) <==> Suits(s, op, id)
  {
  }

  lemma {:induction false} TruthThroughout(s: State, ops: seq<Op>, id: Id)
    requires Truthful(s, id)
    ensures AlwaysTruthful(s, ops, id) <==> AllSuit(s, ops, id)
    decreases |ops|
  {
    if ops == [] {
    } else {
      var front := ops[..|ops| - 1];
      TruthThroughout(s, front, id);
      if AlwaysTruthful(s, front, id) { TruthStep(Run(s, front), ops[|ops| - 1], id); }
    }
  }

  /** Exactly, over every run of any number of edits, extractions, checks and deletions: is_stale = FALSE tells the truth
      about a segment at every moment if and only if every step suits it, which can be read before the step. */
  lemma FreshExactly(now: int, ops: seq<Op>, id: Id)
    ensures AlwaysTruthful(Start(now), ops, id) <==> AllSuit(Start(now), ops, id)
  {
    TruthThroughout(Start(now), ops, id);
  }

  // ---------------------------------------------------------------- the drift check

  ghost predicate CheckHolds(s: State, check: Check) {
    && check.cutoff <= s.now
    && (check.listed.Some? ==> forall id :: id in s.segments ==> Accounted(s.segments[id], id, check))
  }

  /** Stale already, about to be marked, or trained since the cutoff. */
  predicate Accounted(row: Segment, id: Id, check: Check)
    requires check.listed.Some?
  {
    row.stale || id in check.listed.value || !Drifted(row, check.cutoff)
  }

  ghost predicate ChecksHold(s: State) { forall d :: d in s.checks ==> CheckHolds(s, s.checks[d]) }

  predicate NotFuture(op: Op) { op.StartCheck? ==> op.days >= 0 }

  /** A row of the new state is accounted for if it was, or is stale or trained just now. */
  lemma RowStaysAccounted(s: State, op: Op, id: Id, check: Check)
    requires CheckHolds(s, check) && check.listed.Some? && id in Step(s, op).segments && !op.Mark?
    ensures Accounted(Step(s, op).segments[id], id, check)
  {
    if id in s.segments { assert Accounted(s.segments[id], id, check); }
  }

  lemma MarkKeepsAccounted(s: State, op: Op, id: Id, check: Check)
    requires CheckHolds(s, check) && check.listed.Some? && id in Step(s, op).segments && op.Mark?
    ensures Accounted(Step(s, op).segments[id], id, check)
  {
    assert Accounted(s.segments[id], id, check);
  }

  lemma OldCheckHolds(s: State, op: Op, check: Check)
    requires CheckHolds(s, check)
    ensures CheckHolds(Step(s, op), check)
  {
    if check.listed.Some? {
      forall id | id in Step(s, op).segments ensures Accounted(Step(s, op).segments[id], id, check) {
        if op.Mark? { MarkKeepsAccounted(s, op, id, check); } else { RowStaysAccounted(s, op, id, check); }
      }
    }
  }

  lemma StepKeepsChecks(s: State, op: Op)
    requires ChecksHold(s) && NotFuture(op)
    ensures ChecksHold(Step(s, op))
  {
    var s' := Step(s, op);
    forall d | d in s'.checks ensures CheckHolds(s', s'.checks[d]) {
      if d in s.checks && s'.checks[d] == s.checks[d] {
        OldCheckHolds(s, op, s.checks[d]);
      } else if d in s.checks {
        assert CheckHolds(s, s.checks[d]);
      }
    }
  }

  lemma {:induction false} RunKeepsChecks(s: State, ops: seq<Op>)
    requires ChecksHold(s) && forall k :: 0 <= k < |ops| ==> NotFuture(ops[k])
    ensures ChecksHold(Run(s, ops))
    decreases |ops|
  {
    if ops == [] {
    } else {
      RunKeepsChecks(s, ops[..|ops| - 1]);
      StepKeepsChecks(Run(s, ops[..|ops| - 1]), ops[|ops| - 1]);
    }
  }

  /** When a mark commits, every segment never trained or trained before the check's cutoff is stale, whatever was
      created, edited, deleted or extracted between the query and the mark. */
  lemma MarkCatchesAllDrift(now: int, ops: seq<Op>, d: Id)
    requires forall k :: 0 <= k < |ops| ==> NotFuture(ops[k])
    requires var s := Run(Start(now), ops); d in s.checks && s.checks[d].listed.Some?
    ensures var s := Run(Start(now), ops);
      forall id :: id in Step(s, Mark(d)).segments && Drifted(Step(s, Mark(d)).segments[id], s.checks[d].cutoff) ==>
        Step(s, Mark(d)).segments[id].stale
  {
    RunKeepsChecks(Start(now), ops);
    assert CheckHolds(Run(Start(now), ops), Run(Start(now), ops).checks[d]);
  }

  /** The query finds nothing; then a segment is created and extracted. */
  function MissedOps(days: int, definition: Definition): seq<Op> {
    [] + [StartCheck(1, days)] + [Query(1, [])] + [Create(0, definition)] + [Fetch(1, 0)] + [Embed(1)] + [Update(1)]
  }

  /** A segment created and extracted at once. */
  lemma CreatedAndExtracted(s: State, id: Id, x: Id, definition: Definition)
    requires id !in s.used && x !in s.extractions
    ensures
      var s2 := Step(Step(s, Create(id, definition)), Fetch(x, id));
      var s4 := Step(Step(s2, Embed(x)), Update(x));
      s4.segments == s.segments[id := Segment(definition, false, Some(s.now))] && s4.checks == s.checks
  {
    var s2 := Step(Step(s, Create(id, definition)), Fetch(x, id));
    assert s2 == s.(segments := s.segments[id := Segment(definition, true, None)], used := s.used + {id},
                    extractions := s.extractions[x := Extraction(id, definition, false)]);
  }

  lemma QueriedEmpty(now: int, days: int)
    ensures Step(Step(Start(now), StartCheck(1, days)), Query(1, [])) ==
      Start(now).(checks := map[1 := Check(now - days * DAY, 0, Some([]))])
  {
  }

  lemma MissedRun(now: int, days: int, definition: Definition)
    ensures
      var s := Run(Start(now), MissedOps(days, definition));
      && s.segments == map[0 := Segment(definition, false, Some(now))]
      && s.checks == map[1 := Check(now - days * DAY, 0, Some([]))]
  {
    var s0 := Start(now);
    var ops1 := [] + [StartCheck(1, days)];
    var ops2 := ops1 + [Query(1, [])];
    var ops3 := ops2 + [Create(0, definition)];
    var ops4 := ops3 + [Fetch(1, 0)];
    RunSnoc(s0, [], StartCheck(1, days));
    RunSnoc(s0, ops1, Query(1, []));
    RunSnoc(s0, ops2, Create(0, definition));
    RunSnoc(s0, ops3, Fetch(1, 0));
    RunSnoc(s0, ops4, Embed(1));
    RunSnoc(s0, ops4 + [Embed(1)], Update(1));
    QueriedEmpty(now, days);
    CreatedAndExtracted(Run(s0, ops2), 0, 1, definition);
  }

  /** Every threshold below zero lets a run from an empty catalogue end with a mark that misses a drifted segment. */
  lemma NegativeThresholdMisses(now: int, days: int, definition: Definition)
    requires days < 0
    ensures
      var s := Run(Start(now), MissedOps(days, definition));
      var t := Step(s, Mark(1));
      && 1 in s.checks && s.checks[1].listed.Some?
      && 0 in t.segments && Drifted(t.segments[0], s.checks[1].cutoff) && !t.segments[0].stale
  {
    MissedRun(now, days, definition);
    assert now - days * DAY > now;
  }

  /** The rows the UPDATE matches. */
  function Marked(t: Table, ids: seq<Id>): set<Id> { set id | id in ids && id in t }

  function Members(ids: seq<Id>): set<Id> { set id | id in ids }

  lemma {:induction false} MembersAtMost(ids: seq<Id>)
    ensures |Members(ids)| <= |ids|
    ensures (forall i, j :: 0 <= i < j < |ids| ==> ids[i] != ids[j]) ==> |Members(ids)| == |ids|
  {
    if ids == [] {
    } else {
      MembersAtMost(ids[1..]);
      assert Members(ids) == Members(ids[1..]) + {ids[0]};
    }
  }

  lemma SubsetAtMost(a: set<Id>, b: set<Id>)
    requires a <= b
    ensures |a| <= |b| && (|a| == |b| <==> a == b)
  {
    assert b == a + (b - a);
    assert |b| == |a| + |b - a|;
  }

  /** marked_count never exceeds stale_count, and equals it exactly when no listed segment has been deleted. */
  lemma MarkedAtMostListed(t: Table, cutoff: int, rows: seq<Id>, later: Table)
    requires Lists(t, cutoff, rows)
    ensures |Marked(later, rows)| <= |rows|
    ensures |Marked(later, rows)| == |rows| <==> forall id :: id in rows ==> id in later
  {
    MembersAtMost(rows);
    SubsetAtMost(Marked(later, rows), Members(rows));
    if |Marked(later, rows)| == |rows| {
      forall id | id in rows ensures id in later { assert id in Members(rows); }
    } else {
      assert Marked(later, rows) != Members(rows);
    }
  }

  /** A listed segment stays drifted until an extraction's update of it. */
  predicate Retrains(s: State, op: Op, id: Id) {
    op.Update? && op.x in s.extractions && s.extractions[op.x].id == id
  }

  ghost predicate NeverRetrained(s: State, ops: seq<Op>, id: Id)
    decreases |ops|
  {
    ops == [] ||
    (NeverRetrained(s, ops[..|ops| - 1], id) && !Retrains(Run(s, ops[..|ops| - 1]), ops[|ops| - 1], id))
  }

  lemma UntrainedStep(s: State, op: Op, id: Id)
    requires id in s.used && !Retrains(s, op, id)
    ensures id in Step(s, op).used
    ensures id in Step(s, op).segments ==> id in s.segments && Step(s, op).segments[id].trained == s.segments[id].trained
  {
  }

  lemma {:induction false} UntrainedStaysDrifted(s: State, ops: seq<Op>, id: Id)
    requires id in s.segments && id in s.used && NeverRetrained(s, ops, id)
    ensures id in Run(s, ops).used
    ensures id in Run(s, ops).segments ==> Run(s, ops).segments[id].trained == s.segments[id].trained
    decreases |ops|
  {
    if ops == [] {
    } else {
      UntrainedStaysDrifted(s, ops[..|ops| - 1], id);
      UntrainedStep(Run(s, ops[..|ops| - 1]), ops[|ops| - 1], id);
    }
  }

  /** Racing can only over-mark: what a mark raises was listed, and it is still drifted unless it was retrained since
      the query. */
  lemma OverMarksOnlyRetrained(s: State, d: Id, rows: seq<Id>, ops: seq<Op>, id: Id)
    requires d in s.checks && Lists(s.segments, s.checks[d].cutoff, rows) && s.segments.Keys <= s.used
    requires var s' := Run(Step(s, Query(d, rows)), ops);
      && d in s'.checks && s'.checks[d] == s.checks[d].(listed := Some(rows))
      && id in s'.segments && Step(s', Mark(d)).segments[id] != s'.segments[id]
    requires NeverRetrained(Step(s, Query(d, rows)), ops, id)
    ensures var s' := Run(Step(s, Query(d, rows)), ops);
      id in rows && Drifted(s'.segments[id], s.checks[d].cutoff) && !s'.segments[id].stale
  {
    UntrainedStaysDrifted(Step(s, Query(d, rows)), ops, id);
  }

  /** stale_count may exceed scanned_count: the count and the query see different snapshots. */
  lemma MoreStaleThanScanned(s: State, d: Id, id: Id, definition: Definition)
    requires s.segments == map[] && d !in s.checks && id !in s.used
    ensures
      var s' := Run(s, [] + [StartCheck(d, 7)] + [Create(id, definition)] + [Query(d, [id])]);
      d in s'.checks && s'.checks[d].listed == Some([id]) && s'.checks[d].scanned == 0
  {
    var ops := [] + [StartCheck(d, 7)];
    RunSnoc(s, [], StartCheck(d, 7));
    RunSnoc(s, ops, Create(id, definition));
    RunSnoc(s, ops + [Create(id, definition)], Query(d, [id]));
    QueryFindsNew(Step(s, StartCheck(d, 7)), d, id, definition);
  }

  lemma QueryFindsNew(s: State, d: Id, id: Id, definition: Definition)
    requires s.segments == map[] && d in s.checks && id !in s.used
    ensures
      var s' := Step(Step(s, Create(id, definition)), Query(d, [id]));
      s'.checks == s.checks[d := s.checks[d].(listed := Some([id]))]
  {
    var t := Step(s, Create(id, definition)).segments;
    assert t == map[id := Segment(definition, true, None)];
    var rows := [id];
    assert rows[0] == id;
    assert Lists(t, s.checks[d].cutoff, rows);
  }

  // ---------------------------------------------------------------- the methods

  class Catalogue {
    var now: int
    var segments: Table
    var used: set<Id>
    var vectors: map<Id, Definition>

    constructor ()
      ensures segments == map[] && used == {} && vectors == map[]
    {
      now, segments, used, vectors := 0, map[], {}, map[];
    }

    /** The catalogue's part of a state with nothing in progress. */
    function View(): State
      reads this
    {
      State(now, segments, used, vectors, map[], map[], map[])
    }

    method CreateSegment(id: Id, definition: Definition)
      requires id !in used
      modifies this
      ensures View() == Step(old(View()), Create(id, definition))
      ensures segments == old(segments)[id := Segment(definition, true, None)]
    {
      segments := segments[id := Segment(definition, true, None)];
      used := used + {id};
    }

    method DeleteSegment(id: Id) returns (found: bool)
      modifies this
      ensures found <==> id in old(segments)
      ensures View() == Step(old(View()), Delete(id))
      ensures segments == old(segments) - {id} && vectors == old(vectors)
    {
      found := id in segments;
      segments := segments - {id};
    }

    /** One request from load to commit, nothing in between. */
    method UpdateSegment(id: Id, body: Option<Definition>) returns (found: bool)
      modifies this
      ensures found <==> id in old(segments)
      ensures !found ==> View() == old(View())
      ensures found ==> View() == Run(old(View()), [Load(0, id, body), Flush(0)])
      ensures found && body.Some? ==> id in segments && segments[id].definition == body.value && segments[id].stale
      ensures found && body.None? ==> segments == old(segments)
      ensures OthersStay(old(segments), segments, id)
    {
      if id !in segments { return false; }
      var row := segments[id];
      if body.Some? {
        row := row.(definition := body.value);
        row := row.(stale := true);
      }
      ghost var s := View();
      LoadThenFlush(s, id, body);
      segments := segments[id := row];
      return true;
    }

    method FetchSegment(id: Id) returns (r: Result<Extraction, string>)
      ensures r.Ok? <==> id in segments
      ensures r.Ok? ==> r.value == Extraction(id, segments[id].definition, false)
    {
      if id !in segments { return Err("not found in PostgreSQL"); }
      return Ok(Extraction(id, segments[id].definition, false));
    }

    method GenerateEmbedding(job: Extraction) returns (done: Extraction)
      modifies this`vectors
      ensures done == job.(embedded := true)
      ensures vectors == old(vectors)[job.id := job.definition]
    {
      vectors := vectors[job.id := job.definition];
      done := job.(embedded := true);
    }

    method UpdateSegmentMetadata(id: Id)
      modifies this`segments
      ensures segments == if id in old(segments) then old(segments)[id := Trained(old(segments)[id], now)] else old(segments)
      ensures id in segments ==> segments[id].trained == Some(now) && !segments[id].stale
    {
      if id in segments {
        segments := segments[id := segments[id].(trained := Some(now))];
        segments := segments[id := segments[id].(stale := false)];
      }
    }

    /** The whole extraction, undisturbed. */
    method ExtractSegmentData(id: Id) returns (ok: bool)
      modifies this
      ensures ok <==> id in old(segments)
      ensures used == old(used) && now == old(now) && segments.Keys == old(segments).Keys
      ensures forall other :: other in segments && other != id ==> segments[other] == old(segments)[other]
      ensures ok ==> Current(View(), id) && !segments[id].stale && segments[id].definition == old(segments)[id].definition
      ensures ok ==> segments[id].trained == Some(now) && vectors == old(vectors)[id := segments[id].definition]
    {
      var fetched := FetchSegment(id);
      if fetched.Err? { return false; }
      var job := GenerateEmbedding(fetched.value);
      UpdateSegmentMetadata(job.id);
      return true;
    }
  }

  lemma LoadThenFlush(s: State, id: Id, body: Option<Definition>)
    requires id in s.segments && 0 !in s.edits
    ensures var s' := Run(s, [Load(0, id, body), Flush(0)]);
      var row := s.segments[id];
      s' == s.(segments := s.segments[id := if body.Some? then row.(definition := body.value, stale := true) else row])
  {
    var ops := [Load(0, id, body), Flush(0)];
    RunUpTo(s, ops, 0);
    RunUpTo(s, ops, 1);
    assert ops[..2] == ops && ops[..0] == [];
    assert Run(s, ops).edits == s.edits;
  }

  /** What the report says of one segment; `days` is absent for one never trained. */
  datatype StaleSegment = StaleSegment(id: Id, trained: Option<int>, days: Option<real>)

  datatype Report = Report(scanned: nat, staleCount: nat, stale: seq<StaleSegment>, marked: nat)

  predicate Describes(row: Segment, now: int, s: StaleSegment) {
    && s.trained == row.trained
    && s.days == if row.trained.Some? then Some((now - row.trained.value) as real / 86_400.0) else None
  }

  class DriftDetector {
    const thresholdDays: int

    constructor (thresholdDays: int)
      ensures this.thresholdDays == thresholdDays
    {
      this.thresholdDays := thresholdDays;
    }

    /** `rows` is what the query returned. Every listed segment is more than the threshold old. */
    method Scan(c: Catalogue, rows: seq<Id>) returns (r: Report)
      requires Lists(c.segments, c.now - thresholdDays * DAY, rows)
      ensures r.scanned == |c.segments| && r.staleCount == |r.stale| == |rows| <= r.scanned && r.marked == 0
      ensures forall i :: 0 <= i < |rows| ==> r.stale[i].id == rows[i] && Describes(c.segments[rows[i]], c.now, r.stale[i])
      ensures forall i :: 0 <= i < |rows| && r.stale[i].days.Some? ==> r.stale[i].days.value > thresholdDays as real
    {
      var stale: seq<StaleSegment> := [];
      for k := 0 to |rows|
        invariant |stale| == k
        invariant forall i :: 0 <= i < k ==> stale[i].id == rows[i] && Describes(c.segments[rows[i]], c.now, stale[i])
        invariant forall i :: 0 <= i < k && stale[i].days.Some? ==> stale[i].days.value > thresholdDays as real
      {
        var trained := c.segments[rows[k]].trained;
        var days: Option<real> := None;
        if trained.Some? {
          OlderThanThreshold(c.now, trained.value, thresholdDays);
          days := Some((c.now - trained.value) as real / DAY as real);
        }
        stale := stale + [StaleSegment(rows[k], trained, days)];
      }
      MembersAtMost(rows);
      SubsetAtMost(Members(rows), c.segments.Keys);
      r := Report(|c.segments|, |stale|, stale, 0);
    }

    method MarkStale(c: Catalogue, ids: seq<Id>) returns (updated: nat)
      modifies c`segments
      ensures c.segments == MarkRows(old(c.segments), ids)
      ensures updated == |Marked(old(c.segments), ids)|
    {
      if ids == [] {
        assert MarkRows(c.segments, ids) == c.segments;
        return 0;
      }
      updated := |Marked(c.segments, ids)|;
      c.segments := map id | id in c.segments :: if id in ids then c.segments[id].(stale := true) else c.segments[id];
    }

    /** Undisturbed: afterwards a segment is stale exactly when it was stale or has drifted, and every listed one is
        marked. */
    method ScanAndMark(c: Catalogue, rows: seq<Id>) returns (r: Report)
      requires Lists(c.segments, c.now - thresholdDays * DAY, rows)
      modifies c`segments
      ensures c.segments.Keys == old(c.segments).Keys
      ensures forall id :: id in c.segments ==>
        c.segments[id] == old(c.segments)[id].(
          stale := old(c.segments)[id].stale || Drifted(old(c.segments)[id], c.now - thresholdDays * DAY))
      ensures r.marked == r.staleCount == |rows|
    {
      r := Scan(c, rows);
      MarkedAtMostListed(c.segments, c.now - thresholdDays * DAY, rows, c.segments);
      if r.stale != [] {
        var ids := seq(|r.stale|, (i: nat) requires i < |r.stale| => r.stale[i].id);
        assert ids == rows;
        var updated := MarkStale(c, ids);
        r := r.(marked := updated);
      }
    }
  }

  lemma OlderThanThreshold(now: int, trained: int, days: int)
    requires trained < now - days * DAY
    ensures (now - trained) as real / DAY as real > days as real
  {
    assert (now - trained) as real > (days * DAY) as real;
    assert (days * DAY) as real == days as real * DAY as real;
  }
}
