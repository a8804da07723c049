/** Competitions as runs: several can be in flight while variants are added and deleted, each may stop anywhere, and
    the listing is read at any time. */
module CompetitionRuns {
  import opened Prelude
  import opened Competition
  import SR = SimulationRuns

  datatype Campaign = Campaign(segment: Option<Id>, status: string)

  /** A competition in flight: what it fetched, and the results of the mapped tasks that have finished. */
  datatype Dag = Dag(campaign: Id, order: seq<Id>, results: map<nat, Scored>)

  /** `used` is every variant id ever given out, `inferred` the variants inference was called for, in order;
      `nullableOrg` says whether the schema lets a run have no org. */
  datatype State = State(nullableOrg: bool, campaigns: map<Id, Campaign>, variants: Table, used: set<Id>, runs: set<Id>,
                         inferred: seq<Id>, dags: map<Id, Dag>)

  datatype Op =
    | AddVariant(c: Id, v: Id, stimulus: string, at: int)
    | DeleteVariant(v: Id)
    | Fetch(x: Id, c: Id, order: seq<Id>)
    | Simulate(x: Id, i: nat, reply: Option<real>, run: Id)
    | FanIn(x: Id)
    | End(x: Id)

  /** A query result holding campaign `c`'s variants, in no particular order. */
  predicate ListsAll(vs: Table, c: Id, order: seq<Id>) {
    && NoRepeats(order)
    && (forall v :: v in order ==> v in vs && vs[v].campaign == c)
    && (forall v :: v in vs && vs[v].campaign == c ==> v in order)
  }

  predicate Fetchable(campaigns: map<Id, Campaign>, vs: Table, c: Id, order: seq<Id>) {
    c in campaigns && campaigns[c].segment.Some? && order != [] && ListsAll(vs, c, order)
  }

  predicate HasScore(vs: Table, v: Id) { v in vs && vs[v].score.Some? }

  /** What one mapped task returns, if it does not raise: an inference that fails, or an INSERT that the schema
      refuses, leaves nothing. */
  function Simulated(vs: Table, nullableOrg: bool, v: Id, reply: Option<real>, run: Id): Option<Scored> {
    if HasScore(vs, v) then Some(Scored(v, Float4(vs[v].score.value), None))
    else if reply.Some? && nullableOrg then Some(Scored(v, reply.value, Some(run)))
    else None
  }

  predicate Complete(d: Dag) { forall i :: 0 <= i < |d.order| ==> i in d.results }

  function Collected(d: Dag): (rs: seq<Scored>)
    requires Complete(d)
    ensures |rs| == |d.order|
  {
    seq(|d.order|, (i: nat) requires i < |d.order| => d.results[i])
  }

  function Finished(campaigns: map<Id, Campaign>, c: Id): map<Id, Campaign> {
    if c in campaigns then campaigns[c := campaigns[c].(status := "completed")] else campaigns
  }

  function SimulateStep(s: State, op: Op): State
    requires op.Simulate?
  {
    if op.x !in s.dags || op.i >= |s.dags[op.x].order| then s else
    var d := s.dags[op.x];
    var v := d.order[op.i];
    var result := Simulated(s.variants, s.nullableOrg, v, op.reply, op.run);
    var s' := if HasScore(s.variants, v) then s else s.(inferred := s.inferred + [v]);
    if result.None? then s'
    else s'.(dags := s.dags[op.x := d.(results := d.results[op.i := result.value])],
             runs := if result.value.run.Some? then s.runs + {op.run} else s.runs)
  }

  function FanInStep(s: State, x: Id): State {
    if x in s.dags && Complete(s.dags[x]) then
      s.(variants := Persisted(s.variants, Collected(s.dags[x])),
         campaigns := Finished(s.campaigns, s.dags[x].campaign))
    else s
  }

  function Step(s: State, op: Op): State {
    match op
    case AddVariant(c, v, stimulus, at) =>
      if c in s.campaigns && v !in s.used
      then s.(variants := s.variants[v := Variant(c, stimulus, None, None, None, at)], used := s.used + {v})
      else s
    case DeleteVariant(v) => s.(variants := s.variants - {v})
    case Fetch(x, c, order) =>
      if x !in s.dags && Fetchable(s.campaigns, s.variants, c, order)
      then s.(dags := s.dags[x := Dag(c, order, map[])])
      else s
    case Simulate(_, _, _, _) => SimulateStep(s, op)
    case FanIn(x) => FanInStep(s, x)
    case End(x) => s.(dags := s.dags - {x})
  }

  function Run(s: State, ops: seq<Op>): State
    decreases |ops|
  {
    if ops == [] then s else Step(Run(s, ops[..|ops| - 1]), ops[|ops| - 1])
  }

  function Start(nullableOrg: bool, campaigns: map<Id, Campaign>): State {
    State(nullableOrg, campaigns, map[], {}, {}, [], map[])
  }

  // -------------------------------------------------------- each step, field by field

  /** Adding stores an unranked, unscored variant of an existing campaign; deleting removes one; neither touches any
      other. */
  lemma VariantEffect(s: State, op: Op)
    requires op.AddVariant? || op.DeleteVariant?
    ensures
      var t := Step(s, op);
      && t == s.(variants := t.variants, used := t.used)
      && (forall v :: v in s.variants && v != op.v ==> v in t.variants && t.variants[v] == s.variants[v])
      && (forall v :: v in t.variants && v != op.v ==> v in s.variants)
      && match op
         case AddVariant(c, v, stimulus, at) =>
           c in s.campaigns && v !in s.used ==>
             && v in t.variants && v in t.used
             && t.variants[v].campaign == c && t.variants[v].stimulus == stimulus && t.variants[v].createdAt == at
             && t.variants[v].rank == None && t.variants[v].score == None && t.variants[v].run == None
         case DeleteVariant(v) => v !in t.variants && t.used == s.used
  {
  }

  /** A fetch needs a campaign with a segment and at least one variant, and takes all its variants; ending forgets it. */
  lemma DagEffect(s: State, op: Op)
    requires op.Fetch? || op.End?
    ensures
      var t := Step(s, op);
      && t == s.(dags := t.dags)
      && (forall x :: x in s.dags && x != op.x ==> x in t.dags && t.dags[x] == s.dags[x])
      && match op
         case Fetch(x, c, order) =>
           x !in s.dags ==>
             if c in s.campaigns && s.campaigns[c].segment.Some? && order != []
                && (forall i, j :: 0 <= i < j < |order| ==> order[i] != order[j])
                && (forall v :: v in order <==> v in s.variants && s.variants[v].campaign == c)
             then x in t.dags && t.dags[x].campaign == c && t.dags[x].order == order && t.dags[x].results == map[]
             else x !in t.dags
         case End(x) => x !in t.dags
  {
  }

  /** A mapped simulation of variant v: a stored score is handed on as it is, without a run; otherwise inference is
      called, and if it answers and the schema lets a run have no org, its score is handed on with the run it stored. */
  lemma SimulateEffect(s: State, x: Id, i: nat, reply: Option<real>, run: Id)
    requires x in s.dags && i < |s.dags[x].order|
    ensures
      var t, v := Step(s, Simulate(x, i, reply, run)), s.dags[x].order[i];
      && t.variants == s.variants && t.campaigns == s.campaigns && t.used == s.used
      && x in t.dags && t.dags[x].campaign == s.dags[x].campaign && t.dags[x].order == s.dags[x].order
      && (forall j :: j in s.dags[x].results && j != i ==> j in t.dags[x].results && t.dags[x].results[j] == s.dags[x].results[j])
      && if v in s.variants && s.variants[v].score.Some?
         then
           && t.inferred == s.inferred && t.runs == s.runs && i in t.dags[x].results
           && t.dags[x].results[i] == Scored(v, s.variants[v].score.value as real / 10000.0, None)
         else
           && t.inferred == s.inferred + [v]
           && if reply.Some? && s.nullableOrg
              then t.runs == s.runs + {run} && i in t.dags[x].results
                   && t.dags[x].results[i] == Scored(v, reply.value, Some(run))
              else t.runs == s.runs && t.dags == s.dags
  {
  }

  /** A fan-in with all results completes its campaign, and touches neither runs nor inference; without them it waits. */
  lemma FanInEffect(s: State, x: Id)
    ensures
      var t := Step(s, FanIn(x));
      && t.used == s.used && t.runs == s.runs && t.inferred == s.inferred && t.dags == s.dags
      && t.campaigns.Keys == s.campaigns.Keys
      && var full := x in s.dags && forall i :: 0 <= i < |s.dags[x].order| ==> i in s.dags[x].results;
         && (!full ==> t == s)
         && forall c :: c in s.campaigns ==>
              if full && c == s.dags[x].campaign
              then t.campaigns[c].status == "completed" && t.campaigns[c].segment == s.campaigns[c].segment
              else t.campaigns[c] == s.campaigns[c]
  {
  }

  // ---------------------------------------------------------------- what every step keeps

  ghost predicate SoundRow(s: State, v: Id)
    requires v in s.variants
  {
    && v in s.used
    && (s.variants[v].rank.Some? <==> s.variants[v].score.Some?)
    && (s.variants[v].rank.Some? ==> s.variants[v].rank.value >= 1)
  }

  ghost predicate SoundDag(s: State, d: Dag) {
    && NoRepeats(d.order)
    && (forall v :: v in d.order ==> v in s.used && (v in s.variants ==> s.variants[v].campaign == d.campaign))
    && (forall i :: i in d.results ==> i < |d.order| && d.results[i].variant == d.order[i])
  }

  ghost predicate Sound(s: State) {
    && (forall v :: v in s.variants ==> SoundRow(s, v))
    && (forall x :: x in s.dags ==> SoundDag(s, s.dags[x]))
  }

  lemma CollectedIsDistinct(s: State, d: Dag)
    requires SoundDag(s, d) && Complete(d)
    ensures Distinct(Collected(d))
    ensures forall i :: 0 <= i < |d.order| ==> Collected(d)[i].variant == d.order[i]
  {
  }

  /** A row after the fan-in: ranked if it was fetched, otherwise as it was. */
  lemma FanInRow(s: State, x: Id, v: Id)
    requires Sound(s) && x in s.dags && Complete(s.dags[x]) && v in s.variants
    ensures var d := s.dags[x];
      var vs' := FanInStep(s, x).variants;
      && v in vs' && vs'[v].campaign == s.variants[v].campaign && vs'[v].stimulus == s.variants[v].stimulus
      && vs'[v].createdAt == s.variants[v].createdAt
      && (v !in d.order ==> vs'[v] == s.variants[v])
      && (v in d.order ==> vs'[v].rank.Some? && vs'[v].score.Some? && vs'[v].rank.value >= 1)
  {
    var d := s.dags[x];
    var rs := Collected(d);
    CollectedIsDistinct(s, d);
    if v in d.order {
      var i :| 0 <= i < |d.order| && d.order[i] == v;
      PersistedRow(s.variants, rs, i);
    } else {
      PersistedOther(s.variants, rs, v);
    }
  }

  lemma FanInKeepsSound(s: State, x: Id)
    requires Sound(s)
    ensures Sound(FanInStep(s, x))
  {
    var s' := FanInStep(s, x);
    if x in s.dags && Complete(s.dags[x]) {
      forall v | v in s'.variants ensures SoundRow(s', v) && s'.variants[v].campaign == s.variants[v].campaign {
        FanInRow(s, x, v);
        assert SoundRow(s, v);
      }
      forall y | y in s'.dags ensures SoundDag(s', s'.dags[y]) { assert SoundDag(s, s.dags[y]); }
    }
  }

  lemma SimulateKeepsSound(s: State, op: Op)
    requires Sound(s) && op.Simulate?
    ensures Sound(SimulateStep(s, op))
  {
    var s' := SimulateStep(s, op);
    assert s'.variants == s.variants && s'.used == s.used;
    forall v | v in s'.variants ensures SoundRow(s', v) { assert SoundRow(s, v); }
    forall y | y in s'.dags ensures SoundDag(s', s'.dags[y]) {
      assert SoundDag(s, s.dags[y]);
      assert s'.dags[y].order == s.dags[y].order && s'.dags[y].campaign == s.dags[y].campaign;
    }
  }

  lemma StepKeepsSound(s: State, op: Op)
    requires Sound(s)
    ensures Sound(Step(s, op))
  {
    var s' := Step(s, op);
    if op.FanIn? {
      FanInKeepsSound(s, op.x);
    } else if op.Simulate? {
      SimulateKeepsSound(s, op);
    } else {
      forall v | v in s'.variants ensures SoundRow(s', v) { if v in s.variants { assert SoundRow(s, v); } }
      forall y | y in s'.dags ensures SoundDag(s', s'.dags[y]) { if y in s.dags { assert SoundDag(s, s.dags[y]); } }
    }
  }

  // ---------------------------------------------------------------- the listing after any run

  /** No competition is started for a campaign that still has one in flight. */
  ghost predicate StartsAlone(s: State, op: Op) {
    op.Fetch? ==> forall y :: y in s.dags ==> s.dags[y].campaign != op.c
  }

  ghost predicate RunsAlone(s: State, ops: seq<Op>)
    decreases |ops|
  {
    ops == [] || (RunsAlone(s, ops[..|ops| - 1]) && StartsAlone(Run(s, ops[..|ops| - 1]), ops[|ops| - 1]))
  }

  predicate IsRanked(vs: Table, v: Id) { v in vs && vs[v].rank.Some? }

  /** Two ranked variants of one campaign have different ranks, and the better rank goes with the higher score. */
  ghost predicate InOrder(vs: Table, v: Id, w: Id) {
    IsRanked(vs, v) && IsRanked(vs, w) && vs[v].campaign == vs[w].campaign && v != w ==>
    && vs[v].score.Some? && vs[w].score.Some?
    && vs[v].rank.value != vs[w].rank.value
    && (vs[v].rank.value < vs[w].rank.value ==> vs[v].score.value >= vs[w].score.value)
  }

  /** Whatever is ranked in the campaign was fetched by the competition in flight. */
  ghost predicate Covers(vs: Table, d: Dag) {
    forall v :: IsRanked(vs, v) && vs[v].campaign == d.campaign ==> v in d.order
  }

  ghost predicate Standing(s: State) {
    && (forall x, y :: x in s.dags && y in s.dags && x != y ==> s.dags[x].campaign != s.dags[y].campaign)
    && (forall x :: x in s.dags ==> Covers(s.variants, s.dags[x]))
    && (forall v, w :: InOrder(s.variants, v, w))
  }

  lemma FanInOrders(s: State, x: Id, v: Id, w: Id)
    requires Sound(s) && Standing(s) && x in s.dags && Complete(s.dags[x])
    ensures InOrder(FanInStep(s, x).variants, v, w)
  {
    var d := s.dags[x];
    var vs' := FanInStep(s, x).variants;
    if IsRanked(vs', v) && IsRanked(vs', w) && vs'[v].campaign == vs'[w].campaign && v != w {
      FanInRow(s, x, v);
      FanInRow(s, x, w);
      assert Covers(s.variants, d);
      assert SoundDag(s, d);
      assert InOrder(s.variants, v, w);
      if v in d.order {
        var i :| 0 <= i < |d.order| && d.order[i] == v;
        var j :| 0 <= j < |d.order| && d.order[j] == w;
        FanInPair(s, d, i, j);
      } else {
        assert SoundRow(s, v) && SoundRow(s, w);
      }
    }
  }

  lemma FanInPair(s: State, d: Dag, i: nat, j: nat)
    requires SoundDag(s, d) && Complete(d) && i < |d.order| && j < |d.order| && i != j
    requires d.order[i] in s.variants && d.order[j] in s.variants
    ensures InOrder(Persisted(s.variants, Collected(d)), d.order[i], d.order[j])
  {
    var rs := Collected(d);
    CollectedIsDistinct(s, d);
    PersistedRow(s.variants, rs, i);
    PersistedRow(s.variants, rs, j);
    PlacesFollowAbove(rs, i, j);
    if Above(rs, i, j) { RoundingKeepsOrder(rs[j].score, rs[i].score); }
  }

  lemma FanInKeepsStanding(s: State, x: Id)
    requires Sound(s) && Standing(s) && x in s.dags && Complete(s.dags[x])
    ensures Standing(FanInStep(s, x))
  {
    var s' := FanInStep(s, x);
    forall v, w ensures InOrder(s'.variants, v, w) { FanInOrders(s, x, v, w); }
    forall y | y in s'.dags ensures Covers(s'.variants, s'.dags[y]) {
      forall v | IsRanked(s'.variants, v) && s'.variants[v].campaign == s'.dags[y].campaign ensures v in s'.dags[y].order {
        FanInRow(s, x, v);
        assert SoundDag(s, s.dags[x]);
        assert Covers(s.variants, s.dags[y]);
      }
    }
  }

  /** Nothing but a fan-in ranks a variant, and only a fetch adds a competition. */
  lemma OtherStepKeepsStanding(s: State, op: Op)
    requires Sound(s) && Standing(s) && StartsAlone(s, op) && !op.FanIn?
    ensures Standing(Step(s, op))
  {
    var s' := Step(s, op);
    NoNewRanks(s, op);
    forall v, w ensures InOrder(s'.variants, v, w) { assert InOrder(s.variants, v, w); }
    forall y | y in s'.dags ensures Covers(s'.variants, s'.dags[y]) {
      if y in s.dags { assert Covers(s.variants, s.dags[y]); }
    }
  }

  lemma NoNewRanks(s: State, op: Op)
    requires Sound(s) && !op.FanIn?
    ensures forall v :: IsRanked(Step(s, op).variants, v) ==> IsRanked(s.variants, v) && Step(s, op).variants[v] == s.variants[v]
    ensures forall y :: y in Step(s, op).dags && y in s.dags ==>
      Step(s, op).dags[y].campaign == s.dags[y].campaign && Step(s, op).dags[y].order == s.dags[y].order
  {
  }

  lemma StepKeepsStanding(s: State, op: Op)
    requires Sound(s) && Standing(s) && StartsAlone(s, op)
    ensures Standing(Step(s, op))
  {
    if !op.FanIn? {
      OtherStepKeepsStanding(s, op);
    } else if op.x in s.dags && Complete(s.dags[op.x]) {
      FanInKeepsStanding(s, op.x);
    }
  }

  lemma {:induction false} RunKeeps(s: State, ops: seq<Op>)
    requires Sound(s)
    ensures Sound(Run(s, ops))
    ensures Standing(s) && RunsAlone(s, ops) ==> Standing(Run(s, ops))
    decreases |ops|
  {
    if ops == [] {
    } else {
      var front := ops[..|ops| - 1];
      RunKeeps(s, front);
      StepKeepsSound(Run(s, front), ops[|ops| - 1]);
      if Standing(s) && RunsAlone(s, ops) { StepKeepsStanding(Run(s, front), ops[|ops| - 1]); }
    }
  }

  /** ORDER BY rank ASC NULLS LAST, created_at ASC. */
  predicate Sorts(a: Variant, b: Variant) {
    if a.rank.Some? && b.rank.Some? then a.rank.value < b.rank.value || (a.rank == b.rank && a.createdAt <= b.createdAt)
    else a.rank.Some? || (b.rank.None? && a.createdAt <= b.createdAt)
  }

  ghost predicate Listing(vs: Table, c: Id, rows: seq<Id>) {
    && ListsAll(vs, c, rows)
    && (forall a, b :: 0 <= a < b < |rows| ==> Sorts(vs[rows[a]], vs[rows[b]]))
  }

  /** The ranked variants come first, by falling score and rising rank; the others follow in order of creation. */
  ghost predicate Podium(vs: Table, rows: seq<Id>) {
    forall a, b :: 0 <= a < b < |rows| ==> rows[a] in vs && rows[b] in vs && Precedes(vs[rows[a]], vs[rows[b]])
  }

  predicate Precedes(a: Variant, b: Variant) {
    if b.rank.Some? then
      && a.rank.Some? && a.rank.value < b.rank.value
      && a.score.Some? && b.score.Some? && a.score.value >= b.score.value
    else a.rank.Some? || a.createdAt <= b.createdAt
  }

  /** After any run of competitions, additions and deletions in which no two competitions of a campaign overlap. */
  lemma ListingIsPodium(nullableOrg: bool, campaigns: map<Id, Campaign>, ops: seq<Op>, c: Id, rows: seq<Id>)
    requires RunsAlone(Start(nullableOrg, campaigns), ops)
    requires Listing(Run(Start(nullableOrg, campaigns), ops).variants, c, rows)
    ensures Podium(Run(Start(nullableOrg, campaigns), ops).variants, rows)
  {
    var s := Run(Start(nullableOrg, campaigns), ops);
    RunKeeps(Start(nullableOrg, campaigns), ops);
    forall a, b | 0 <= a < b < |rows|
      ensures rows[a] in s.variants && rows[b] in s.variants && Precedes(s.variants[rows[a]], s.variants[rows[b]])
    {
      assert Sorts(s.variants[rows[a]], s.variants[rows[b]]);
      assert InOrder(s.variants, rows[a], rows[b]) && InOrder(s.variants, rows[b], rows[a]);
    }
  }

  // ------------------------------------------------ exactly when the listing is right

  predicate VariantIn(vs: Table, c: Id, v: Id) { v in vs && vs[v].campaign == c }

  ghost predicate CampaignInOrder(vs: Table, c: Id) {
    forall v, w :: VariantIn(vs, c, v) && VariantIn(vs, c, w) ==> InOrder(vs, v, w)
  }

  /** A ranked row sits well beside a rank and score about to be written. */
  predicate Fits(u: Variant, rank: nat, score: int) {
    && u.rank.Some? && u.score.Some?
    && u.rank.value != rank
    && (u.rank.value < rank ==> u.score.value >= score)
    && (rank < u.rank.value ==> score >= u.score.value)
  }

  /** Ranked in the campaign, and unknown to the competition that is about to write. */
  predicate Outsider(vs: Table, d: Dag, u: Id) { IsRanked(vs, u) && vs[u].campaign == d.campaign && u !in d.order }

  /** What the UPDATE of result i will write fits an outsider, or its variant is gone. */
  predicate WriteFits(vs: Table, d: Dag, u: Id, i: nat)
    requires Complete(d) && i < |d.order| && u in vs
  {
    d.order[i] in vs ==> Fits(vs[u], Place(Collected(d), i) + 1, SR.Round4(Collected(d)[i].score))
  }

  /** Everything about to be written fits every outsider: all of it can be read before the first UPDATE. */
  ghost predicate FanInFits(vs: Table, d: Dag)
    requires Complete(d)
  {
    forall u, i: nat :: Outsider(vs, d, u) && i < |d.order| ==> WriteFits(vs, d, u, i)
  }

  /** An outsider against one written row. */
  lemma OutsiderInOrder(s: State, x: Id, u: Id, i: nat)
    requires Sound(s) && x in s.dags && Complete(s.dags[x]) && i < |s.dags[x].order|
    requires Outsider(s.variants, s.dags[x], u) && s.dags[x].order[i] in s.variants
    ensures
      var vs', v := FanInStep(s, x).variants, s.dags[x].order[i];
      InOrder(vs', u, v) && InOrder(vs', v, u) <==> WriteFits(s.variants, s.dags[x], u, i)
  {
    var d := s.dags[x];
    assert SoundDag(s, d) && SoundRow(s, u);
    CollectedIsDistinct(s, d);
    FanInRow(s, x, u);
    PersistedRow(s.variants, Collected(d), i);
  }

  /** The fan-in leaves its campaign in order if and only if everything it writes fits every outsider. */
  lemma FanInExactly(s: State, x: Id)
    requires Sound(s) && x in s.dags && Complete(s.dags[x]) && CampaignInOrder(s.variants, s.dags[x].campaign)
    ensures CampaignInOrder(FanInStep(s, x).variants, s.dags[x].campaign) <==> FanInFits(s.variants, s.dags[x])
  {
    var d := s.dags[x];
    var c, vs, vs' := d.campaign, s.variants, FanInStep(s, x).variants;
    if CampaignInOrder(vs', c) {
      forall u, i: nat | Outsider(vs, d, u) && i < |d.order| ensures WriteFits(vs, d, u, i) {
        if d.order[i] in vs {
          WrittenStaysIn(s, x, u, i);
          OutsiderInOrder(s, x, u, i);
        }
      }
    }
    if FanInFits(vs, d) {
      forall v, w | VariantIn(vs', c, v) && VariantIn(vs', c, w) ensures InOrder(vs', v, w) {
        FanInRow(s, x, v);
        FanInRow(s, x, w);
        FittedPair(s, x, v, w);
      }
    }
  }

  lemma WrittenStaysIn(s: State, x: Id, u: Id, i: nat)
    requires Sound(s) && x in s.dags && Complete(s.dags[x]) && i < |s.dags[x].order|
    requires Outsider(s.variants, s.dags[x], u) && s.dags[x].order[i] in s.variants
    ensures
      var vs' := FanInStep(s, x).variants;
      VariantIn(vs', s.dags[x].campaign, u) && VariantIn(vs', s.dags[x].campaign, s.dags[x].order[i])
  {
    assert SoundDag(s, s.dags[x]);
    FanInRow(s, x, u);
    FanInRow(s, x, s.dags[x].order[i]);
  }

  lemma FittedPair(s: State, x: Id, v: Id, w: Id)
    requires Sound(s) && x in s.dags && Complete(s.dags[x]) && CampaignInOrder(s.variants, s.dags[x].campaign)
    requires FanInFits(s.variants, s.dags[x]) && v in s.variants && w in s.variants
    requires s.variants[v].campaign == s.variants[w].campaign == s.dags[x].campaign
    ensures InOrder(FanInStep(s, x).variants, v, w)
  {
    var d, vs' := s.dags[x], FanInStep(s, x).variants;
    FanInRow(s, x, v);
    FanInRow(s, x, w);
    if v == w || !IsRanked(vs', v) || !IsRanked(vs', w) {
    } else if v in d.order && w in d.order {
      assert SoundDag(s, d);
      var i :| 0 <= i < |d.order| && d.order[i] == v;
      var j :| 0 <= j < |d.order| && d.order[j] == w;
      FanInPair(s, d, i, j);
    } else if v in d.order {
      var i :| 0 <= i < |d.order| && d.order[i] == v;
      assert WriteFits(s.variants, d, w, i);
      OutsiderInOrder(s, x, w, i);
    } else if w in d.order {
      var j :| 0 <= j < |d.order| && d.order[j] == w;
      assert WriteFits(s.variants, d, v, j);
      OutsiderInOrder(s, x, v, j);
    } else {
      assert VariantIn(s.variants, d.campaign, v) && VariantIn(s.variants, d.campaign, w);
      assert InOrder(s.variants, v, w);
    }
  }

  /** When no fetched variant has gone, the condition says: every outsider ranks below all that is written, with no
      higher a score than any of it. */
  lemma FitsWhenAllPresent(s: State, x: Id)
    requires Sound(s) && x in s.dags && Complete(s.dags[x])
    requires forall v :: v in s.dags[x].order ==> v in s.variants
    ensures
      var d := s.dags[x];
      FanInFits(s.variants, d) <==>
        forall u, i: nat :: Outsider(s.variants, d, u) && i < |d.order| ==> RanksBelow(s.variants, d, u, i)
  {
    var d, vs := s.dags[x], s.variants;
    var rs := Collected(d);
    SortPlaces(rs);
    forall u, i: nat | Outsider(vs, d, u) && i < |d.order| && FanInFits(vs, d) ensures RanksBelow(vs, d, u, i) {
      assert SoundRow(s, u);
      forall j | 0 <= j < |rs| ensures Place(rs, j) + 1 != vs[u].rank.value {
        assert d.order[j] in d.order && WriteFits(vs, d, u, j);
      }
      BelowAllPlaces(rs, vs[u].rank.value);
      assert WriteFits(vs, d, u, i);
      assert d.order[i] in d.order && Place(rs, i) < |rs|;
    }
    forall u, i: nat | Outsider(vs, d, u) && i < |d.order| && RanksBelow(vs, d, u, i) ensures WriteFits(vs, d, u, i) {
      assert Place(rs, i) < |rs|;
    }
  }

  lemma BelowAllPlaces(rs: seq<Scored>, rank: nat)
    requires rank >= 1 && forall j :: 0 <= j < |rs| ==> Place(rs, j) + 1 != rank
    ensures rank > |rs|
  {
    if rank <= |rs| { var j := EveryPlaceIsTaken(rs, rank - 1); }
  }

  predicate RanksBelow(vs: Table, d: Dag, u: Id, i: nat)
    requires Complete(d) && i < |d.order| && u in vs
  {
    && vs[u].rank.Some? && vs[u].rank.value > |d.order|
    && vs[u].score.Some? && vs[u].score.value <= SR.Round4(Collected(d)[i].score)
  }

  /** A listing is a podium if and only if the campaign is in order. */
  lemma PodiumIffInOrder(s: State, c: Id, rows: seq<Id>)
    requires Sound(s) && Listing(s.variants, c, rows)
    ensures Podium(s.variants, rows) <==> CampaignInOrder(s.variants, c)
  {
    var vs := s.variants;
    if CampaignInOrder(vs, c) {
      forall a, b | 0 <= a < b < |rows| ensures Precedes(vs[rows[a]], vs[rows[b]]) {
        assert VariantIn(vs, c, rows[a]) && VariantIn(vs, c, rows[b]);
        assert Sorts(vs[rows[a]], vs[rows[b]]) && SoundRow(s, rows[a]) && SoundRow(s, rows[b]);
        assert InOrder(vs, rows[a], rows[b]) && InOrder(vs, rows[b], rows[a]);
      }
    }
    if Podium(vs, rows) {
      forall v, w | VariantIn(vs, c, v) && VariantIn(vs, c, w) ensures InOrder(vs, v, w) {
        var a :| 0 <= a < |rows| && rows[a] == v;
        var b :| 0 <= b < |rows| && rows[b] == w;
        if a < b {
          assert Precedes(vs[rows[a]], vs[rows[b]]);
        } else if b < a {
          assert Precedes(vs[rows[b]], vs[rows[a]]);
        }
      }
    }
  }

  /** Every campaign has a listing. */
  lemma ListingExists(vs: Table, c: Id) returns (rows: seq<Id>)
    ensures Listing(vs, c, rows)
  {
    rows := SortedRows(vs, set v | v in vs && vs[v].campaign == c);
  }

  lemma {:induction false} SortedRows(vs: Table, ids: set<Id>) returns (rows: seq<Id>)
    requires ids <= vs.Keys
    ensures NoRepeats(rows) && (forall v :: v in rows <==> v in ids)
    ensures forall a, b :: 0 <= a < b < |rows| ==> Sorts(vs[rows[a]], vs[rows[b]])
    decreases ids
  {
    if ids == {} {
      rows := [];
    } else {
      var k :| k in ids;
      var rest := SortedRows(vs, ids - {k});
      rows := Inserted(vs, k, rest);
    }
  }

  lemma {:induction false} Inserted(vs: Table, k: Id, rest: seq<Id>) returns (rows: seq<Id>)
    requires k in vs && k !in rest && NoRepeats(rest) && forall v :: v in rest ==> v in vs
    requires forall a, b :: 0 <= a < b < |rest| ==> Sorts(vs[rest[a]], vs[rest[b]])
    ensures NoRepeats(rows) && (forall v :: v in rows <==> v == k || v in rest)
    ensures forall a, b :: 0 <= a < b < |rows| ==> Sorts(vs[rows[a]], vs[rows[b]])
  {
    if rest == [] {
      rows := [k];
    } else if Sorts(vs[k], vs[rest[0]]) {
      rows := [k] + rest;
      assert forall b :: 1 <= b < |rest| ==> Sorts(vs[rest[0]], vs[rest[b]]);
    } else {
      var tail := Inserted(vs, k, rest[1..]);
      rows := [rest[0]] + tail;
      forall b | 0 <= b < |tail| ensures Sorts(vs[rest[0]], vs[tail[b]]) && tail[b] != rest[0] {
        assert tail[b] in tail;
        if tail[b] != k {
          var j :| 0 <= j < |rest[1..]| && rest[1..][j] == tail[b];
          assert rest[j + 1] == tail[b];
        }
      }
    }
  }

  /** The step is no fan-in of the campaign, or one that fits. */
  ghost predicate OpFits(s: State, op: Op, c: Id) {
    op.FanIn? && op.x in s.dags && Complete(s.dags[op.x]) && s.dags[op.x].campaign == c ==> FanInFits(s.variants, s.dags[op.x])
  }

  ghost predicate FanInsFit(s: State, ops: seq<Op>, c: Id)
    decreases |ops|
  {
    ops == [] || (FanInsFit(s, ops[..|ops| - 1], c) && OpFits(Run(s, ops[..|ops| - 1]), ops[|ops| - 1], c))
  }

  /** Whoever lists the campaign, at whatever moment of the run, gets a podium. */
  ghost predicate AlwaysPodium(s: State, ops: seq<Op>, c: Id)
    decreases |ops|
  {
    && (forall rows :: Listing(Run(s, ops).variants, c, rows) ==> Podium(Run(s, ops).variants, rows))
    && (ops == [] || AlwaysPodium(s, ops[..|ops| - 1], c))
  }

  lemma PodiumNowIff(s: State, c: Id)
    requires Sound(s)
    ensures (forall rows :: Listing(s.variants, c, rows) ==> Podium(s.variants, rows)) <==> CampaignInOrder(s.variants, c)
  {
    var some := ListingExists(s.variants, c);
    PodiumIffInOrder(s, c, some);
    forall rows | Listing(s.variants, c, rows) ensures Podium(s.variants, rows) <==> CampaignInOrder(s.variants, c) {
      PodiumIffInOrder(s, c, rows);
    }
  }

  /** Steps other than fan-ins of the campaign keep it in order. */
  lemma OtherOpsKeepOrder(s: State, op: Op, c: Id)
    requires Sound(s) && CampaignInOrder(s.variants, c)
    requires !(op.FanIn? && op.x in s.dags && Complete(s.dags[op.x]) && s.dags[op.x].campaign == c)
    ensures CampaignInOrder(Step(s, op).variants, c)
  {
    var vs, vs' := s.variants, Step(s, op).variants;
    if op.FanIn? {
      if op.x in s.dags && Complete(s.dags[op.x]) {
        assert SoundDag(s, s.dags[op.x]);
        forall v | v in vs' ensures vs'[v].campaign == vs[v].campaign && (vs[v].campaign == c ==> vs'[v] == vs[v]) {
          FanInRow(s, op.x, v);
        }
        forall v, w | VariantIn(vs', c, v) && VariantIn(vs', c, w) ensures InOrder(vs', v, w) {
          assert VariantIn(vs, c, v) && VariantIn(vs, c, w);
          assert InOrder(vs, v, w);
        }
      }
    } else {
      NoNewRanks(s, op);
      forall v, w | VariantIn(vs', c, v) && VariantIn(vs', c, w) ensures InOrder(vs', v, w) {
        if IsRanked(vs', v) && IsRanked(vs', w) {
          assert VariantIn(vs, c, v) && VariantIn(vs, c, w);
          assert InOrder(vs, v, w);
        }
      }
    }
  }

  lemma {:induction false} PodiumThroughout(s: State, ops: seq<Op>, c: Id)
    requires Sound(s) && CampaignInOrder(s.variants, c)
    ensures AlwaysPodium(s, ops, c) <==> FanInsFit(s, ops, c)
    ensures AlwaysPodium(s, ops, c) ==> CampaignInOrder(Run(s, ops).variants, c)
    decreases |ops|
  {
    RunKeeps(s, ops);
    PodiumNowIff(Run(s, ops), c);
    if ops == [] {
    } else {
      var front, op := ops[..|ops| - 1], ops[|ops| - 1];
      PodiumThroughout(s, front, c);
      if AlwaysPodium(s, front, c) {
        var before := Run(s, front);
        RunKeeps(s, front);
        if op.FanIn? && op.x in before.dags && Complete(before.dags[op.x]) && before.dags[op.x].campaign == c {
          FanInExactly(before, op.x);
        } else {
          OtherOpsKeepOrder(before, op, c);
        }
      }
    }
  }

  /** For every run, overlapping competitions included: all listings of the campaign at all moments are podiums if
      and only if every fan-in of the campaign fits the ranked variants it did not fetch. */
  lemma ListingExactly(nullableOrg: bool, campaigns: map<Id, Campaign>, ops: seq<Op>, c: Id)
    ensures AlwaysPodium(Start(nullableOrg, campaigns), ops, c) <==> FanInsFit(Start(nullableOrg, campaigns), ops, c)
  {
    PodiumThroughout(Start(nullableOrg, campaigns), ops, c);
  }

  /** Two overlapping competitions of one campaign: the second sees a variant added in between, and finishes first. */
  function Overlap(): seq<Op> { AnswerOps() + [FanIn(2)] + [FanIn(1)] }

  function OpenOps(): seq<Op> {
    [] + [AddVariant(0, 1, "a", 1)] + [Fetch(1, 0, [1])] + [AddVariant(0, 2, "b", 2)] + [Fetch(2, 0, [1, 2])]
  }

  function AnswerOps(): seq<Op> {
    OpenOps() + [Simulate(2, 0, Some(0.5), 10)] + [Simulate(2, 1, Some(0.75), 11)] + [Simulate(1, 0, Some(0.5), 12)]
  }

  lemma RunSnoc(s: State, ops: seq<Op>, op: Op)
    ensures Run(s, ops + [op]) == Step(Run(s, ops), op)
  {
    ButLast(ops, op);
  }

  function Opened(): State {
    State(true, map[0 := Campaign(Some(7), "draft")],
          map[1 := Variant(0, "a", None, None, None, 1), 2 := Variant(0, "b", None, None, None, 2)], {1, 2}, {}, [],
          map[1 := Dag(0, [1], map[]), 2 := Dag(0, [1, 2], map[])])
  }

  function Both(): seq<Scored> { [Scored(1, 0.5, Some(10)), Scored(2, 0.75, Some(11))] }

  function Answered(): State {
    Opened().(runs := {10, 11, 12}, inferred := [1, 2, 1],
              dags := map[1 := Dag(0, [1], map[0 := Scored(1, 0.5, Some(12))]),
                          2 := Dag(0, [1, 2], map[0 := Both()[0], 1 := Both()[1]])])
  }

  lemma OverlapOpens()
    ensures Run(Start(true, Opened().campaigns), OpenOps()) == Opened()
  {
    var s0 := Start(true, Opened().campaigns);
    var ops1 := [] + [AddVariant(0, 1, "a", 1)];
    var ops2 := ops1 + [Fetch(1, 0, [1])];
    var ops3 := ops2 + [AddVariant(0, 2, "b", 2)];
    RunSnoc(s0, [], AddVariant(0, 1, "a", 1));
    RunSnoc(s0, ops1, Fetch(1, 0, [1]));
    RunSnoc(s0, ops2, AddVariant(0, 2, "b", 2));
    RunSnoc(s0, ops3, Fetch(2, 0, [1, 2]));
  }

  lemma Answers(s: State, x: Id, i: nat, p: real, run: Id)
    requires s.nullableOrg && x in s.dags && i < |s.dags[x].order| && !HasScore(s.variants, s.dags[x].order[i])
    ensures var d := s.dags[x];
      Step(s, Simulate(x, i, Some(p), run)) ==
      s.(inferred := s.inferred + [d.order[i]], runs := s.runs + {run},
         dags := s.dags[x := d.(results := d.results[i := Scored(d.order[i], p, Some(run))])])
  {
  }

  lemma OverlapAnswers()
    ensures Run(Start(true, Opened().campaigns), AnswerOps()) == Answered()
  {
    var s0 := Start(true, Opened().campaigns);
    var ops5 := OpenOps() + [Simulate(2, 0, Some(0.5), 10)];
    var ops6 := ops5 + [Simulate(2, 1, Some(0.75), 11)];
    OverlapOpens();
    RunSnoc(s0, OpenOps(), Simulate(2, 0, Some(0.5), 10));
    RunSnoc(s0, ops5, Simulate(2, 1, Some(0.75), 11));
    RunSnoc(s0, ops6, Simulate(1, 0, Some(0.5), 12));
    ThreeAnswers();
  }

  lemma ThreeAnswers()
    ensures var s5 := Step(Opened(), Simulate(2, 0, Some(0.5), 10));
      var s6 := Step(s5, Simulate(2, 1, Some(0.75), 11));
      Step(s6, Simulate(1, 0, Some(0.5), 12)) == Answered()
  {
    var s5 := Step(Opened(), Simulate(2, 0, Some(0.5), 10));
    var s6 := Step(s5, Simulate(2, 1, Some(0.75), 11));
    Answers(Opened(), 2, 0, 0.5, 10);
    Answers(s5, 2, 1, 0.75, 11);
    Answers(s6, 1, 0, 0.5, 12);
    assert Step(s6, Simulate(1, 0, Some(0.5), 12)).dags == Answered().dags;
  }

  function FirstRanked(): Table {
    map[1 := Variant(0, "a", Some(2), Some(5000), Some(10), 1), 2 := Variant(0, "b", Some(1), Some(7500), Some(11), 2)]
  }

  lemma BothPlaces()
    ensures Place(Both(), 0) == 1 && Place(Both(), 1) == 0
  {
    PlacesFollowAbove(Both(), 1, 0);
    SortPlaceAt(Both(), 0);
    SortPlaceAt(Both(), 1);
  }

  /** The later competition ranks both. */
  lemma OverlapRanksBoth()
    ensures FanInStep(Answered(), 2).variants == FirstRanked()
  {
    var s := Answered();
    assert Collected(s.dags[2]) == Both();
    BothPlaces();
    PersistedRow(s.variants, Both(), 0);
    PersistedRow(s.variants, Both(), 1);
    assert SR.Round4(0.5) == 5000 && SR.Round4(0.75) == 7500;
  }

  /** Then the earlier one gives its only variant rank 1 as well. */
  lemma OverlapRanksOne()
    ensures FanInStep(FanInStep(Answered(), 2), 1).variants ==
      FirstRanked()[1 := Variant(0, "a", Some(1), Some(5000), Some(12), 1)]
  {
    var s := FanInStep(Answered(), 2);
    OverlapRanksBoth();
    var one := [Scored(1, 0.5, Some(12))];
    assert Collected(s.dags[1]) == one;
    SortPlaces(one);
    PersistedRow(s.variants, one, 0);
    PersistedOther(s.variants, one, 2);
    assert SR.Round4(0.5) == 5000;
  }

  lemma RunFanIn(s: State, ops: seq<Op>, x: Id)
    ensures Run(s, ops + [FanIn(x)]) == FanInStep(Run(s, ops), x)
  {
    RunSnoc(s, ops, FanIn(x));
  }

  lemma OverlapEnds()
    ensures Run(Start(true, Opened().campaigns), Overlap()) == FanInStep(FanInStep(Answered(), 2), 1)
  {
    var s0 := Start(true, Opened().campaigns);
    OverlapAnswers();
    RunFanIn(s0, AnswerOps(), 2);
    RunFanIn(s0, AnswerOps() + [FanIn(2)], 1);
  }

  /** The listing then puts the variant with the lower score first. */
  lemma OverlapBreaksPodium()
    ensures var s := Run(Start(true, Opened().campaigns), Overlap());
      Listing(s.variants, 0, [1, 2]) && !Podium(s.variants, [1, 2])
  {
    OverlapEnds();
    OverlapRanksOne();
    var rows := [1, 2];
    assert rows[0] == 1 && rows[1] == 2;
  }

  // ---------------------------------------------------------------- re-runs and partial failures

  ghost predicate AllScored(s: State, c: Id) {
    forall v :: v in s.variants && s.variants[v].campaign == c ==> s.variants[v].score.Some?
  }

  predicate LeavesVariantsOf(s: State, c: Id, op: Op) {
    && (op.AddVariant? ==> op.c != c)
    && (op.DeleteVariant? ==> op.v in s.variants ==> s.variants[op.v].campaign != c)
  }

  ghost predicate KeepsVariantsOf(s: State, c: Id, ops: seq<Op>)
    decreases |ops|
  {
    ops == [] || (KeepsVariantsOf(s, c, ops[..|ops| - 1]) && LeavesVariantsOf(Run(s, ops[..|ops| - 1]), c, ops[|ops| - 1]))
  }

  /** Every inference since `s` was for a variant of another campaign. */
  ghost predicate NoInferenceFor(s: State, s': State, c: Id) {
    && s.inferred <= s'.inferred
    && (forall k :: |s.inferred| <= k < |s'.inferred| ==> !VariantIn(s.variants, c, s'.inferred[k]))
    && (forall v :: VariantIn(s.variants, c, v) ==> VariantIn(s'.variants, c, v))
    && AllScored(s', c)
  }

  lemma FreeStep(s: State, s': State, c: Id, op: Op)
    requires Sound(s') && NoInferenceFor(s, s', c) && LeavesVariantsOf(s', c, op)
    ensures NoInferenceFor(s, Step(s', op), c)
  {
    if op.FanIn? && op.x in s'.dags && Complete(s'.dags[op.x]) {
      forall v | v in s'.variants
        ensures Step(s', op).variants[v].campaign == s'.variants[v].campaign
        ensures s'.variants[v].score.Some? ==> Step(s', op).variants[v].score.Some?
      {
        FanInRow(s', op.x, v);
      }
    }
  }

  /** Once all of a campaign's variants have scores, and while the campaign's variants stay the same, nothing that
      competes them again calls inference for any of them. */
  lemma {:induction false} RerunInfersNothing(s: State, ops: seq<Op>, c: Id)
    requires Sound(s) && AllScored(s, c) && KeepsVariantsOf(s, c, ops)
    ensures NoInferenceFor(s, Run(s, ops), c)
    decreases |ops|
  {
    if ops == [] {
    } else {
      var front := ops[..|ops| - 1];
      RerunInfersNothing(s, front, c);
      RunKeeps(s, front);
      FreeStep(s, Run(s, front), c, ops[|ops| - 1]);
    }
  }

  predicate NoFanIn(ops: seq<Op>) { forall k :: 0 <= k < |ops| ==> !ops[k].FanIn? }

  /** `s'` has lost some of the rows of `s` and gained others, and changed none. */
  ghost predicate RowsKept(s: State, s': State) {
    && s.used <= s'.used
    && (forall v :: v in s.used && v in s'.variants ==> v in s.variants && s'.variants[v] == s.variants[v])
  }

  lemma OtherStepKeepsRows(s: State, op: Op)
    requires Sound(s) && !op.FanIn?
    ensures RowsKept(s, Step(s, op))
  {
  }

  /** Scores reach the variants only at the fan-in: a competition that stops before it leaves every row as it was. */
  lemma {:induction false} UnfinishedKeepsRows(s: State, ops: seq<Op>)
    requires Sound(s) && NoFanIn(ops)
    ensures RowsKept(s, Run(s, ops))
    decreases |ops|
  {
    if ops == [] {
    } else {
      var front := ops[..|ops| - 1];
      UnfinishedKeepsRows(s, front);
      RunKeeps(s, front);
      OtherStepKeepsRows(Run(s, front), ops[|ops| - 1]);
    }
  }

  /** So the next competition infers again for a variant that an unfinished one had already scored. */
  lemma UnfinishedIsRepeated(s: State, ops: seq<Op>, x: Id, i: nat, reply: Option<real>, run: Id)
    requires Sound(s) && NoFanIn(ops)
    requires var s' := Run(s, ops);
      x in s'.dags && i < |s'.dags[x].order| && s'.dags[x].order[i] in s.variants && !HasScore(s.variants, s'.dags[x].order[i])
    ensures var s' := Run(s, ops);
      Step(s', Simulate(x, i, reply, run)).inferred == s'.inferred + [s'.dags[x].order[i]]
  {
    UnfinishedKeepsRows(s, ops);
    assert SoundRow(s, Run(s, ops).dags[x].order[i]);
  }

  ghost predicate NothingScored(s: State) {
    && !s.nullableOrg && s.runs == {}
    && (forall v :: v in s.variants ==> s.variants[v].rank.None? && s.variants[v].score.None?)
    && (forall x :: x in s.dags ==> s.dags[x].results == map[] && s.dags[x].order != [])
  }

  lemma NothingScoredStep(s: State, op: Op)
    requires NothingScored(s)
    ensures NothingScored(Step(s, op))
  {
    if op.FanIn? && op.x in s.dags { assert 0 !in s.dags[op.x].results; }
  }

  /** Where a run may not lack an org, no variant is ever scored or ranked and no run is stored, in any run. */
  lemma {:induction false} NotNullNeverRanks(campaigns: map<Id, Campaign>, ops: seq<Op>)
    ensures NothingScored(Run(Start(false, campaigns), ops))
    decreases |ops|
  {
    if ops == [] {
    } else {
      NotNullNeverRanks(campaigns, ops[..|ops| - 1]);
      NothingScoredStep(Run(Start(false, campaigns), ops[..|ops| - 1]), ops[|ops| - 1]);
    }
  }

  // ---------------------------------------------------------------- the mapped tasks in any order

  /** Competition `x` with its mapped runs finishing in the order `schedule`. */
  function Tasks(x: Id, order: seq<Id>, schedule: seq<nat>, infer: Inference): (ops: seq<Op>)
    requires forall k :: 0 <= k < |schedule| ==> schedule[k] < |order|
    ensures |ops| == |schedule|
  {
    if schedule == [] then [] else
    var i := schedule[|schedule| - 1];
    Tasks(x, order, schedule[..|schedule| - 1], infer) + [Simulate(x, i, Some(infer(order[i]).0), infer(order[i]).1)]
  }

  ghost predicate TasksDone(s: State, s': State, x: Id, schedule: seq<nat>, infer: Inference)
    requires x in s.dags && forall k :: 0 <= k < |schedule| ==> schedule[k] < |s.dags[x].order|
  {
    && s'.variants == s.variants && s'.campaigns == s.campaigns && s'.nullableOrg
    && x in s'.dags && s'.dags[x].campaign == s.dags[x].campaign && s'.dags[x].order == s.dags[x].order
    && (forall i :: i in s'.dags[x].results <==> i in schedule)
    && (forall i :: i in schedule ==> s'.dags[x].results[i] == ResultFor(s.variants, s.dags[x].order[i], infer))
  }

  lemma TaskStep(s: State, s': State, x: Id, schedule: seq<nat>, i: nat, infer: Inference)
    requires x in s.dags && i < |s.dags[x].order|
    requires forall k :: 0 <= k < |schedule| ==> schedule[k] < |s.dags[x].order|
    requires TasksDone(s, s', x, schedule, infer)
    ensures var v := s.dags[x].order[i];
      TasksDone(s, Step(s', Simulate(x, i, Some(infer(v).0), infer(v).1)), x, schedule + [i], infer)
  {
  }

  lemma {:induction false} TasksCollect(s: State, x: Id, schedule: seq<nat>, infer: Inference)
    requires s.nullableOrg && x in s.dags && s.dags[x].results == map[]
    requires forall k :: 0 <= k < |schedule| ==> schedule[k] < |s.dags[x].order|
    ensures TasksDone(s, Run(s, Tasks(x, s.dags[x].order, schedule, infer)), x, schedule, infer)
    decreases |schedule|
  {
    if schedule == [] {
    } else {
      var front := schedule[..|schedule| - 1];
      var i := schedule[|schedule| - 1];
      var ops := Tasks(x, s.dags[x].order, front, infer);
      TasksCollect(s, x, front, infer);
      TaskStep(s, Run(s, ops), x, front, i, infer);
      RunSnoc(s, ops, Simulate(x, i, Some(infer(s.dags[x].order[i]).0), infer(s.dags[x].order[i]).1));
      assert schedule == front + [i];
    }
  }

  /** However the parallel tasks are ordered, and however often one is retried, an undisturbed competition writes
      the table `Competed` describes and completes the campaign. */
  lemma UndisturbedCompetition(s: State, x: Id, schedule: seq<nat>, infer: Inference)
    requires s.nullableOrg && x in s.dags && s.dags[x].results == map[] && s.dags[x].campaign in s.campaigns
    requires forall k :: 0 <= k < |schedule| ==> schedule[k] < |s.dags[x].order|
    requires forall i :: 0 <= i < |s.dags[x].order| ==> i in schedule
    ensures var s' := Run(s, Tasks(x, s.dags[x].order, schedule, infer) + [FanIn(x)]);
      && s'.variants == Competed(s.variants, s.dags[x].order, infer)
      && s.dags[x].campaign in s'.campaigns && s'.campaigns[s.dags[x].campaign].status == "completed"
  {
    var ops := Tasks(x, s.dags[x].order, schedule, infer);
    TasksCollect(s, x, schedule, infer);
    RunFanIn(s, ops, x);
    AllTasksDone(s, Run(s, ops), x, schedule, infer);
  }

  lemma AllTasksDone(s: State, s': State, x: Id, schedule: seq<nat>, infer: Inference)
    requires x in s.dags && s.dags[x].campaign in s.campaigns
    requires forall k :: 0 <= k < |schedule| ==> schedule[k] < |s.dags[x].order|
    requires TasksDone(s, s', x, schedule, infer)
    requires forall i :: 0 <= i < |s.dags[x].order| ==> i in schedule
    ensures var t := FanInStep(s', x);
      && t.variants == Competed(s.variants, s.dags[x].order, infer)
      && s.dags[x].campaign in t.campaigns && t.campaigns[s.dags[x].campaign].status == "completed"
  {
    CollectedIsResults(s'.dags[x], s.variants, infer);
  }

  lemma CollectedIsResults(d: Dag, vs: Table, infer: Inference)
    requires forall i :: 0 <= i < |d.order| ==> i in d.results && d.results[i] == ResultFor(vs, d.order[i], infer)
    ensures Complete(d) && Collected(d) == Results(vs, d.order, infer)
  {
  }

  // ---------------------------------------------------------------- the DAG against the database

  class Postgres {
    const nullableOrg: bool
    var campaigns: map<Id, Campaign>
    var variants: Table
    var runs: set<Id>
    var inferred: seq<Id>

    constructor (nullableOrg: bool, campaigns: map<Id, Campaign>)
      ensures this.nullableOrg == nullableOrg && this.campaigns == campaigns
      ensures variants == map[] && runs == {} && inferred == []
    {
      this.nullableOrg := nullableOrg;
      this.campaigns := campaigns;
      variants, runs, inferred := map[], {}, [];
    }

    /** `rows` is what the unordered query on the campaign's variants returned. */
    method FetchCampaign(c: Id, rows: seq<Id>) returns (r: Result<Dag, string>)
      requires ListsAll(variants, c, rows)
      ensures r.Ok? <==> Fetchable(campaigns, variants, c, rows)
      ensures r.Ok? <==> c in campaigns && campaigns[c].segment.Some? && rows != []
      ensures r.Ok? ==> r.value == Dag(c, rows, map[])
    {
      if c !in campaigns { return Err("not found"); }
      if campaigns[c].segment.None? { return Err("no target segment"); }
      if rows == [] { return Err("no variants to compete"); }
      return Ok(Dag(c, rows, map[]));
    }

    method SimulateVariant(v: Id, reply: Option<real>, run: Id) returns (r: Option<Scored>)
      modifies this
      ensures r == Simulated(old(variants), nullableOrg, v, reply, run)
      ensures r == if v in variants && variants[v].score.Some?
                   then Some(Scored(v, variants[v].score.value as real / 10000.0, None))
                   else if reply.Some? && nullableOrg then Some(Scored(v, reply.value, Some(run))) else None
      ensures variants == old(variants) && campaigns == old(campaigns)
      ensures inferred == old(inferred) + if HasScore(old(variants), v) then [] else [v]
      ensures runs == old(runs) + if r.Some? && r.value.run.Some? then {run} else {}
    {
      if v in variants && variants[v].score.Some? {
        return Some(Scored(v, Float4(variants[v].score.value), None));
      }
      inferred := inferred + [v];
      if reply.None? || !nullableOrg { return None; }
      runs := runs + {run};
      return Some(Scored(v, reply.value, Some(run)));
    }

    method RankAndPersist(c: Id, results: seq<Scored>)
      modifies this
      ensures variants == Persisted(old(variants), results)
      ensures campaigns == Finished(old(campaigns), c)
      ensures c in campaigns ==> campaigns[c].status == "completed"
      ensures Distinct(results) && (forall i :: 0 <= i < |results| ==> results[i].variant in old(variants)) ==>
        Standings(variants, results)
      ensures runs == old(runs) && inferred == old(inferred)
    {
      var ranked := SortDesc(results);
      var k := 0;
      while k < |ranked|
        invariant 0 <= k <= |ranked|
        invariant variants == WriteRanks(old(variants), ranked[..k])
        invariant campaigns == old(campaigns) && runs == old(runs) && inferred == old(inferred)
      {
        var result := ranked[k];
        assert ranked[..k + 1][..k] == ranked[..k];
        k := k + 1;
        if result.variant in variants {
          variants := variants[result.variant := variants[result.variant].(
            rank := Some(k), score := Some(SR.Round4(result.score)), run := result.run)];
        }
      }
      assert ranked[..k] == ranked;
      if Distinct(results) && forall i :: 0 <= i < |results| ==> results[i].variant in old(variants) {
        RanksAreStandings(old(variants), results);
      }
      if c in campaigns {
        campaigns := campaigns[c := campaigns[c].(status := "completed")];
      }
    }
  }
}
