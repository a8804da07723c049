/** The variant competition: fetch a campaign's variants, score the unscored ones in parallel, rank them all and
    write the ranks back, with variants added, deleted and listed at any time.

    Scores are reals while they travel between tasks and ten-thousandths once stored. */
module Competition {
  import opened Prelude
  import SR = SimulationRuns

  type Id = nat

  /** What one mapped task hands to the fan-in; `run` is absent when the variant was skipped. */
  datatype Scored = Scored(variant: Id, score: real, run: Option<Id>)

  datatype Variant = Variant(campaign: Id, stimulus: string, rank: Option<nat>, score: Option<int>, run: Option<Id>,
                             createdAt: int)

  type Table = map<Id, Variant>

  /** The stored score as `float(existing[0])` reads it. */
  function Float4(units: int): real { units as real / SR.UNIT as real }

  lemma StoredScoreReadsBack(units: int)
    ensures SR.Round4(Float4(units)) == units
  {
    assert Float4(units) * SR.UNIT as real == units as real;
  }

  lemma RoundingKeepsOrder(x: real, y: real)
    requires x <= y
    ensures SR.Round4(x) <= SR.Round4(y)
  {
    SR.FloorMonotone(x * SR.UNIT as real + 0.5, y * SR.UNIT as real + 0.5);
  }

  // ---------------------------------------------------------------- the stable descending sort

  function InsertDesc(r: Scored, xs: seq<Scored>): (out: seq<Scored>)
    ensures |out| == |xs| + 1
  {
    if xs == [] || xs[0].score <= r.score then [r] + xs else [xs[0]] + InsertDesc(r, xs[1..])
  }

  function SortDesc(rs: seq<Scored>): (out: seq<Scored>)
    ensures |out| == |rs|
  {
    if rs == [] then [] else InsertDesc(rs[0], SortDesc(rs[1..]))
  }

  ghost predicate Descending(xs: seq<Scored>) { forall a, b :: 0 <= a < b < |xs| ==> xs[a].score >= xs[b].score }

  /** Result i is ranked above result j: a higher score, or the same score and earlier in the input. */
  predicate Above(rs: seq<Scored>, i: nat, j: nat)
    requires i < |rs| && j < |rs|
  {
    rs[i].score > rs[j].score || (rs[i].score == rs[j].score && i < j)
  }

  /** Where `r` goes among `xs`: after every higher score. */
  function Slot(r: Scored, xs: seq<Scored>): (k: nat)
    ensures k <= |xs|
  {
    if xs == [] || xs[0].score <= r.score then 0 else 1 + Slot(r, xs[1..])
  }

  lemma {:induction false} InsertIsSlot(r: Scored, xs: seq<Scored>)
    ensures InsertDesc(r, xs) == xs[..Slot(r, xs)] + [r] + xs[Slot(r, xs)..]
  {
    if xs != [] && xs[0].score > r.score {
      var rest := xs[1..];
      InsertIsSlot(r, rest);
      var k := Slot(r, rest);
      assert xs[..k + 1] == [xs[0]] + rest[..k] && xs[k + 1..] == rest[k..];
    }
  }

  lemma {:induction false} SlotDivides(r: Scored, xs: seq<Scored>)
    requires Descending(xs)
    ensures forall a :: 0 <= a < |xs| ==> (a < Slot(r, xs) <==> xs[a].score > r.score)
  {
    if xs != [] && xs[0].score > r.score {
      SlotDivides(r, xs[1..]);
      assert forall a :: 1 <= a < |xs| ==> xs[a] == xs[1..][a - 1];
    }
  }

  lemma InsertAtSlot(r: Scored, xs: seq<Scored>)
    requires Descending(xs)
    ensures InsertDesc(r, xs) == xs[..Slot(r, xs)] + [r] + xs[Slot(r, xs)..]
    ensures forall a :: 0 <= a < |xs| ==> (a < Slot(r, xs) <==> xs[a].score > r.score)
    ensures Descending(InsertDesc(r, xs))
  {
    InsertIsSlot(r, xs);
    SlotDivides(r, xs);
    SlotKeepsOrder(r, xs);
  }

  lemma SlotKeepsOrder(r: Scored, xs: seq<Scored>)
    requires Descending(xs) && forall a :: 0 <= a < |xs| ==> (a < Slot(r, xs) <==> xs[a].score > r.score)
    ensures Descending(xs[..Slot(r, xs)] + [r] + xs[Slot(r, xs)..])
  {
  }

  /** Where result i ends up. */
  function Place(rs: seq<Scored>, i: nat): nat
    requires i < |rs|
    decreases |rs|
  {
    var rest := rs[1..];
    if i == 0 then Slot(rs[0], SortDesc(rest))
    else Place(rest, i - 1) + if rs[i].score > rs[0].score then 0 else 1
  }

  lemma {:induction false} SortPlaces(rs: seq<Scored>)
    ensures Descending(SortDesc(rs))
    ensures forall i :: 0 <= i < |rs| ==> Place(rs, i) < |rs| && SortDesc(rs)[Place(rs, i)] == rs[i]
  {
    if rs == [] {
    } else {
      var rest := rs[1..];
      SortPlaces(rest);
      InsertAtSlot(rs[0], SortDesc(rest));
      forall i | 0 <= i < |rs| ensures Place(rs, i) < |rs| && SortDesc(rs)[Place(rs, i)] == rs[i] {
        if i > 0 {
          assert SortDesc(rest)[Place(rest, i - 1)] == rest[i - 1] == rs[i];
        }
      }
    }
  }

  /** The first result against a later one. */
  lemma HeadPlace(rs: seq<Scored>, k: nat)
    requires 0 < k < |rs|
    ensures Place(rs, 0) < Place(rs, k) <==> rs[0].score >= rs[k].score
    ensures Place(rs, 0) != Place(rs, k)
  {
    var rest := rs[1..];
    SortPlaces(rest);
    InsertAtSlot(rs[0], SortDesc(rest));
    assert SortDesc(rest)[Place(rest, k - 1)] == rest[k - 1] == rs[k];
  }

  lemma {:induction false} PlacesFollowAbove(rs: seq<Scored>, i: nat, j: nat)
    requires i < |rs| && j < |rs| && i != j
    ensures Place(rs, i) < Place(rs, j) <==> Above(rs, i, j)
    ensures Place(rs, i) != Place(rs, j)
    decreases |rs|
  {
    if i == 0 {
      HeadPlace(rs, j);
    } else if j == 0 {
      HeadPlace(rs, i);
    } else {
      HeadPlace(rs, i);
      HeadPlace(rs, j);
      PlacesFollowAbove(rs[1..], i - 1, j - 1);
    }
  }

  lemma {:induction false} EveryPlaceIsTaken(rs: seq<Scored>, k: nat) returns (i: nat)
    requires k < |rs|
    ensures i < |rs| && Place(rs, i) == k
    decreases |rs|
  {
    var rest := rs[1..];
    SortPlaces(rest);
    InsertAtSlot(rs[0], SortDesc(rest));
    var slot := Slot(rs[0], SortDesc(rest));
    if k == slot {
      i := 0;
    } else {
      var below := if k < slot then k else k - 1;
      var i' := EveryPlaceIsTaken(rest, below);
      assert SortDesc(rest)[Place(rest, i')] == rest[i'] == rs[i' + 1];
      i := i' + 1;
    }
  }

  // ---------------------------------------------------------------- writing the ranks

  predicate Distinct(rs: seq<Scored>) { forall i, j :: 0 <= i < j < |rs| ==> rs[i].variant != rs[j].variant }

  function Ranked(v: Variant, rank: nat, r: Scored): Variant {
    v.(rank := Some(rank), score := Some(SR.Round4(r.score)), run := r.run)
  }

  /** The UPDATE of one result; it changes nothing when the variant is gone. */
  function WriteRank(vs: Table, rank: nat, r: Scored): Table {
    if r.variant in vs then vs[r.variant := Ranked(vs[r.variant], rank, r)] else vs
  }

  function WriteRanks(vs: Table, ranked: seq<Scored>): (out: Table)
    ensures out.Keys == vs.Keys
    decreases |ranked|
  {
    var n := |ranked|;
    if n == 0 then vs else WriteRank(WriteRanks(vs, ranked[..n - 1]), n, ranked[n - 1])
  }

  lemma {:induction false} WriteRanksRow(vs: Table, ranked: seq<Scored>, k: nat)
    requires Distinct(ranked) && k < |ranked| && ranked[k].variant in vs
    ensures WriteRanks(vs, ranked)[ranked[k].variant] == Ranked(vs[ranked[k].variant], k + 1, ranked[k])
    decreases |ranked|
  {
    var front := ranked[..|ranked| - 1];
    if k < |front| {
      WriteRanksRow(vs, front, k);
    } else {
      WriteRanksOther(vs, front, ranked[k].variant);
    }
  }

  lemma {:induction false} WriteRanksOther(vs: Table, ranked: seq<Scored>, v: Id)
    requires v in vs && forall k :: 0 <= k < |ranked| ==> ranked[k].variant != v
    ensures WriteRanks(vs, ranked)[v] == vs[v]
    decreases |ranked|
  {
    if ranked == [] {
    } else {
      WriteRanksOther(vs, ranked[..|ranked| - 1], v);
    }
  }

  lemma SortKeepsDistinct(rs: seq<Scored>)
    requires Distinct(rs)
    ensures Distinct(SortDesc(rs))
  {
    SortPlaces(rs);
    var out := SortDesc(rs);
    forall a, b | 0 <= a < b < |out| ensures out[a].variant != out[b].variant {
      var i := EveryPlaceIsTaken(rs, a);
      var j := EveryPlaceIsTaken(rs, b);
    }
  }

  /** The table after the fan-in's updates for these results. */
  function Persisted(vs: Table, rs: seq<Scored>): Table { WriteRanks(vs, SortDesc(rs)) }

  lemma SortPlaceAt(rs: seq<Scored>, i: nat)
    requires i < |rs|
    ensures Place(rs, i) < |rs| && SortDesc(rs)[Place(rs, i)] == rs[i]
  {
    SortPlaces(rs);
  }

  lemma RowWritten(vs: Table, ranked: seq<Scored>, k: nat, r: Scored)
    requires Distinct(ranked) && k < |ranked| && ranked[k] == r && r.variant in vs
    ensures WriteRanks(vs, ranked)[r.variant] == Ranked(vs[r.variant], k + 1, r)
  {
    WriteRanksRow(vs, ranked, k);
  }

  lemma PersistedRow(vs: Table, rs: seq<Scored>, i: nat)
    requires Distinct(rs) && i < |rs| && rs[i].variant in vs
    ensures Persisted(vs, rs)[rs[i].variant] == Ranked(vs[rs[i].variant], Place(rs, i) + 1, rs[i])
  {
    SortPlaceAt(rs, i);
    SortKeepsDistinct(rs);
    RowWritten(vs, SortDesc(rs), Place(rs, i), rs[i]);
  }

  lemma PersistedOther(vs: Table, rs: seq<Scored>, v: Id)
    requires v in vs && forall i :: 0 <= i < |rs| ==> rs[i].variant != v
    ensures Persisted(vs, rs)[v] == vs[v]
  {
    SortPlaces(rs);
    forall k | 0 <= k < |rs| ensures SortDesc(rs)[k].variant != v {
      var i := EveryPlaceIsTaken(rs, k);
    }
    WriteRanksOther(vs, SortDesc(rs), v);
  }

  /** Every rank from 1 to n is held by exactly one of the n variants, a higher score ranks higher, equal scores
      rank in input order, and the stored score and run are the result's own. */
  ghost predicate Standings(vs: Table, rs: seq<Scored>) {
    && (forall i :: 0 <= i < |rs| ==> StoresResult(vs, rs[i]) && 1 <= RankOf(vs, rs[i].variant) <= |rs|)
    && (forall k :: 1 <= k <= |rs| ==> Held(vs, rs, k))
    && (forall i, j :: 0 <= i < |rs| && 0 <= j < |rs| && i != j ==> RankedApart(vs, rs, i, j))
  }

  predicate StoresResult(vs: Table, r: Scored) {
    && r.variant in vs
    && vs[r.variant].rank.Some?
    && vs[r.variant].score == Some(SR.Round4(r.score))
    && vs[r.variant].run == r.run
  }

  /** The stored rank, 0 when there is none. */
  function RankOf(vs: Table, v: Id): nat { if v in vs && vs[v].rank.Some? then vs[v].rank.value else 0 }

  predicate Held(vs: Table, rs: seq<Scored>, k: nat) {
    exists i :: 0 <= i < |rs| && RankOf(vs, rs[i].variant) == k
  }

  predicate RankedApart(vs: Table, rs: seq<Scored>, i: nat, j: nat)
    requires i < |rs| && j < |rs|
  {
    && RankOf(vs, rs[i].variant) != RankOf(vs, rs[j].variant)
    && (RankOf(vs, rs[i].variant) < RankOf(vs, rs[j].variant) <==> Above(rs, i, j))
  }

  /** What the ranking promises, when no fetched variant has gone in the meantime. */
  lemma RanksAreStandings(vs: Table, rs: seq<Scored>)
    requires Distinct(rs) && forall i :: 0 <= i < |rs| ==> rs[i].variant in vs
    ensures Standings(Persisted(vs, rs), rs)
    ensures forall v :: v in vs && (forall i :: 0 <= i < |rs| ==> rs[i].variant != v) ==> Persisted(vs, rs)[v] == vs[v]
  {
    var out := Persisted(vs, rs);
    forall i | 0 <= i < |rs| ensures RankOf(out, rs[i].variant) == Place(rs, i) + 1 <= |rs| && StoresResult(out, rs[i]) {
      PersistedRow(vs, rs, i);
      SortPlaces(rs);
    }
    forall k | 1 <= k <= |rs| ensures Held(out, rs, k) {
      var i := EveryPlaceIsTaken(rs, k - 1);
      assert RankOf(out, rs[i].variant) == k;
    }
    forall i, j | 0 <= i < |rs| && 0 <= j < |rs| && i != j ensures RankedApart(out, rs, i, j) {
      PlacesFollowAbove(rs, i, j);
    }
    forall v | v in vs && forall i :: 0 <= i < |rs| ==> rs[i].variant != v ensures out[v] == vs[v] {
      PersistedOther(vs, rs, v);
    }
  }

  // ---------------------------------------------------------------- one competition, undisturbed

  /** The inference a mapped task would get for each variant: the score, and the id of the run it stores. */
  type Inference = Id -> (real, Id)

  function ResultFor(vs: Table, v: Id, infer: Inference): Scored {
    if v in vs && vs[v].score.Some? then Scored(v, Float4(vs[v].score.value), None)
    else Scored(v, infer(v).0, Some(infer(v).1))
  }

  function Results(vs: Table, order: seq<Id>, infer: Inference): (rs: seq<Scored>)
    ensures |rs| == |order|
  {
    seq(|order|, (i: nat) requires i < |order| => ResultFor(vs, order[i], infer))
  }

  function Competed(vs: Table, order: seq<Id>, infer: Inference): Table { Persisted(vs, Results(vs, order, infer)) }

  predicate NoRepeats(order: seq<Id>) { forall i, j :: 0 <= i < j < |order| ==> order[i] != order[j] }

  ghost predicate Fetched(vs: Table, order: seq<Id>) { NoRepeats(order) && forall i :: 0 <= i < |order| ==> order[i] in vs }

  /** After a competition every fetched variant has a score, so the next one infers nothing for them. */
  lemma CompetedIsScored(vs: Table, order: seq<Id>, infer: Inference)
    requires Fetched(vs, order)
    ensures Competed(vs, order, infer).Keys == vs.Keys
    ensures Standings(Competed(vs, order, infer), Results(vs, order, infer))
    ensures forall i :: 0 <= i < |order| ==> Competed(vs, order, infer)[order[i]].score.Some?
    ensures forall i :: 0 <= i < |order| && vs[order[i]].score.Some? ==>
      Competed(vs, order, infer)[order[i]].score == vs[order[i]].score
    ensures forall v :: v in vs && v !in order ==> Competed(vs, order, infer)[v] == vs[v]
  {
    var rs := Results(vs, order, infer);
    RanksAreStandings(vs, rs);
    forall i | 0 <= i < |order|
      ensures Competed(vs, order, infer)[order[i]].score.Some?
      ensures vs[order[i]].score.Some? ==> Competed(vs, order, infer)[order[i]].score == vs[order[i]].score
    {
      assert rs[i].variant == order[i];
      if vs[order[i]].score.Some? { StoredScoreReadsBack(vs[order[i]].score.value); }
    }
  }

  /** A re-run over the same variants uses no inference at all, whatever inference would have said. */
  lemma RerunIgnoresInference(vs: Table, first: seq<Id>, again: seq<Id>, infer: Inference, other: Inference, another: Inference)
    requires Fetched(vs, first) && Fetched(vs, again) && forall v :: v in again ==> v in first
    ensures var once := Competed(vs, first, infer);
      && Results(once, again, other) == Results(once, again, another)
      && forall i :: 0 <= i < |again| ==> Results(once, again, other)[i].run == None
  {
    CompetedIsScored(vs, first, infer);
    var once := Competed(vs, first, infer);
    forall i | 0 <= i < |again| ensures once[again[i]].score.Some? {
      assert again[i] in first;
    }
    var one, two := Results(once, again, other), Results(once, again, another);
    forall i | 0 <= i < |again| ensures one[i] == two[i] {}
    assert one == two;
  }

  /** From the second competition on, ranks, scores and run links no longer change. */
  lemma SecondRunIsFixedPoint(vs: Table, order: seq<Id>, infer: Inference, other: Inference, another: Inference)
    requires Fetched(vs, order)
    ensures var once := Competed(vs, order, infer);
      var twice := Competed(once, order, other);
      && Competed(twice, order, another) == twice
      && (forall v :: v in order ==> twice[v].run == None && twice[v].score == once[v].score)
  {
    var once := Competed(vs, order, infer);
    var twice := Competed(once, order, other);
    CompetedIsScored(vs, order, infer);
    CompetedIsScored(once, order, other);
    var rs := Results(once, order, other);
    assert Results(twice, order, another) == rs;
    PersistTwice(once, rs);
    forall v | v in order ensures twice[v].run == None && twice[v].score == once[v].score {
      var i :| 0 <= i < |order| && order[i] == v;
      assert rs[i].variant == v;
      assert StoresResult(twice, rs[i]);
    }
  }

  /** Writing the same results again changes nothing. */
  lemma PersistTwice(vs: Table, rs: seq<Scored>)
    requires Distinct(rs)
    ensures Persisted(Persisted(vs, rs), rs) == Persisted(vs, rs)
  {
    var once := Persisted(vs, rs);
    forall v | v in vs ensures Persisted(once, rs)[v] == once[v] {
      if i :| 0 <= i < |rs| && rs[i].variant == v {
        PersistedRow(vs, rs, i);
        PersistedRow(once, rs, i);
      } else {
        PersistedOther(once, rs, v);
      }
    }
  }

  /** The re-run orders two variants the other way round exactly when their scores round to the same four decimals
      and the second fetch returned them the other way round. */
  lemma RerunSwapsExactly(vs: Table, first: seq<Id>, again: seq<Id>, infer: Inference, other: Inference,
                          i: nat, j: nat, i': nat, j': nat)
    requires Fetched(vs, first) && Fetched(vs, again)
    requires |again| == |first| && i < |first| && j < |first| && i' < |again| && j' < |again|
    requires forall v :: v in again <==> v in first
    requires first[i] == again[i'] && first[j] == again[j'] && i != j
    requires var once := Competed(vs, first, infer); RankOf(once, first[i]) < RankOf(once, first[j])
    ensures var once := Competed(vs, first, infer);
      var twice := Competed(once, again, other);
      RankOf(twice, first[j]) < RankOf(twice, first[i]) <==>
      once[first[i]].score == once[first[j]].score && j' < i'
  {
    var once := Competed(vs, first, infer);
    var twice := Competed(once, again, other);
    CompetedIsScored(vs, first, infer);
    CompetedIsScored(once, again, other);
    var rs := Results(vs, first, infer);
    var rs' := Results(once, again, other);
    assert rs[i].variant == first[i] && rs[j].variant == first[j];
    assert rs'[i'].variant == first[i] && rs'[j'].variant == first[j];
    assert RankedApart(once, rs, i, j) && RankedApart(twice, rs', i', j');
    RoundingKeepsOrder(rs[j].score, rs[i].score);
    var a, b := once[first[i]].score.value, once[first[j]].score.value;
    assert rs'[i'].score == Float4(a) && rs'[j'].score == Float4(b);
  }
}
