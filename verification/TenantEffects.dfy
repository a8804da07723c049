/** What each request does to the store and answers, row by row, in terms of the rows alone. */
module TenantEffects {
  import opened Prelude
  import opened TenantStore

  /** Nothing changes in the table but the given row. */
  ghost predicate OnlyRow<T>(before: map<Id, T>, after: map<Id, T>, id: Id) {
    after.Keys == before.Keys + {id} && forall k :: k in before && k != id ==> after[k] == before[k]
  }

  lemma CreateSegmentStores(db: Db, o: Id, id: Id, name: string, description: Option<string>, definition: string, at: int)
    requires id !in db.segments
    ensures
      var out := Step(db, Request(o, CreateSegment(id, name, description, definition, at)));
      && OnlyRow(db.segments, out.db.segments, id)
      && out.db.segments[id] == Segment(o, name, description, definition, true, at)
      && out.db == db.(segments := out.db.segments)
      && out.response == SegmentIs(id, out.db.segments[id])
  {
  }

  /** A found segment takes the fields that are given; a new definition, and nothing else, makes it stale. */
  lemma UpdateSegmentWrites(db: Db, o: Id, id: Id, name: Option<string>, description: Option<string>, definition: Option<string>)
    requires id in db.segments && db.segments[id].org == o
    ensures
      var out := Step(db, Request(o, UpdateSegment(Uuid(id), name, description, definition)));
      && OnlyRow(db.segments, out.db.segments, id)
      && out.db == db.(segments := out.db.segments)
      && out.response == SegmentIs(id, out.db.segments[id])
      && var was, row := db.segments[id], out.db.segments[id];
         && row.org == was.org && row.createdAt == was.createdAt
         && (if name.Some? then row.name == name.value else row.name == was.name)
         && (if description.Some? then row.description == description else row.description == was.description)
         && (if definition.Some? then row.definition == definition.value && row.isStale
             else row.definition == was.definition && row.isStale == was.isStale)
  {
  }

  /** An org's segment goes, and with it every run of it; campaigns aimed at it lose their target; nothing else changes. */
  lemma DeleteSegmentRemoves(db: Db, o: Id, id: Id)
    requires id in db.segments && db.segments[id].org == o
    ensures
      var out := Step(db, Request(o, DeleteSegment(Uuid(id))));
      var t := out.db;
      && out.response == NoContent
      && (forall s :: s in t.segments <==> s in db.segments && s != id)
      && (forall s :: s in t.segments ==> t.segments[s] == db.segments[s])
      && (forall r :: r in t.runs <==> r in db.runs && db.runs[r].segment != id)
      && (forall r :: r in t.runs ==> t.runs[r] == db.runs[r])
      && t.campaigns.Keys == db.campaigns.Keys && t.variants == db.variants
      && (forall c :: c in t.campaigns ==>
            if db.campaigns[c].segment == Some(id) then t.campaigns[c] == db.campaigns[c].(segment := None)
            else t.campaigns[c] == db.campaigns[c])
  {
  }

  lemma CreateCampaignStores(db: Db, o: Id, id: Id, name: string, description: Option<string>, target: IdText, at: int)
    requires id !in db.campaigns
    ensures
      var out := Step(db, Request(o, CreateCampaign(id, name, description, target, at)));
      if target.Malformed? then out == Outcome(db, Fail(422))
      else if target.Uuid? && target.id !in db.segments then out == Outcome(db, Fail(500))
      else
        && OnlyRow(db.campaigns, out.db.campaigns, id)
        && out.db.campaigns[id] ==
             Campaign(o, if target.Uuid? then Some(target.id) else None, name, description, "draft", at)
        && out.db == db.(campaigns := out.db.campaigns)
        && out.response == CampaignIs(id, out.db.campaigns[id])
  {
  }

  lemma UpdateCampaignWrites(db: Db, o: Id, id: Id, name: Option<string>, description: Option<string>, status: Option<string>,
                             target: IdText)
    requires id in db.campaigns && db.campaigns[id].org == o
    ensures
      var out := Step(db, Request(o, UpdateCampaign(Uuid(id), name, description, status, target)));
      if target.Blank? || target.Malformed? then out == Outcome(db, Fail(422))
      else if target.Uuid? && target.id !in db.segments then out == Outcome(db, Fail(500))
      else
        && OnlyRow(db.campaigns, out.db.campaigns, id)
        && out.db == db.(campaigns := out.db.campaigns)
        && out.response == CampaignIs(id, out.db.campaigns[id])
        && var was, row := db.campaigns[id], out.db.campaigns[id];
           && row.org == was.org && row.createdAt == was.createdAt
           && (if name.Some? then row.name == name.value else row.name == was.name)
           && (if description.Some? then row.description == description else row.description == was.description)
           && (if status.Some? then row.status == status.value else row.status == was.status)
           && (if target.Uuid? then row.segment == Some(target.id) else row.segment == was.segment)
  {
  }

  /** An org's campaign goes with its variants; nothing else changes. */
  lemma DeleteCampaignRemoves(db: Db, o: Id, id: Id)
    requires id in db.campaigns && db.campaigns[id].org == o
    ensures
      var out := Step(db, Request(o, DeleteCampaign(Uuid(id))));
      var t := out.db;
      && out.response == NoContent && t.segments == db.segments && t.runs == db.runs
      && (forall c :: c in t.campaigns <==> c in db.campaigns && c != id)
      && (forall c :: c in t.campaigns ==> t.campaigns[c] == db.campaigns[c])
      && (forall v :: v in t.variants <==> v in db.variants && db.variants[v].campaign != id)
      && (forall v :: v in t.variants ==> t.variants[v] == db.variants[v])
  {
  }

  lemma AddVariantStores(db: Db, o: Id, c: Id, id: Id, name: string, stimulus: string, hasType: bool, at: int)
    requires c in db.campaigns && db.campaigns[c].org == o && id !in db.variants
    ensures
      var out := Step(db, Request(o, AddVariant(Uuid(c), id, name, stimulus, hasType, at)));
      if !hasType then out == Outcome(db, Fail(422))
      else
        && OnlyRow(db.variants, out.db.variants, id)
        && out.db.variants[id] == Variant(c, name, stimulus, at)
        && out.db == db.(variants := out.db.variants)
        && out.response == VariantIs(id, out.db.variants[id])
  {
  }

  /** A variant goes only through its own campaign. */
  lemma DeleteVariantRemoves(db: Db, o: Id, c: Id, v: Id)
    requires c in db.campaigns && db.campaigns[c].org == o
    ensures
      var out := Step(db, Request(o, DeleteVariant(Uuid(c), Uuid(v))));
      if v in db.variants && db.variants[v].campaign == c
      then
        && out.response == NoContent && out.db == db.(variants := out.db.variants)
        && (forall k :: k in out.db.variants <==> k in db.variants && k != v)
        && (forall k :: k in out.db.variants ==> out.db.variants[k] == db.variants[k])
      else out == Outcome(db, Fail(404))
  {
  }

  lemma AddRunStores(db: Db, o: Id, s: Id, id: Id, at: int)
    requires s in db.segments && db.segments[s].org == o && id !in db.runs
    ensures
      var out := Step(db, Request(o, AddRun(Uuid(s), id, at)));
      && OnlyRow(db.runs, out.db.runs, id) && out.db.runs[id] == SimRun(o, s, at)
      && out.db == db.(runs := out.db.runs) && out.response == RunIs(id, out.db.runs[id])
  {
  }

  /** After an erase nothing of the org is left, and of the others' rows nothing is changed but the targets of campaigns
      that were aimed at its segments. */
  ghost predicate ErasedRows(db: Db, t: Db, o: Id) {
    && (forall s :: s in t.segments <==> s in db.segments && db.segments[s].org != o)
    && (forall s :: s in t.segments ==> t.segments[s] == db.segments[s])
    && (forall c :: c in t.campaigns <==> c in db.campaigns && db.campaigns[c].org != o)
    && (forall c :: c in t.campaigns ==>
          var target := db.campaigns[c].segment;
          if target.Some? && target.value in db.segments && db.segments[target.value].org == o
          then t.campaigns[c] == db.campaigns[c].(segment := None)
          else t.campaigns[c] == db.campaigns[c])
    && (forall v :: v in t.variants <==>
          v in db.variants && db.variants[v].campaign in db.campaigns && db.campaigns[db.variants[v].campaign].org != o)
    && (forall v :: v in t.variants ==> t.variants[v] == db.variants[v])
    && (forall r :: r in t.runs <==> r in db.runs && db.runs[r].org != o)
    && (forall r :: r in t.runs ==> t.runs[r] == db.runs[r])
  }

  lemma EraseSpelled(db: Db, o: Id)
    requires Wf(db)
    ensures ErasedRows(db, Erased(db, o), o)
  {
    var db1 := db.(runs := db.runs - RunsOf(db, o));
    assert SegmentsOf(DropCampaigns(db1, CampaignsOf(db, o)), o) == SegmentsOf(db, o);
  }

  /** Clearing reports the rows it removed: what was there is what is left and what is reported. */
  lemma ClearErases(db: Db, o: Id)
    requires Wf(db)
    ensures
      var out := Step(db, Request(o, ClearDatabase));
      && ErasedRows(db, out.db, o) && out.response.Cleared?
      && |db.segments| == |out.db.segments| + out.response.segments
      && |db.campaigns| == |out.db.campaigns| + out.response.campaigns
      && |db.runs| == |out.db.runs| + out.response.runs
  {
    ClearIs(db, o);
    EraseSpelled(db, o);
    ErasedCounts(db, Erased(db, o), o);
  }

  lemma ClearIs(db: Db, o: Id)
    ensures Step(db, Request(o, ClearDatabase)) ==
      Outcome(Erased(db, o), Cleared(|SegmentsOf(db, o)|, |CampaignsOf(db, o)|, |RunsOf(db, o)|))
  {
  }

  lemma ErasedCounts(db: Db, t: Db, o: Id)
    requires ErasedRows(db, t, o)
    ensures |db.segments| == |t.segments| + |SegmentsOf(db, o)|
    ensures |db.campaigns| == |t.campaigns| + |CampaignsOf(db, o)|
    ensures |db.runs| == |t.runs| + |RunsOf(db, o)|
  {
    Remaining(db.segments, t.segments, SegmentsOf(db, o));
    Remaining(db.campaigns, t.campaigns, CampaignsOf(db, o));
    Remaining(db.runs, t.runs, RunsOf(db, o));
  }

  lemma Remaining<T>(before: map<Id, T>, after: map<Id, T>, gone: set<Id>)
    requires gone <= before.Keys && forall k :: k in after <==> k in before && k !in gone
    ensures |before| == |after| + |gone|
  {
    assert before.Keys == after.Keys + gone;
    assert |before.Keys| == |after.Keys| + |gone|;
  }

  /** Only an admin erases an org. */
  lemma EraseNeedsAdmin(db: Db, o: Id, isAdmin: bool)
    requires Wf(db)
    ensures
      var out := Step(db, Request(o, DeleteOrgData(isAdmin)));
      if isAdmin then ErasedRows(db, out.db, o) && out.response == NoContent else out == Outcome(db, Fail(403))
  {
    EraseSpelled(db, o);
  }

  /** What is not there, or is another org's, is not found; a malformed id is refused; and nothing changes. */
  lemma MissingIsRefused(db: Db, r: Request, t: IdText)
    requires
      match r.op
      case UpdateSegment(s, _, _, _) => t == s && (t.Uuid? ==> t.id !in db.segments || db.segments[t.id].org != r.org)
      case DeleteSegment(s) => t == s && (t.Uuid? ==> t.id !in db.segments || db.segments[t.id].org != r.org)
      case GetSegment(s) => t == s && (t.Uuid? ==> t.id !in db.segments || db.segments[t.id].org != r.org)
      case AddRun(s, _, _) => t == s && (t.Uuid? ==> t.id !in db.segments || db.segments[t.id].org != r.org)
      case UpdateCampaign(c, _, _, _, _) => t == c && (t.Uuid? ==> t.id !in db.campaigns || db.campaigns[t.id].org != r.org)
      case DeleteCampaign(c) => t == c && (t.Uuid? ==> t.id !in db.campaigns || db.campaigns[t.id].org != r.org)
      case GetCampaign(c) => t == c && (t.Uuid? ==> t.id !in db.campaigns || db.campaigns[t.id].org != r.org)
      case AddVariant(c, _, _, _, _, _) => t == c && (t.Uuid? ==> t.id !in db.campaigns || db.campaigns[t.id].org != r.org)
      case ListVariants(c) => t == c && (t.Uuid? ==> t.id !in db.campaigns || db.campaigns[t.id].org != r.org)
      case DeleteVariant(c, _) => t == c && (t.Uuid? ==> t.id !in db.campaigns || db.campaigns[t.id].org != r.org)
      case GetRun(g) => t == g && (t.Uuid? ==> t.id !in db.runs || db.runs[t.id].org != r.org)
      case _ => false
    ensures Step(db, r) == Outcome(db, Fail(if t.Uuid? then 404 else 422))
  {
  }

  /** Reading one row shows it. */
  lemma GetShows(db: Db, o: Id, id: Id)
    ensures id in db.segments && db.segments[id].org == o ==>
      Step(db, Request(o, GetSegment(Uuid(id)))) == Outcome(db, SegmentIs(id, db.segments[id]))
    ensures id in db.campaigns && db.campaigns[id].org == o ==>
      Step(db, Request(o, GetCampaign(Uuid(id)))) == Outcome(db, CampaignIs(id, db.campaigns[id]))
    ensures id in db.runs && db.runs[id].org == o ==>
      Step(db, Request(o, GetRun(Uuid(id)))) == Outcome(db, RunIs(id, db.runs[id]))
  {
  }

  /** A page of a listing: as many ids as are left, from its offset on. */
  lemma PageOf(ids: seq<Id>, page: int, size: int)
    requires page >= 1 && size >= 1
    ensures
      var p, from := Slice(ids, page, size), (page - 1) * size;
      && (from >= |ids| ==> p == [])
      && (from < |ids| ==> |p| == if from + size <= |ids| then size else |ids| - from)
      && (forall i :: 0 <= i < |p| ==> p[i] == ids[from + i])
  {
    assert 0 <= (page - 1) * size;
  }

  /** The segment listing: the total, and page after page the org's segments, each once, newest first. */
  lemma ListSegmentsShows(db: Db, o: Id, page: int, size: int)
    requires page >= 1 && 1 <= size <= 100
    ensures
      var resp, order := Step(db, Request(o, ListSegments(page, size))).response, SegmentOrder(db, o);
      && (forall s :: s in order <==> s in db.segments && db.segments[s].org == o)
      && (forall i, j :: 0 <= i < j < |order| ==>
            order[i] != order[j] && db.segments[order[i]].createdAt >= db.segments[order[j]].createdAt)
      && resp.SegmentPage? && resp.total == |order|
      && |resp.segmentItems| == |Slice(order, page, size)|
      && (forall i :: 0 <= i < |resp.segmentItems| ==>
            resp.segmentItems[i].0 == Slice(order, page, size)[i] && resp.segmentItems[i].0 in db.segments
            && resp.segmentItems[i].1 == db.segments[resp.segmentItems[i].0])
  {
    SegmentOrderFalls(db, o);
    var resp, order := Step(db, Request(o, ListSegments(page, size))).response, SegmentOrder(db, o);
    var ids := Slice(order, page, size);
    assert |resp.segmentItems| == |ids|;
  }

  lemma SegmentOrderFalls(db: Db, o: Id)
    ensures
      var order := SegmentOrder(db, o);
      && (forall s :: s in order <==> s in db.segments && db.segments[s].org == o)
      && (forall i, j :: 0 <= i < j < |order| ==>
            order[i] != order[j] && db.segments[order[i]].createdAt >= db.segments[order[j]].createdAt)
      && |order| == |SegmentsOf(db, o)|
  {
    NewestFirstSorted(SegmentTimes(db, o));
    assert SegmentTimes(db, o).Keys == SegmentsOf(db, o);
  }

  lemma ListCampaignsShows(db: Db, o: Id, page: int, size: int)
    requires page >= 1 && 1 <= size <= 100
    ensures
      var resp, order := Step(db, Request(o, ListCampaigns(page, size))).response, CampaignOrder(db, o);
      && (forall c :: c in order <==> c in db.campaigns && db.campaigns[c].org == o)
      && (forall i, j :: 0 <= i < j < |order| ==>
            order[i] != order[j] && db.campaigns[order[i]].createdAt >= db.campaigns[order[j]].createdAt)
      && resp.CampaignPage? && resp.total == |order|
      && |resp.campaignItems| == |Slice(order, page, size)|
      && (forall i :: 0 <= i < |resp.campaignItems| ==>
            resp.campaignItems[i].0 == Slice(order, page, size)[i] && resp.campaignItems[i].0 in db.campaigns
            && resp.campaignItems[i].1 == db.campaigns[resp.campaignItems[i].0])
  {
    CampaignOrderFalls(db, o);
    var resp, order := Step(db, Request(o, ListCampaigns(page, size))).response, CampaignOrder(db, o);
    var ids := Slice(order, page, size);
    assert |resp.campaignItems| == |ids|;
  }

  lemma CampaignOrderFalls(db: Db, o: Id)
    ensures
      var order := CampaignOrder(db, o);
      && (forall c :: c in order <==> c in db.campaigns && db.campaigns[c].org == o)
      && (forall i, j :: 0 <= i < j < |order| ==>
            order[i] != order[j] && db.campaigns[order[i]].createdAt >= db.campaigns[order[j]].createdAt)
      && |order| == |CampaignsOf(db, o)|
  {
    NewestFirstSorted(CampaignTimes(db, o));
    assert CampaignTimes(db, o).Keys == CampaignsOf(db, o);
  }

  /** Runs are listed for the org, of one segment if it is given. */
  lemma ListRunsShows(db: Db, o: Id, t: IdText, page: int, size: int)
    requires page >= 1 && 1 <= size <= 100
    ensures
      var resp, order := Step(db, Request(o, ListRuns(t, page, size))).response, RunOrder(db, o, t);
      if t.Blank? || t.Malformed? then resp == Fail(422)
      else
        && (forall r :: r in order <==> r in db.runs && db.runs[r].org == o && (t.Uuid? ==> db.runs[r].segment == t.id))
        && (forall i, j :: 0 <= i < j < |order| ==>
              order[i] != order[j] && db.runs[order[i]].createdAt >= db.runs[order[j]].createdAt)
        && resp.RunPage? && resp.total == |order| && |resp.runItems| == |Slice(order, page, size)|
        && (forall i :: 0 <= i < |resp.runItems| ==>
              resp.runItems[i].0 == Slice(order, page, size)[i] && resp.runItems[i].0 in db.runs
              && resp.runItems[i].1 == db.runs[resp.runItems[i].0])
  {
    NewestFirstSorted(RunTimes(db, o, t));
    RunItemsAre(db, Slice(RunOrder(db, o, t), page, size));
  }

  lemma {:induction false} RunItemsAre(db: Db, ids: seq<Id>)
    requires forall k :: k in ids ==> k in db.runs
    ensures
      var items := RunItems(db, ids);
      |items| == |ids| && forall i :: 0 <= i < |ids| ==> items[i] == (ids[i], db.runs[ids[i]])
  {
    if ids == [] {
    } else {
      RunItemsAre(db, ids[1..]);
    }
  }

  /** A campaign's variants, each once, oldest first. */
  lemma ListVariantsShows(db: Db, o: Id, c: Id)
    requires c in db.campaigns && db.campaigns[c].org == o
    ensures
      var resp := Step(db, Request(o, ListVariants(Uuid(c)))).response;
      resp.VariantList? && OldestFirstOf(db, c, resp.variantItems)
  {
    ListVariantsIs(db, o, c);
    VariantItemsFall(db, c);
  }

  lemma VariantItemsFall(db: Db, c: Id)
    ensures OldestFirstOf(db, c, OldestFirst(db, VariantsNewest(db, c)))
  {
    VariantsFall(db, c);
    OldestFirstIsReverse(db, VariantsNewest(db, c));
    ReversedFall(db, c, VariantsNewest(db, c), OldestFirst(db, VariantsNewest(db, c)));
  }

  lemma ListVariantsIs(db: Db, o: Id, c: Id)
    requires c in db.campaigns && db.campaigns[c].org == o
    ensures Step(db, Request(o, ListVariants(Uuid(c)))).response == VariantList(OldestFirst(db, VariantsNewest(db, c)))
  {
  }

  ghost predicate OldestFirstOf(db: Db, c: Id, items: seq<(Id, Variant)>) {
    && (forall i :: 0 <= i < |items| ==> ShowsVariant(db, c, items[i]))
    && (forall i, j :: 0 <= i < j < |items| ==> items[i].0 != items[j].0 && items[i].1.createdAt <= items[j].1.createdAt)
    && (forall v :: v in db.variants && db.variants[v].campaign == c ==> (v, db.variants[v]) in items)
  }

  lemma ReversedFall(db: Db, c: Id, ids: seq<Id>, items: seq<(Id, Variant)>)
    requires forall v :: v in ids <==> v in db.variants && db.variants[v].campaign == c
    requires forall i, j :: 0 <= i < j < |ids| ==>
      ids[i] != ids[j] && db.variants[ids[i]].createdAt >= db.variants[ids[j]].createdAt
    requires |items| == |ids| && forall i :: 0 <= i < |ids| ==> items[i] == (ids[|ids| - 1 - i], db.variants[ids[|ids| - 1 - i]])
    ensures OldestFirstOf(db, c, items)
  {
    forall i, j | 0 <= i < j < |items| ensures items[i].0 != items[j].0 && items[i].1.createdAt <= items[j].1.createdAt {
      var a, b := |ids| - 1 - j, |ids| - 1 - i;
      assert ids[a] != ids[b] && db.variants[ids[a]].createdAt >= db.variants[ids[b]].createdAt;
    }
    forall v | v in db.variants && db.variants[v].campaign == c ensures (v, db.variants[v]) in items {
      assert v in ids;
      var k :| 0 <= k < |ids| && ids[k] == v;
      assert items[|ids| - 1 - k] == (v, db.variants[v]);
    }
  }

  lemma VariantsFall(db: Db, c: Id)
    ensures
      var ids := VariantsNewest(db, c);
      && (forall v :: v in ids <==> v in db.variants && db.variants[v].campaign == c)
      && (forall i, j :: 0 <= i < j < |ids| ==>
            ids[i] != ids[j] && db.variants[ids[i]].createdAt >= db.variants[ids[j]].createdAt)
  {
    NewestFirstSorted(VariantTimes(db, c));
  }

  predicate ShowsVariant(db: Db, c: Id, item: (Id, Variant)) {
    item.0 in db.variants && item.1 == db.variants[item.0] && item.1.campaign == c
  }

  lemma {:induction false} OldestFirstIsReverse(db: Db, ids: seq<Id>)
    requires forall k :: k in ids ==> k in db.variants
    ensures
      var items := OldestFirst(db, ids);
      |items| == |ids| && forall i :: 0 <= i < |ids| ==> items[i] == (ids[|ids| - 1 - i], db.variants[ids[|ids| - 1 - i]])
  {
    if ids == [] {
    } else {
      OldestFirstIsReverse(db, ids[1..]);
    }
  }

  /** The statistics count exactly the org's rows. */
  lemma StatsCount(db: Db, o: Id)
    ensures Step(db, Request(o, GetStats)) ==
      Outcome(db, Counts(|SegmentsOf(db, o)|, |CampaignsOf(db, o)|, |VariantsOf(db, o)|, |RunsOf(db, o)|))
    ensures forall s :: s in SegmentsOf(db, o) <==> s in db.segments && db.segments[s].org == o
    ensures forall c :: c in CampaignsOf(db, o) <==> c in db.campaigns && db.campaigns[c].org == o
    ensures forall r :: r in RunsOf(db, o) <==> r in db.runs && db.runs[r].org == o
    ensures forall v :: v in VariantsOf(db, o) <==>
      v in db.variants && db.variants[v].campaign in db.campaigns && db.campaigns[db.variants[v].campaign].org == o
  {
  }

  /** A page out of range is refused. */
  lemma PageOutOfRange(db: Db, o: Id, page: int, size: int)
    requires page < 1 || size < 1 || size > 100
    ensures Step(db, Request(o, ListSegments(page, size))) == Outcome(db, Fail(422))
    ensures Step(db, Request(o, ListCampaigns(page, size))) == Outcome(db, Fail(422))
    ensures Step(db, Request(o, ListRuns(Absent, page, size))) == Outcome(db, Fail(422))
  {
  }
}
