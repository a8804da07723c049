/** The org-scoped store: segments, campaigns, variants and simulation runs behind the API.

    A request either commits or is rolled back as a whole.  Foreign keys behave as in the
    migrations: deleting a segment deletes its runs and sets the segment of every campaign
    that names it to NULL; deleting a campaign deletes its variants. */
module TenantStore {
  import opened Prelude

  type Id = nat

  datatype Segment = Segment(org: Id, name: string, description: Option<string>,
                             definition: string, isStale: bool, createdAt: int)
  datatype Campaign = Campaign(org: Id, segment: Option<Id>, name: string,
                               description: Option<string>, status: string, createdAt: int)
  datatype Variant = Variant(campaign: Id, name: string, stimulus: string, createdAt: int)
  datatype SimRun = SimRun(org: Id, segment: Id, createdAt: int)

  datatype Db = Db(segments: map<Id, Segment>, campaigns: map<Id, Campaign>,
                   variants: map<Id, Variant>, runs: map<Id, SimRun>)

  /** How the text of an id field parses. */
  datatype IdText = Absent | Blank | Malformed | Uuid(id: Id)

  /** What a request does to the store.  AddRun is the part of a run start that begins once the start has been let
      through; everything before it is in OrgIsolation. */
  datatype Op =
    | CreateSegment(newId: Id, name: string, description: Option<string>, definition: string, at: int)
    | UpdateSegment(segment: IdText, name': Option<string>, description: Option<string>, definition': Option<string>)
    | DeleteSegment(segment: IdText)
    | GetSegment(segment: IdText)
    | ListSegments(page: int, size: int)
    | CreateCampaign(newId: Id, name: string, description: Option<string>, target: IdText, at: int)
    | UpdateCampaign(campaign: IdText, name': Option<string>, description: Option<string>,
                     status: Option<string>, target: IdText)
    | DeleteCampaign(campaign: IdText)
    | GetCampaign(campaign: IdText)
    | ListCampaigns(page: int, size: int)
    | AddVariant(campaign: IdText, newId: Id, name: string, stimulus: string, hasType: bool, at: int)
    | ListVariants(campaign: IdText)
    | DeleteVariant(campaign: IdText, variant: IdText)
    | AddRun(segment: IdText, newId: Id, at: int)
    | GetRun(run: IdText)
    | ListRuns(ofSegment: IdText, page: int, size: int)
    | GetStats
    | ClearDatabase
    | DeleteOrgData(isAdmin: bool)

  datatype Request = Request(org: Id, op: Op)

  datatype Response =
    | SegmentIs(id: Id, segment: Segment)
    | CampaignIs(id: Id, campaign: Campaign)
    | VariantIs(id: Id, variant: Variant)
    | RunIs(id: Id, run: SimRun)
    | SegmentPage(segmentItems: seq<(Id, Segment)>, total: nat)
    | CampaignPage(campaignItems: seq<(Id, Campaign)>, total: nat)
    | VariantList(variantItems: seq<(Id, Variant)>)
    | RunPage(runItems: seq<(Id, SimRun)>, total: nat)
    | Counts(segments: nat, campaigns: nat, variants: nat, runs: nat)
    | Cleared(segments: nat, campaigns: nat, runs: nat)
    | NoContent
    | Fail(status: nat)

  // ---------------------------------------------------------------- queries

  function SegmentsOf(db: Db, o: Id): set<Id> {
    set s | s in db.segments && db.segments[s].org == o
  }

  function CampaignsOf(db: Db, o: Id): set<Id> {
    set c | c in db.campaigns && db.campaigns[c].org == o
  }

  ghost function VariantsOf(db: Db, o: Id): set<Id> {
    set v | v in db.variants && db.variants[v].campaign in CampaignsOf(db, o)
  }

  function RunsOf(db: Db, o: Id): set<Id> {
    set r | r in db.runs && db.runs[r].org == o
  }

  /** Is k the newest entry, ties broken by id? */
  ghost predicate IsNewest(times: map<Id, int>, k: Id) {
    k in times && forall j :: j in times ==> times[j] < times[k] || (times[j] == times[k] && j <= k)
  }

  lemma NewestExists(times: map<Id, int>)
    requires times != map[]
    ensures exists k :: IsNewest(times, k)
    decreases |times|
  {
    var k :| k in times;
    var rest := times - {k};
    assert forall j :: j in times && j != k ==> j in rest;
    if rest == map[] {
      assert IsNewest(times, k);
    } else {
      NewestExists(rest);
      var j :| IsNewest(rest, j);
      var n := if times[j] < times[k] || (times[j] == times[k] && j <= k) then k else j;
      forall i | i in times ensures times[i] < times[n] || (times[i] == times[n] && i <= n) {
        assert i == k || i in rest;
      }
      assert IsNewest(times, n);
    }
  }

  ghost function Newest(times: map<Id, int>): (k: Id)
    requires times != map[]
    ensures IsNewest(times, k)
  {
    NewestExists(times);
    var k :| IsNewest(times, k);
    k
  }

  /** ORDER BY created_at DESC. */
  ghost function NewestFirst(times: map<Id, int>): (order: seq<Id>)
    ensures forall k :: k in order <==> k in times
    decreases |times|
  {
    if times == map[] then [] else
    var k := Newest(times);
    [k] + NewestFirst(times - {k})
  }

  lemma {:induction false} NewestFirstLength(times: map<Id, int>)
    ensures |NewestFirst(times)| == |times|
    decreases |times|
  {
    if times == map[] {
    } else {
      var k := Newest(times);
      NewestFirstLength(times - {k});
      assert times.Keys == (times - {k}).Keys + {k};
    }
  }

  /** Each once, and never back in time. */
  ghost predicate Falls(times: map<Id, int>, order: seq<Id>) {
    && (forall i :: 0 <= i < |order| ==> order[i] in times)
    && (forall i, j :: 0 <= i < j < |order| ==> order[i] != order[j] && times[order[i]] >= times[order[j]])
  }

  lemma NewestBeforeFalling(times: map<Id, int>, k: Id, rest: seq<Id>)
    requires IsNewest(times, k) && Falls(times - {k}, rest)
    ensures Falls(times, [k] + rest)
  {
    var order := [k] + rest;
    forall i | 0 <= i < |rest| ensures rest[i] in times && rest[i] != k && times[k] >= times[rest[i]] {
      assert rest[i] in times - {k};
    }
    forall i, j | 0 <= i < j < |order| ensures order[i] != order[j] && times[order[i]] >= times[order[j]] {
      if i > 0 { assert (times - {k})[rest[i - 1]] >= (times - {k})[rest[j - 1]]; }
    }
  }

  /** The listing order has every row once and never goes back in time. */
  lemma {:induction false} NewestFirstSorted(times: map<Id, int>)
    ensures |NewestFirst(times)| == |times| && Falls(times, NewestFirst(times))
    decreases |times|
  {
    if times == map[] {
    } else {
      var k := Newest(times);
      NewestFirstLength(times);
      NewestFirstSorted(times - {k});
      NewestBeforeFalling(times, k, NewestFirst(times - {k}));
    }
  }

  ghost function SegmentTimes(db: Db, o: Id): map<Id, int> {
    map s | s in SegmentsOf(db, o) :: db.segments[s].createdAt
  }

  ghost function CampaignTimes(db: Db, o: Id): map<Id, int> {
    map c | c in CampaignsOf(db, o) :: db.campaigns[c].createdAt
  }

  ghost function VariantTimes(db: Db, c: Id): map<Id, int> {
    map v | v in db.variants && db.variants[v].campaign == c :: db.variants[v].createdAt
  }

  /** The creation times of an org's runs, of one segment if it is given. */
  ghost function RunTimes(db: Db, o: Id, t: IdText): map<Id, int> {
    map r | r in RunsOf(db, o) && (t.Uuid? ==> db.runs[r].segment == t.id) :: db.runs[r].createdAt
  }

  ghost function RunOrder(db: Db, o: Id, t: IdText): (order: seq<Id>)
    ensures forall k :: k in order ==> k in db.runs
  {
    NewestFirst(RunTimes(db, o, t))
  }

  ghost function SegmentOrder(db: Db, o: Id): (order: seq<Id>)
    ensures forall k :: k in order ==> k in db.segments
  {
    NewestFirst(SegmentTimes(db, o))
  }

  ghost function CampaignOrder(db: Db, o: Id): (order: seq<Id>)
    ensures forall k :: k in order ==> k in db.campaigns
  {
    NewestFirst(CampaignTimes(db, o))
  }

  ghost function VariantsNewest(db: Db, c: Id): (order: seq<Id>)
    ensures forall k :: k in order ==> k in db.variants
  {
    NewestFirst(VariantTimes(db, c))
  }

  /** The rows of a newest-first listing, the other way round. */
  ghost function OldestFirst(db: Db, ids: seq<Id>): (items: seq<(Id, Variant)>)
    requires forall k :: k in ids ==> k in db.variants
  {
    if ids == [] then [] else OldestFirst(db, ids[1..]) + [(ids[0], db.variants[ids[0]])]
  }

  lemma {:induction false} OldestFirstAgrees(db: Db, db': Db, ids: seq<Id>)
    requires forall k :: k in ids ==> k in db.variants && k in db'.variants && db.variants[k] == db'.variants[k]
    ensures OldestFirst(db, ids) == OldestFirst(db', ids)
  {
    if ids == [] {
    } else {
      OldestFirstAgrees(db, db', ids[1..]);
    }
  }

  ghost function RunItems(db: Db, ids: seq<Id>): (items: seq<(Id, SimRun)>)
    requires forall k :: k in ids ==> k in db.runs
  {
    if ids == [] then [] else [(ids[0], db.runs[ids[0]])] + RunItems(db, ids[1..])
  }

  lemma {:induction false} RunItemsAgree(db: Db, db': Db, ids: seq<Id>)
    requires forall k :: k in ids ==> k in db.runs && k in db'.runs && db.runs[k] == db'.runs[k]
    ensures RunItems(db, ids) == RunItems(db', ids)
  {
    if ids == [] {
    } else {
      RunItemsAgree(db, db', ids[1..]);
    }
  }

  /** OFFSET (page - 1) * size LIMIT size. */
  ghost function Slice(ids: seq<Id>, page: int, size: int): (ids': seq<Id>)
    requires page >= 1 && size >= 1
    ensures forall k :: k in ids' ==> k in ids
  {
    var from := if (page - 1) * size <= |ids| then (page - 1) * size else |ids|;
    var to := if from + size <= |ids| then from + size else |ids|;
    assert 0 <= (page - 1) * size;
    ids[from..to]
  }

  // ------------------------------------------------------------- statements

  /** DELETE FROM segments, with what the foreign keys do on delete. */
  function DropSegments(db: Db, gone: set<Id>): Db {
    Db(db.segments - gone,
       map c | c in db.campaigns :: Unlink(db.campaigns[c], gone),
       db.variants,
       map r | r in db.runs && db.runs[r].segment !in gone :: db.runs[r])
  }

  function Unlink(c: Campaign, gone: set<Id>): Campaign {
    if c.segment.Some? && c.segment.value in gone then c.(segment := None) else c
  }

  /** DELETE FROM campaigns, with what the foreign key does on delete. */
  function DropCampaigns(db: Db, gone: set<Id>): Db {
    db.(campaigns := db.campaigns - gone,
        variants := map v | v in db.variants && db.variants[v].campaign !in gone :: db.variants[v])
  }

  ghost function Erased(db: Db, o: Id): Db {
    var db1 := db.(runs := db.runs - RunsOf(db, o));
    DropSegments(DropCampaigns(db1, CampaignsOf(db, o)), SegmentsOf(db, o))
  }

  // -------------------------------------------------------------- endpoints

  predicate Found(rows: map<Id, Segment>, t: IdText, o: Id) {
    t.Uuid? && t.id in rows && rows[t.id].org == o
  }

  predicate FoundCampaign(rows: map<Id, Campaign>, t: IdText, o: Id) {
    t.Uuid? && t.id in rows && rows[t.id].org == o
  }

  /** The status of a lookup that did not find its row. */
  function Missing(t: IdText): Response {
    if t.Uuid? then Fail(404) else Fail(422)
  }

  function EditSegment(s: Segment, op: Op): Segment
    requires op.UpdateSegment?
  {
    s.(name := if op.name'.Some? then op.name'.value else s.name,
       description := if op.description.Some? then op.description else s.description,
       definition := if op.definition'.Some? then op.definition'.value else s.definition,
       isStale := op.definition'.Some? || s.isStale)
  }

  function EditCampaign(c: Campaign, op: Op): Campaign
    requires op.UpdateCampaign?
  {
    c.(name := if op.name'.Some? then op.name'.value else c.name,
       description := if op.description.Some? then op.description else c.description,
       status := if op.status.Some? then op.status.value else c.status,
       segment := if op.target.Uuid? then Some(op.target.id) else c.segment)
  }

  datatype Outcome = Outcome(db: Db, response: Response)

  /** One request, as the client sees it: the committed store afterwards and the response. */
  ghost function Step(db: Db, r: Request): (out: Outcome)
    ensures out.response.Fail? ==> out.db == db
  {
    var o, op := r.org, r.op;
    match op
    case CreateSegment(id, name, description, definition, at) =>
      if id in db.segments then Outcome(db, Fail(500)) else
      var s := Segment(o, name, description, definition, true, at);
      Outcome(db.(segments := db.segments[id := s]), SegmentIs(id, s))
    case UpdateSegment(t, _, _, _) =>
      if !Found(db.segments, t, o) then Outcome(db, Missing(t)) else
      var s := EditSegment(db.segments[t.id], op);
      Outcome(db.(segments := db.segments[t.id := s]), SegmentIs(t.id, s))
    case DeleteSegment(t) =>
      if !Found(db.segments, t, o) then Outcome(db, Missing(t)) else
      Outcome(DropSegments(db, {t.id}), NoContent)
    case GetSegment(t) =>
      Outcome(db, if Found(db.segments, t, o) then SegmentIs(t.id, db.segments[t.id]) else Missing(t))
    case ListSegments(page, size) =>
      if page < 1 || size < 1 || size > 100 then Outcome(db, Fail(422)) else
      var ids := Slice(SegmentOrder(db, o), page, size);
      Outcome(db, SegmentPage(seq(|ids|, i requires 0 <= i < |ids| && ids[i] in db.segments => (ids[i], db.segments[ids[i]])),
                              |SegmentsOf(db, o)|))
    case CreateCampaign(id, name, description, target, at) =>
      if target.Malformed? then Outcome(db, Fail(422)) else
      if id in db.campaigns || (target.Uuid? && target.id !in db.segments) then Outcome(db, Fail(500)) else
      var c := Campaign(o, if target.Uuid? then Some(target.id) else None, name, description, "draft", at);
      Outcome(db.(campaigns := db.campaigns[id := c]), CampaignIs(id, c))
    case UpdateCampaign(t, _, _, _, target) =>
      if !FoundCampaign(db.campaigns, t, o) then Outcome(db, Missing(t)) else
      if target.Blank? || target.Malformed? then Outcome(db, Fail(422)) else
      if target.Uuid? && target.id !in db.segments then Outcome(db, Fail(500)) else
      var c := EditCampaign(db.campaigns[t.id], op);
      Outcome(db.(campaigns := db.campaigns[t.id := c]), CampaignIs(t.id, c))
    case DeleteCampaign(t) =>
      if !FoundCampaign(db.campaigns, t, o) then Outcome(db, Missing(t)) else
      Outcome(DropCampaigns(db, {t.id}), NoContent)
    case GetCampaign(t) =>
      Outcome(db, if FoundCampaign(db.campaigns, t, o) then CampaignIs(t.id, db.campaigns[t.id]) else Missing(t))
    case ListCampaigns(page, size) =>
      if page < 1 || size < 1 || size > 100 then Outcome(db, Fail(422)) else
      var ids := Slice(CampaignOrder(db, o), page, size);
      Outcome(db, CampaignPage(seq(|ids|, i requires 0 <= i < |ids| && ids[i] in db.campaigns => (ids[i], db.campaigns[ids[i]])),
                               |CampaignsOf(db, o)|))
    case AddVariant(t, id, name, stimulus, hasType, at) =>
      if !FoundCampaign(db.campaigns, t, o) then Outcome(db, Missing(t)) else
      if !hasType then Outcome(db, Fail(422)) else
      if id in db.variants then Outcome(db, Fail(500)) else
      var v := Variant(t.id, name, stimulus, at);
      Outcome(db.(variants := db.variants[id := v]), VariantIs(id, v))
    case ListVariants(t) =>
      if !FoundCampaign(db.campaigns, t, o) then Outcome(db, Missing(t)) else
      Outcome(db, VariantList(OldestFirst(db, VariantsNewest(db, t.id))))
    case DeleteVariant(t, v) =>
      if !FoundCampaign(db.campaigns, t, o) then Outcome(db, Missing(t)) else
      if !v.Uuid? || v.id !in db.variants || db.variants[v.id].campaign != t.id then Outcome(db, Missing(v)) else
      Outcome(db.(variants := db.variants - {v.id}), NoContent)
    case AddRun(t, id, at) =>
      if !Found(db.segments, t, o) then Outcome(db, Missing(t)) else
      if id in db.runs then Outcome(db, Fail(500)) else
      var run := SimRun(o, t.id, at);
      Outcome(db.(runs := db.runs[id := run]), RunIs(id, run))
    case GetRun(t) =>
      Outcome(db, if t.Uuid? && t.id in RunsOf(db, o) then RunIs(t.id, db.runs[t.id]) else Missing(t))
    case ListRuns(t, page, size) =>
      if page < 1 || size < 1 || size > 100 || t.Blank? || t.Malformed? then Outcome(db, Fail(422)) else
      Outcome(db, RunPage(RunItems(db, Slice(RunOrder(db, o, t), page, size)), |RunTimes(db, o, t)|))
    case GetStats =>
      Outcome(db, Counts(|SegmentsOf(db, o)|, |CampaignsOf(db, o)|, |VariantsOf(db, o)|, |RunsOf(db, o)|))
    case ClearDatabase =>
      Outcome(Erased(db, o), Cleared(|SegmentsOf(db, o)|, |CampaignsOf(db, o)|, |RunsOf(db, o)|))
    case DeleteOrgData(isAdmin) =>
      if !isAdmin then Outcome(db, Fail(403)) else Outcome(Erased(db, o), NoContent)
  }

  // ---------------------------------------------------- what belongs to an org

  /** What belongs to org o and nothing else. */
  ghost function Project(db: Db, o: Id): Db {
    Db(map s | s in SegmentsOf(db, o) :: db.segments[s],
       map c | c in CampaignsOf(db, o) :: db.campaigns[c],
       map v | v in VariantsOf(db, o) :: db.variants[v],
       map r | r in RunsOf(db, o) :: db.runs[r])
  }

  /** The foreign keys, and: a run belongs to the org of its segment. */
  ghost predicate Wf(db: Db) {
    && (forall v :: v in db.variants ==> db.variants[v].campaign in db.campaigns)
    && (forall r :: r in db.runs ==>
          db.runs[r].segment in db.segments && db.segments[db.runs[r].segment].org == db.runs[r].org)
    && (forall c :: c in db.campaigns && db.campaigns[c].segment.Some? ==>
          db.campaigns[c].segment.value in db.segments)
  }

  /** o's campaigns target o's own segments. */
  ghost predicate OwnTargets(db: Db, o: Id) {
    forall c :: c in db.campaigns && db.campaigns[c].org == o && db.campaigns[c].segment.Some? ==>
      Found(db.segments, Uuid(db.campaigns[c].segment.value), o)
  }

  /** Generated ids are new. */
  ghost predicate FreshId(db: Db, op: Op) {
    match op
    case CreateSegment(id, _, _, _, _) => id !in db.segments
    case CreateCampaign(id, _, _, _, _) => id !in db.campaigns
    case AddVariant(_, id, _, _, _, _) => id !in db.variants
    case AddRun(_, id, _) => id !in db.runs
    case _ => true
  }

  /** The request makes a campaign target a segment of another org: the one thing the handlers never check. */
  predicate NamesForeign(db: Db, r: Request) {
    && (r.op.CreateCampaign? || (r.op.UpdateCampaign? && FoundCampaign(db.campaigns, r.op.campaign, r.org)))
    && r.op.target.Uuid? && r.op.target.id in db.segments
    && db.segments[r.op.target.id].org != r.org
  }

  // ------------------------------------------------------ statements, projected

  lemma ProjectPutSegment(db: Db, o: Id, id: Id, s: Segment)
    requires id in db.segments ==> db.segments[id].org == s.org
    ensures Project(db.(segments := db.segments[id := s]), o) ==
      if s.org == o then Project(db, o).(segments := Project(db, o).segments[id := s]) else Project(db, o)
  {
    var db' := db.(segments := db.segments[id := s]);
    assert CampaignsOf(db', o) == CampaignsOf(db, o);
    assert VariantsOf(db', o) == VariantsOf(db, o) && RunsOf(db', o) == RunsOf(db, o);
    assert SegmentsOf(db', o) == if s.org == o then SegmentsOf(db, o) + {id} else SegmentsOf(db, o);
  }

  lemma ProjectPutCampaign(db: Db, o: Id, id: Id, c: Campaign)
    requires id in db.campaigns ==> db.campaigns[id].org == c.org
    requires Wf(db)
    ensures Project(db.(campaigns := db.campaigns[id := c]), o) ==
      if c.org == o then Project(db, o).(campaigns := Project(db, o).campaigns[id := c]) else Project(db, o)
  {
    var db' := db.(campaigns := db.campaigns[id := c]);
    assert CampaignsOf(db', o) == if c.org == o then CampaignsOf(db, o) + {id} else CampaignsOf(db, o);
    assert VariantsOf(db', o) == VariantsOf(db, o) && RunsOf(db', o) == RunsOf(db, o);
    assert SegmentsOf(db', o) == SegmentsOf(db, o);
  }

  lemma ProjectPutVariant(db: Db, o: Id, id: Id, v: Variant)
    requires id !in db.variants && v.campaign in db.campaigns
    ensures Project(db.(variants := db.variants[id := v]), o) ==
      if v.campaign in CampaignsOf(db, o) then Project(db, o).(variants := Project(db, o).variants[id := v]) else Project(db, o)
  {
    var db' := db.(variants := db.variants[id := v]);
    assert CampaignsOf(db', o) == CampaignsOf(db, o) && RunsOf(db', o) == RunsOf(db, o);
    assert SegmentsOf(db', o) == SegmentsOf(db, o);
    assert VariantsOf(db', o) == if v.campaign in CampaignsOf(db, o) then VariantsOf(db, o) + {id} else VariantsOf(db, o);
  }

  lemma ProjectDropVariant(db: Db, o: Id, id: Id)
    requires id in db.variants
    ensures Project(db.(variants := db.variants - {id}), o) ==
      if id in VariantsOf(db, o) then Project(db, o).(variants := Project(db, o).variants - {id}) else Project(db, o)
  {
    var db' := db.(variants := db.variants - {id});
    assert CampaignsOf(db', o) == CampaignsOf(db, o) && RunsOf(db', o) == RunsOf(db, o);
    assert SegmentsOf(db', o) == SegmentsOf(db, o);
    assert VariantsOf(db', o) == VariantsOf(db, o) - {id};
  }

  lemma ProjectPutRun(db: Db, o: Id, id: Id, r: SimRun)
    requires id !in db.runs
    ensures Project(db.(runs := db.runs[id := r]), o) ==
      if r.org == o then Project(db, o).(runs := Project(db, o).runs[id := r]) else Project(db, o)
  {
    var db' := db.(runs := db.runs[id := r]);
    assert CampaignsOf(db', o) == CampaignsOf(db, o) && VariantsOf(db', o) == VariantsOf(db, o);
    assert SegmentsOf(db', o) == SegmentsOf(db, o);
    assert RunsOf(db', o) == if r.org == o then RunsOf(db, o) + {id} else RunsOf(db, o);
  }

  lemma DropKeepsCampaigns(db: Db, o: Id, gone: set<Id>)
    ensures CampaignsOf(DropSegments(db, gone), o) == CampaignsOf(db, o)
    ensures VariantsOf(DropSegments(db, gone), o) == VariantsOf(db, o)
    ensures Project(DropSegments(db, gone), o).variants == Project(db, o).variants
  {
    assert CampaignsOf(DropSegments(db, gone), o) == CampaignsOf(db, o);
  }

  lemma ProjectDropOwnSegments(db: Db, o: Id, gone: set<Id>)
    requires gone <= SegmentsOf(db, o) && Wf(db)
    ensures Project(DropSegments(db, gone), o) == DropSegments(Project(db, o), gone)
  {
    var a, b := Project(DropSegments(db, gone), o), DropSegments(Project(db, o), gone);
    DropKeepsCampaigns(db, o, gone);
    assert a.segments == b.segments && a.campaigns == b.campaigns;
    OwnRunsDropped(db, o, gone);
  }

  lemma OwnRunsDropped(db: Db, o: Id, gone: set<Id>)
    ensures Project(DropSegments(db, gone), o).runs == DropSegments(Project(db, o), gone).runs
  {
  }

  lemma OtherRunsStay(db: Db, o: Id, gone: set<Id>)
    requires gone !! SegmentsOf(db, o) && Wf(db)
    ensures Project(DropSegments(db, gone), o).runs == Project(db, o).runs
  {
    forall r | r in RunsOf(db, o) ensures db.runs[r].segment !in gone {
      assert db.runs[r].segment in SegmentsOf(db, o);
    }
  }

  lemma OtherTargetsStay(db: Db, o: Id, gone: set<Id>)
    requires gone !! SegmentsOf(db, o) && OwnTargets(db, o)
    ensures Project(DropSegments(db, gone), o).campaigns == Project(db, o).campaigns
  {
    DropKeepsCampaigns(db, o, gone);
    forall c | c in CampaignsOf(db, o) ensures Unlink(db.campaigns[c], gone) == db.campaigns[c] {
      if db.campaigns[c].segment.Some? {
        assert db.campaigns[c].segment.value in SegmentsOf(db, o);
      }
    }
  }

  lemma ProjectDropOtherSegments(db: Db, o: Id, gone: set<Id>)
    requires gone !! SegmentsOf(db, o) && Wf(db) && OwnTargets(db, o)
    ensures Project(DropSegments(db, gone), o) == Project(db, o)
  {
    DropKeepsCampaigns(db, o, gone);
    OtherTargetsStay(db, o, gone);
    OtherRunsStay(db, o, gone);
    assert Project(DropSegments(db, gone), o).segments == Project(db, o).segments;
  }

  lemma ProjectDropOwnCampaigns(db: Db, o: Id, gone: set<Id>)
    requires gone <= CampaignsOf(db, o)
    ensures Project(DropCampaigns(db, gone), o) == DropCampaigns(Project(db, o), gone)
  {
    var a, b := Project(DropCampaigns(db, gone), o), DropCampaigns(Project(db, o), gone);
    assert CampaignsOf(DropCampaigns(db, gone), o) == CampaignsOf(db, o) - gone;
    assert a.campaigns == b.campaigns && a.variants == b.variants;
    assert a.segments == b.segments && a.runs == b.runs;
  }

  lemma ProjectDropOtherCampaigns(db: Db, o: Id, gone: set<Id>)
    requires gone !! CampaignsOf(db, o)
    ensures Project(DropCampaigns(db, gone), o) == Project(db, o)
  {
    var a, b := Project(DropCampaigns(db, gone), o), Project(db, o);
    assert CampaignsOf(DropCampaigns(db, gone), o) == CampaignsOf(db, o);
    assert a.campaigns == b.campaigns && a.variants == b.variants;
    assert a.segments == b.segments && a.runs == b.runs;
  }

  lemma ProjectSets(db: Db, o: Id)
    ensures SegmentsOf(Project(db, o), o) == SegmentsOf(db, o)
    ensures CampaignsOf(Project(db, o), o) == CampaignsOf(db, o)
    ensures VariantsOf(Project(db, o), o) == VariantsOf(db, o)
    ensures RunsOf(Project(db, o), o) == RunsOf(db, o)
  {
    assert CampaignsOf(Project(db, o), o) == CampaignsOf(db, o);
  }

  lemma ProjectOrders(db: Db, o: Id)
    ensures SegmentOrder(Project(db, o), o) == SegmentOrder(db, o)
    ensures CampaignOrder(Project(db, o), o) == CampaignOrder(db, o)
    ensures forall c :: c in CampaignsOf(db, o) ==> VariantsNewest(Project(db, o), c) == VariantsNewest(db, c)
  {
    ProjectSets(db, o);
    var p := Project(db, o);
    assert SegmentTimes(p, o) == SegmentTimes(db, o) && CampaignTimes(p, o) == CampaignTimes(db, o);
    forall c | c in CampaignsOf(db, o) ensures VariantsNewest(p, c) == VariantsNewest(db, c) {
      assert forall v :: v in db.variants && db.variants[v].campaign == c ==> v in VariantsOf(db, o);
      assert VariantTimes(p, c) == VariantTimes(db, c);
    }
  }

  lemma ProjectVariantList(db: Db, o: Id, c: Id)
    requires c in CampaignsOf(db, o)
    ensures OldestFirst(Project(db, o), VariantsNewest(Project(db, o), c)) == OldestFirst(db, VariantsNewest(db, c))
  {
    ProjectOrders(db, o);
    OldestFirstAgrees(Project(db, o), db, VariantsNewest(db, c));
  }

  lemma ProjectDropRuns(db: Db, o: Id, p: Id)
    ensures
      var db1 := db.(runs := db.runs - RunsOf(db, p));
      Project(db1, o) == if p == o then Project(db, o).(runs := Project(db, o).runs - RunsOf(db, o)) else Project(db, o)
  {
    var db1 := db.(runs := db.runs - RunsOf(db, p));
    assert CampaignsOf(db1, o) == CampaignsOf(db, o) && SegmentsOf(db1, o) == SegmentsOf(db, o);
    assert VariantsOf(db1, o) == VariantsOf(db, o);
    assert RunsOf(db1, o) == if p == o then {} else RunsOf(db, o);
  }

  lemma ProjectErased(db: Db, o: Id, p: Id)
    requires Wf(db) && (p != o ==> OwnTargets(db, o))
    ensures p == o ==> Project(Erased(db, p), o) == Erased(Project(db, o), o)
    ensures p != o ==> Project(Erased(db, p), o) == Project(db, o)
  {
    var db1 := db.(runs := db.runs - RunsOf(db, p));
    var db2 := DropCampaigns(db1, CampaignsOf(db, p));
    assert SegmentsOf(db2, p) == SegmentsOf(db, p) && SegmentsOf(db2, o) == SegmentsOf(db, o);
    assert CampaignsOf(db1, p) == CampaignsOf(db, p) && CampaignsOf(db1, o) == CampaignsOf(db, o);
    ProjectDropRuns(db, o, p);
    if p == o {
      ProjectSets(db, o);
      ProjectDropOwnCampaigns(db1, o, CampaignsOf(db, o));
      ProjectDropOwnSegments(db2, o, SegmentsOf(db, o));
    } else {
      ProjectDropOtherCampaigns(db1, o, CampaignsOf(db, p));
      ProjectDropOtherSegments(db2, o, SegmentsOf(db, p));
    }
  }

  // -------------------------------------------------------- one step, projected

  /** Every request keeps the foreign keys. */
  lemma StepKeepsWf(db: Db, r: Request)
    requires Wf(db) && FreshId(db, r.op)
    ensures Wf(Step(db, r).db)
  {
    match r.op
    case ClearDatabase => ErasedKeepsWf(db, r.org);
    case DeleteOrgData(_) => ErasedKeepsWf(db, r.org);
    case DeleteSegment(t) => if t.Uuid? { DropSegmentsKeepsWf(db, {t.id}); }
    case DeleteCampaign(t) => if t.Uuid? { DropCampaignsKeepsWf(db, {t.id}); }
    case _ =>
  }

  lemma DropSegmentsKeepsWf(db: Db, gone: set<Id>)
    requires Wf(db)
    ensures Wf(DropSegments(db, gone))
  {
  }

  lemma DropCampaignsKeepsWf(db: Db, gone: set<Id>)
    requires Wf(db)
    ensures Wf(DropCampaigns(db, gone))
  {
  }

  lemma ErasedKeepsWf(db: Db, o: Id)
    requires Wf(db)
    ensures Wf(Erased(db, o))
  {
    var db1 := db.(runs := db.runs - RunsOf(db, o));
    DropCampaignsKeepsWf(db1, CampaignsOf(db, o));
    DropSegmentsKeepsWf(DropCampaigns(db1, CampaignsOf(db, o)), SegmentsOf(db, o));
  }

  lemma StepKeepsOwnTargets(db: Db, r: Request, o: Id)
    requires Wf(db) && FreshId(db, r.op) && OwnTargets(db, o) && (r.org == o ==> !NamesForeign(db, r))
    ensures OwnTargets(Step(db, r).db, o)
  {
    match r.op
    case ClearDatabase => OwnTargetsDropped(db.(runs := db.runs - RunsOf(db, r.org)), CampaignsOf(db, r.org), SegmentsOf(db, r.org), o);
    case DeleteOrgData(_) => OwnTargetsDropped(db.(runs := db.runs - RunsOf(db, r.org)), CampaignsOf(db, r.org), SegmentsOf(db, r.org), o);
    case _ =>
  }

  lemma OwnTargetsDropped(db: Db, campaigns: set<Id>, segments: set<Id>, o: Id)
    requires OwnTargets(db, o)
    ensures OwnTargets(DropSegments(DropCampaigns(db, campaigns), segments), o)
  {
  }

  lemma OtherDelete(db: Db, r: Request, o: Id)
    requires Wf(db) && OwnTargets(db, o) && r.org != o && (r.op.DeleteSegment? || r.op.DeleteCampaign?)
    ensures Project(Step(db, r).db, o) == Project(db, o)
  {
    match r.op
    case DeleteSegment(t) =>
      if Found(db.segments, t, r.org) { ProjectDropOtherSegments(db, o, {t.id}); }
    case DeleteCampaign(t) =>
      if FoundCampaign(db.campaigns, t, r.org) { ProjectDropOtherCampaigns(db, o, {t.id}); }
  }

  lemma OtherDeleteVariant(db: Db, r: Request, o: Id)
    requires r.org != o && r.op.DeleteVariant?
    ensures Project(Step(db, r).db, o) == Project(db, o)
  {
    var v := r.op.variant;
    if v.Uuid? && v.id in db.variants { ProjectDropVariant(db, o, v.id); }
  }

  lemma OtherErase(db: Db, r: Request, o: Id)
    requires Wf(db) && OwnTargets(db, o) && r.org != o && (r.op.ClearDatabase? || r.op.DeleteOrgData?)
    ensures Project(Step(db, r).db, o) == Project(db, o)
  {
    EraseStep(db, r);
    ProjectErased(db, o, r.org);
  }

  lemma EraseStep(db: Db, r: Request)
    requires r.op.ClearDatabase? || r.op.DeleteOrgData?
    ensures Step(db, r).db == Erased(db, r.org) || Step(db, r).db == db
  {
  }

  /** Another org's request changes nothing that belongs to o. */
  lemma OtherStep(db: Db, r: Request, o: Id)
    requires Wf(db) && FreshId(db, r.op) && OwnTargets(db, o) && r.org != o
    ensures Project(Step(db, r).db, o) == Project(db, o)
  {
    match r.op
    case CreateSegment(id, name, description, definition, at) =>
      ProjectPutSegment(db, o, id, Segment(r.org, name, description, definition, true, at));
    case UpdateSegment(t, _, _, _) =>
      if Found(db.segments, t, r.org) { ProjectPutSegment(db, o, t.id, EditSegment(db.segments[t.id], r.op)); }
    case CreateCampaign(id, name, description, target, at) =>
      ProjectPutCampaign(db, o, id,
        Campaign(r.org, if target.Uuid? then Some(target.id) else None, name, description, "draft", at));
    case UpdateCampaign(t, _, _, _, _) =>
      if FoundCampaign(db.campaigns, t, r.org) { ProjectPutCampaign(db, o, t.id, EditCampaign(db.campaigns[t.id], r.op)); }
    case AddVariant(t, id, name, stimulus, _, at) =>
      if FoundCampaign(db.campaigns, t, r.org) { ProjectPutVariant(db, o, id, Variant(t.id, name, stimulus, at)); }
    case AddRun(t, id, at) =>
      if t.Uuid? { ProjectPutRun(db, o, id, SimRun(r.org, t.id, at)); }
    case DeleteSegment(_) => OtherDelete(db, r, o);
    case DeleteCampaign(_) => OtherDelete(db, r, o);
    case DeleteVariant(_, _) => OtherDeleteVariant(db, r, o);
    case ClearDatabase => OtherErase(db, r, o);
    case DeleteOrgData(_) => OtherErase(db, r, o);
    case _ =>
  }

  lemma OwnGet(db: Db, r: Request, o: Id)
    requires r.org == o && (r.op.GetSegment? || r.op.GetCampaign? || r.op.GetRun? || r.op.GetStats?)
    ensures Step(Project(db, o), r) == Outcome(Project(db, o), Step(db, r).response)
  {
    ProjectSets(db, o);
  }

  lemma OwnListRuns(db: Db, r: Request, o: Id)
    requires r.org == o && r.op.ListRuns?
    ensures Step(Project(db, o), r) == Outcome(Project(db, o), Step(db, r).response)
  {
    var t, page, size := r.op.ofSegment, r.op.page, r.op.size;
    ProjectSets(db, o);
    assert RunTimes(Project(db, o), o, t) == RunTimes(db, o, t);
    if page >= 1 && size >= 1 {
      RunItemsAgree(Project(db, o), db, Slice(RunOrder(db, o, t), page, size));
    }
  }

  lemma OwnListSegments(db: Db, r: Request, o: Id)
    requires r.org == o && r.op.ListSegments?
    ensures Step(Project(db, o), r) == Outcome(Project(db, o), Step(db, r).response)
  {
    ProjectSets(db, o);
    ProjectOrders(db, o);
    assert Step(Project(db, o), r).response == Step(db, r).response;
  }

  lemma OwnListCampaigns(db: Db, r: Request, o: Id)
    requires r.org == o && r.op.ListCampaigns?
    ensures Step(Project(db, o), r) == Outcome(Project(db, o), Step(db, r).response)
  {
    ProjectSets(db, o);
    ProjectOrders(db, o);
    assert Step(Project(db, o), r).response == Step(db, r).response;
  }

  lemma OwnListVariants(db: Db, r: Request, o: Id)
    requires r.org == o && r.op.ListVariants?
    ensures Step(Project(db, o), r) == Outcome(Project(db, o), Step(db, r).response)
  {
    assert FoundCampaign(Project(db, o).campaigns, r.op.campaign, o) <==> FoundCampaign(db.campaigns, r.op.campaign, o);
    if FoundCampaign(db.campaigns, r.op.campaign, o) {
      ProjectVariantList(db, o, r.op.campaign.id);
    }
  }

  lemma OwnErase(db: Db, r: Request, o: Id)
    requires Wf(db) && r.org == o && (r.op.ClearDatabase? || r.op.DeleteOrgData?)
    ensures Step(Project(db, o), r) == Outcome(Project(Step(db, r).db, o), Step(db, r).response)
  {
    ProjectSets(db, o);
    ProjectErased(db, o, o);
  }

  lemma OwnDelete(db: Db, r: Request, o: Id)
    requires Wf(db) && r.org == o
    requires r.op.DeleteSegment? || r.op.DeleteCampaign? || r.op.DeleteVariant?
    ensures Step(Project(db, o), r) == Outcome(Project(Step(db, r).db, o), Step(db, r).response)
  {
    ProjectSets(db, o);
    match r.op
    case DeleteSegment(t) =>
      if Found(db.segments, t, o) { ProjectDropOwnSegments(db, o, {t.id}); }
    case DeleteCampaign(t) =>
      if FoundCampaign(db.campaigns, t, o) { ProjectDropOwnCampaigns(db, o, {t.id}); }
    case DeleteVariant(t, v) =>
      if v.Uuid? && v.id in db.variants { ProjectDropVariant(db, o, v.id); }
  }

  lemma OwnWrite(db: Db, r: Request, o: Id)
    requires Wf(db) && FreshId(db, r.op) && r.org == o && !NamesForeign(db, r)
    requires r.op.CreateSegment? || r.op.UpdateSegment? || r.op.CreateCampaign? || r.op.UpdateCampaign? || r.op.AddVariant? || r.op.AddRun?
    ensures Step(Project(db, o), r) == Outcome(Project(Step(db, r).db, o), Step(db, r).response)
  {
    ProjectSets(db, o);
    match r.op
    case CreateSegment(id, name, description, definition, at) =>
      ProjectPutSegment(db, o, id, Segment(o, name, description, definition, true, at));
    case UpdateSegment(t, _, _, _) =>
      if Found(db.segments, t, o) { ProjectPutSegment(db, o, t.id, EditSegment(db.segments[t.id], r.op)); }
    case CreateCampaign(id, name, description, target, at) =>
      ProjectPutCampaign(db, o, id,
        Campaign(o, if target.Uuid? then Some(target.id) else None, name, description, "draft", at));
    case UpdateCampaign(t, _, _, _, _) =>
      if FoundCampaign(db.campaigns, t, o) { ProjectPutCampaign(db, o, t.id, EditCampaign(db.campaigns[t.id], r.op)); }
    case AddVariant(t, id, name, stimulus, _, at) =>
      if FoundCampaign(db.campaigns, t, o) { ProjectPutVariant(db, o, id, Variant(t.id, name, stimulus, at)); }
    case AddRun(t, id, at) =>
      if t.Uuid? { ProjectPutRun(db, o, id, SimRun(o, t.id, at)); }
  }

  /** o's own request does on o's rows alone what it does on the whole store. */
  lemma OwnStep(db: Db, r: Request, o: Id)
    requires Wf(db) && FreshId(db, r.op) && r.org == o && !NamesForeign(db, r)
    ensures Step(Project(db, o), r) == Outcome(Project(Step(db, r).db, o), Step(db, r).response)
  {
    match r.op
    case DeleteSegment(_) => OwnDelete(db, r, o);
    case DeleteCampaign(_) => OwnDelete(db, r, o);
    case DeleteVariant(_, _) => OwnDelete(db, r, o);
    case ClearDatabase => OwnErase(db, r, o);
    case DeleteOrgData(_) => OwnErase(db, r, o);
    case CreateSegment(_, _, _, _, _) => OwnWrite(db, r, o);
    case UpdateSegment(_, _, _, _) => OwnWrite(db, r, o);
    case CreateCampaign(_, _, _, _, _) => OwnWrite(db, r, o);
    case UpdateCampaign(_, _, _, _, _) => OwnWrite(db, r, o);
    case AddVariant(_, _, _, _, _, _) => OwnWrite(db, r, o);
    case AddRun(_, _, _) => OwnWrite(db, r, o);
    case GetSegment(_) => OwnGet(db, r, o);
    case GetCampaign(_) => OwnGet(db, r, o);
    case GetRun(_) => OwnGet(db, r, o);
    case GetStats => OwnGet(db, r, o);
    case ListRuns(_, _, _) => OwnListRuns(db, r, o);
    case ListSegments(_, _) => OwnListSegments(db, r, o);
    case ListCampaigns(_, _) => OwnListCampaigns(db, r, o);
    case _ => OwnListVariants(db, r, o);
  }

  /** Naming another org's segment is accepted, and would be refused were that org's rows not there. */
  lemma ForeignNameShows(db: Db, r: Request, o: Id)
    requires FreshId(db, r.op) && r.org == o && NamesForeign(db, r)
    ensures Step(db, r).response.CampaignIs? && Step(Project(db, o), r).response == Fail(500)
  {
    if r.op.UpdateCampaign? {
      assert r.op.campaign.id in CampaignsOf(db, o);
    }
  }

  /** A run in which one org learns of another: its campaign is accepted because the other's segment exists, and
      loses its target when that is deleted; alone, both its requests fail. */
  lemma InterferenceExample()
    ensures
      var create, read := Request(2, CreateCampaign(20, "c", None, Uuid(10), 1)), Request(2, GetCampaign(Uuid(20)));
      var d0 := Db(map[], map[], map[], map[]);
      var d1 := Step(d0, Request(1, CreateSegment(10, "s", None, "{}", 0))).db;
      var d2 := Step(d1, create).db;
      var d3 := Step(d2, Request(1, DeleteSegment(Uuid(10)))).db;
      && Step(d1, create).response == CampaignIs(20, Campaign(2, Some(10), "c", None, "draft", 1))
      && Step(d3, read).response == CampaignIs(20, Campaign(2, None, "c", None, "draft", 1))
      && Step(d0, create) == Outcome(d0, Fail(500)) && Step(d0, read).response == Fail(404)
  {
    var d0 := Db(map[], map[], map[], map[]);
    var s, c := Segment(1, "s", None, "{}", true, 0), Campaign(2, Some(10), "c", None, "draft", 1);
    var d1, d2 := Db(map[10 := s], map[], map[], map[]), Db(map[10 := s], map[20 := c], map[], map[]);
    SegmentIsStored(d0, s);
    assert d1 == d0.(segments := d0.segments[10 := s]);
    TargetIsMissing(d0);
    TargetIsAccepted(d1, c);
    TargetIsUnlinked(d2, c);
  }

  lemma SegmentIsStored(db: Db, s: Segment)
    requires 10 !in db.segments && s == Segment(1, "s", None, "{}", true, 0)
    ensures Step(db, Request(1, CreateSegment(10, "s", None, "{}", 0))).db == db.(segments := db.segments[10 := s])
  {
  }

  lemma TargetIsMissing(db: Db)
    requires 10 !in db.segments && 20 !in db.campaigns
    ensures Step(db, Request(2, CreateCampaign(20, "c", None, Uuid(10), 1))) == Outcome(db, Fail(500))
    ensures Step(db, Request(2, GetCampaign(Uuid(20)))).response == Fail(404)
  {
  }

  lemma TargetIsAccepted(db: Db, c: Campaign)
    requires 10 in db.segments && 20 !in db.campaigns && c == Campaign(2, Some(10), "c", None, "draft", 1)
    ensures
      Step(db, Request(2, CreateCampaign(20, "c", None, Uuid(10), 1))) ==
      Outcome(db.(campaigns := db.campaigns[20 := c]), CampaignIs(20, c))
  {
  }

  lemma TargetIsUnlinked(db: Db, c: Campaign)
    requires 10 in db.segments && db.segments[10].org == 1 && 20 in db.campaigns && db.campaigns[20] == c
    requires c.org == 2 && c.segment == Some(10)
    ensures
      var db' := Step(db, Request(1, DeleteSegment(Uuid(10)))).db;
      Step(db', Request(2, GetCampaign(Uuid(20)))).response == CampaignIs(20, c.(segment := None))
  {
  }

  // ----------------------------------------------------- the handlers, in place

  predicate IsWrite(op: Op) {
    && !op.GetSegment? && !op.ListSegments? && !op.GetCampaign? && !op.ListCampaigns? && !op.ListVariants?
    && !op.GetRun? && !op.ListRuns? && !op.GetStats?
  }

  /** Deleting the variants before their campaigns changes nothing. */
  lemma VariantsGoFirst(db: Db, gone: set<Id>)
    ensures
      var without := db.(variants := map v | v in db.variants && db.variants[v].campaign !in gone :: db.variants[v]);
      DropCampaigns(without, gone) == DropCampaigns(db, gone)
    ensures gone == {} ==> (map v | v in db.variants && db.variants[v].campaign !in gone :: db.variants[v]) == db.variants
  {
  }

  /** The tables, and the writing handlers as the statements they issue one after the other. */
  class Tables {
    var segments: map<Id, Segment>
    var campaigns: map<Id, Campaign>
    var variants: map<Id, Variant>
    var runs: map<Id, SimRun>

    ghost function State(): Db
      reads this
    {
      Db(segments, campaigns, variants, runs)
    }

    method DeleteSegments(gone: set<Id>) returns (rowcount: nat)
      requires gone <= segments.Keys
      modifies this
      ensures State() == DropSegments(old(State()), gone) && rowcount == |gone|
    {
      runs := map r | r in runs && runs[r].segment !in gone :: runs[r];
      campaigns := map c | c in campaigns :: Unlink(campaigns[c], gone);
      segments := segments - gone;
      rowcount := |gone|;
    }

    /** The handlers delete the variants themselves before the campaigns. */
    method DeleteCampaignsOf(o: Id) returns (rowcount: nat)
      modifies this
      ensures State() == DropCampaigns(old(State()), CampaignsOf(old(State()), o))
      ensures rowcount == |CampaignsOf(old(State()), o)|
    {
      ghost var was := State();
      var campaignIds := set c | c in campaigns && campaigns[c].org == o;
      assert campaignIds == CampaignsOf(was, o);
      VariantsGoFirst(was, campaignIds);
      if campaignIds != {} {
        variants := map v | v in variants && variants[v].campaign !in campaignIds :: variants[v];
      }
      rowcount := DeleteCampaigns(campaignIds);
    }

    method DeleteCampaigns(gone: set<Id>) returns (rowcount: nat)
      requires gone <= campaigns.Keys
      modifies this
      ensures State() == DropCampaigns(old(State()), gone) && rowcount == |gone|
    {
      variants := map v | v in variants && variants[v].campaign !in gone :: variants[v];
      campaigns := campaigns - gone;
      rowcount := |gone|;
    }

    method UpdateSegment(o: Id, op: Op) returns (resp: Response)
      requires op.UpdateSegment?
      modifies this
      ensures Outcome(State(), resp) == Step(old(State()), Request(o, op))
    {
      var t := op.segment;
      if !Found(segments, t, o) { return Missing(t); }
      var row := segments[t.id];
      if op.name'.Some? { row := row.(name := op.name'.value); }
      if op.description.Some? { row := row.(description := op.description); }
      if op.definition'.Some? { row := row.(definition := op.definition'.value, isStale := true); }
      segments := segments[t.id := row];
      resp := SegmentIs(t.id, row);
    }

    /** Fields are assigned before the target is parsed: on a bad target the row is left half edited. */
    method UpdateCampaign(o: Id, op: Op) returns (resp: Response)
      requires op.UpdateCampaign?
      modifies this
      ensures resp == Step(old(State()), Request(o, op)).response
      ensures !resp.Fail? ==> State() == Step(old(State()), Request(o, op)).db
    {
      var t := op.campaign;
      if !FoundCampaign(campaigns, t, o) { return Missing(t); }
      var row := campaigns[t.id];
      if op.name'.Some? { row := row.(name := op.name'.value); }
      if op.description.Some? { row := row.(description := op.description); }
      if op.status.Some? { row := row.(status := op.status.value); }
      campaigns := campaigns[t.id := row];
      if !op.target.Absent? {
        if !op.target.Uuid? { return Fail(422); }
        row := row.(segment := Some(op.target.id));
        campaigns := campaigns[t.id := row];
        if op.target.id !in segments { return Fail(500); }
      }
      resp := CampaignIs(t.id, row);
    }

    method ClearDatabase(o: Id) returns (resp: Response)
      modifies this
      ensures State() == Erased(old(State()), o)
      ensures resp == Cleared(|SegmentsOf(old(State()), o)|, |CampaignsOf(old(State()), o)|, |RunsOf(old(State()), o)|)
    {
      ghost var was := State();
      var mine := set r | r in runs && runs[r].org == o;
      assert mine == RunsOf(was, o);
      runs := runs - mine;
      ghost var was1 := State();
      assert CampaignsOf(was1, o) == CampaignsOf(was, o);
      var deletedCampaigns := DeleteCampaignsOf(o);
      var segmentIds := set s | s in segments && segments[s].org == o;
      assert segmentIds == SegmentsOf(was, o);
      var deletedSegments := DeleteSegments(segmentIds);
      resp := Cleared(deletedSegments, deletedCampaigns, |mine|);
    }

    method DeleteOrgData(o: Id, isAdmin: bool) returns (resp: Response)
      modifies this
      ensures State() == if isAdmin then Erased(old(State()), o) else old(State())
      ensures resp == if isAdmin then NoContent else Fail(403)
    {
      if !isAdmin { return Fail(403); }
      ghost var was := State();
      ghost var was1 := was.(runs := was.runs - RunsOf(was, o));
      var _ := DeleteCampaignsOf(o);
      runs := map r | r in runs && runs[r].org != o :: runs[r];
      assert runs == was1.runs;
      assert State() == DropCampaigns(was1, CampaignsOf(was, o));
      var segmentIds := set s | s in segments && segments[s].org == o;
      assert segmentIds == SegmentsOf(was, o);
      var _ := DeleteSegments(segmentIds);
      resp := NoContent;
    }

    method Insert(o: Id, op: Op) returns (resp: Response)
      requires op.CreateSegment? || op.CreateCampaign? || op.AddVariant? || op.AddRun?
      modifies this
      ensures Outcome(State(), resp) == Step(old(State()), Request(o, op))
    {
      match op
      case CreateSegment(id, name, description, definition, at) =>
        if id in segments { return Fail(500); }
        segments := segments[id := Segment(o, name, description, definition, true, at)];
        resp := SegmentIs(id, segments[id]);
      case CreateCampaign(id, name, description, target, at) =>
        var uid := None;
        if !target.Absent? && !target.Blank? {
          if target.Malformed? { return Fail(422); }
          uid := Some(target.id);
        }
        if id in campaigns || (uid.Some? && uid.value !in segments) { return Fail(500); }
        campaigns := campaigns[id := Campaign(o, uid, name, description, "draft", at)];
        resp := CampaignIs(id, campaigns[id]);
      case AddVariant(t, id, name, stimulus, hasType, at) =>
        if !FoundCampaign(campaigns, t, o) { return Missing(t); }
        if !hasType { return Fail(422); }
        if id in variants { return Fail(500); }
        variants := variants[id := Variant(t.id, name, stimulus, at)];
        resp := VariantIs(id, variants[id]);
      case AddRun(t, id, at) =>
        if !Found(segments, t, o) { return Missing(t); }
        if id in runs { return Fail(500); }
        runs := runs[id := SimRun(o, t.id, at)];
        resp := RunIs(id, runs[id]);
    }

    method Delete(o: Id, op: Op) returns (resp: Response)
      requires op.DeleteSegment? || op.DeleteCampaign? || op.DeleteVariant?
      modifies this
      ensures Outcome(State(), resp) == Step(old(State()), Request(o, op))
    {
      match op
      case DeleteSegment(t) =>
        if !Found(segments, t, o) { return Missing(t); }
        var _ := DeleteSegments({t.id});
        resp := NoContent;
      case DeleteCampaign(t) =>
        if !FoundCampaign(campaigns, t, o) { return Missing(t); }
        var _ := DeleteCampaigns({t.id});
        resp := NoContent;
      case DeleteVariant(t, v) =>
        if !FoundCampaign(campaigns, t, o) { return Missing(t); }
        if !v.Uuid? || v.id !in variants || variants[v.id].campaign != t.id { return Missing(v); }
        variants := variants - {v.id};
        resp := NoContent;
    }

    /** The transaction bracket around a handler: commit what it did, or undo all of it. */
    method Handle(r: Request) returns (resp: Response)
      requires IsWrite(r.op)
      modifies this
      ensures Outcome(State(), resp) == Step(old(State()), r)
    {
      var segments0, campaigns0, variants0, runs0 := segments, campaigns, variants, runs;
      assert r == Request(r.org, r.op);
      match r.op {
      case UpdateSegment(_, _, _, _) => resp := UpdateSegment(r.org, r.op);
      case UpdateCampaign(_, _, _, _, _) => resp := UpdateCampaign(r.org, r.op);
      case ClearDatabase => resp := ClearDatabase(r.org);
      case DeleteOrgData(isAdmin) => resp := DeleteOrgData(r.org, isAdmin);
      case DeleteSegment(_) => resp := Delete(r.org, r.op);
      case DeleteCampaign(_) => resp := Delete(r.org, r.op);
      case DeleteVariant(_, _) => resp := Delete(r.org, r.op);
      case CreateSegment(_, _, _, _, _) => resp := Insert(r.org, r.op);
      case CreateCampaign(_, _, _, _, _) => resp := Insert(r.org, r.op);
      case AddVariant(_, _, _, _, _, _) => resp := Insert(r.org, r.op);
      case AddRun(_, _, _) => resp := Insert(r.org, r.op);
      }
      if resp.Fail? {
        segments, campaigns, variants, runs := segments0, campaigns0, variants0, runs0;
      }
    }
  }
}
