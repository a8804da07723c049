/** Feature extraction: one grouped query over the event table, wrapped in threshold filters
    when the segment definition asks for them. */
module FeatureExtraction {
  import opened Prelude
  import B = BehavioralStore

  const DAY_MS: int := 86_400_000

  datatype Definition = Definition(categoryAffinities: seq<string>, purchaseHistoryDays: int,
                                   minPurchaseCount: Option<nat>, minPageViews: Option<nat>)

  /** The SQL text as its parts, and its parameters. */
  datatype Part = Base | Wrapped | AtLeastPurchases | AtLeastPageViews
  datatype Query = Query(parts: seq<Part>, since: int, categories: Option<seq<string>>, params: map<string, nat>)

  datatype Features = Features(pageViews: nat, purchases: nat, sessions: nat, spent: real,
                               categories: set<string>, lastActivity: Option<int>)

  const NOTHING := Features(0, 0, 0, 0.0, {}, None)

  // ---------------------------------------------------------- the grouped query

  /** payload->>'category': a session carries none. */
  function CategoryOf(e: B.Event): Option<string> {
    match e
    case PageView(_, _, _, c) => c
    case Purchase(_, _, _, c, _) => Some(c)
    case Session(_, _, _, _) => None
  }

  predicate Selected(since: int, categories: Option<seq<string>>, e: B.Event) {
    e.at >= since && (categories.Some? ==> CategoryOf(e).Some? && CategoryOf(e).value in categories.value)
  }

  function AddRow(f: Features, e: B.Event): Features {
    Features(f.pageViews + (if e.PageView? then 1 else 0),
             f.purchases + (if e.Purchase? then 1 else 0),
             f.sessions + (if e.Session? then 1 else 0),
             f.spent + (if e.Purchase? then e.amount else 0.0),
             f.categories + (if CategoryOf(e).Some? then {CategoryOf(e).value} else {}),
             Some(if f.lastActivity.Some? && f.lastActivity.value > e.at then f.lastActivity.value else e.at))
  }

  function Aggregate(rows: seq<B.Event>, since: int, categories: Option<seq<string>>, u: B.Key): Features {
    if rows == [] then NOTHING else
    var e, f := rows[|rows| - 1], Aggregate(rows[..|rows| - 1], since, categories, u);
    if e.user == u && Selected(since, categories, e) then AddRow(f, e) else f
  }

  function Users(rows: seq<B.Event>, since: int, categories: Option<seq<string>>): set<B.Key> {
    set i | 0 <= i < |rows| && Selected(since, categories, rows[i]) :: rows[i].user
  }

  function Grouped(rows: seq<B.Event>, since: int, categories: Option<seq<string>>): map<B.Key, Features> {
    map u | u in Users(rows, since, categories) :: Aggregate(rows, since, categories, u)
  }

  /** A threshold clause keeps the groups that reach its parameter. */
  predicate Keeps(p: Part, params: map<string, nat>, f: Features) {
    match p
    case AtLeastPurchases => "min_purchase_count" in params && f.purchases >= params["min_purchase_count"]
    case AtLeastPageViews => "min_page_views" in params && f.pageViews >= params["min_page_views"]
    case _ => true
  }

  predicate KeepsAll(parts: seq<Part>, params: map<string, nat>, f: Features) {
    forall i :: 0 <= i < |parts| ==> Keeps(parts[i], params, f)
  }

  /** What executing a query returns. */
  function Execute(q: Query, rows: seq<B.Event>): map<B.Key, Features> {
    var groups := Grouped(rows, q.since, q.categories);
    map u | u in groups && KeepsAll(q.parts, q.params, groups[u]) :: groups[u]
  }

  // -------------------------------------------------------------- the pipeline

  function Since(d: Definition, now: int): int { now - d.purchaseHistoryDays * DAY_MS }

  function CategoryFilter(d: Definition): Option<seq<string>> {
    if d.categoryAffinities == [] then None else Some(d.categoryAffinities)
  }

  /** A user meets the thresholds of the definition. */
  predicate Meets(d: Definition, f: Features) {
    && (d.minPurchaseCount.Some? ==> f.purchases >= d.minPurchaseCount.value)
    && (d.minPageViews.Some? ==> f.pageViews >= d.minPageViews.value)
  }

  /** The extraction the definition stands for: thresholds filter the grouped rows. */
  function Extraction(d: Definition, rows: seq<B.Event>, now: int): map<B.Key, Features> {
    var groups := Grouped(rows, Since(d, now), CategoryFilter(d));
    map u | u in groups && Meets(d, groups[u]) :: groups[u]
  }

  /** The query text is grown clause by clause, as are its parameters. */
  method BuildQuery(d: Definition, now: int) returns (q: Query)
    ensures forall rows :: Execute(q, rows) == Extraction(d, rows, now)
    ensures q.parts == [Base] <==> d.minPurchaseCount.None? && d.minPageViews.None?
    ensures forall rows ::
      var all := Extraction(d.(minPurchaseCount := None, minPageViews := None), rows, now);
      Execute(q, rows) == map u | u in all && Meets(d, all[u]) :: all[u]
    ensures forall rows :: Extracts(d, rows, now, Execute(q, rows))
  {
    var parts, params := [Base], map[];
    if d.minPurchaseCount.Some? || d.minPageViews.Some? {
      var inner := [Wrapped];
      if d.minPurchaseCount.Some? {
        inner := inner + [AtLeastPurchases];
        params := params["min_purchase_count" := d.minPurchaseCount.value];
      }
      if d.minPageViews.Some? {
        inner := inner + [AtLeastPageViews];
        params := params["min_page_views" := d.minPageViews.value];
      }
      parts := inner;
    }
    q := Query(parts, Since(d, now), CategoryFilter(d), params);
    assert forall f :: KeepsAll(parts, params, f) <==> Meets(d, f) by {
      forall f ensures KeepsAll(parts, params, f) <==> Meets(d, f) {
        assert d.minPurchaseCount.Some? ==> parts[1] == AtLeastPurchases;
        assert d.minPageViews.Some? ==> parts[|parts| - 1] == AtLeastPageViews;
      }
    }
    forall rows
      ensures
        var all := Extraction(d.(minPurchaseCount := None, minPageViews := None), rows, now);
        Extraction(d, rows, now) == map u | u in all && Meets(d, all[u]) :: all[u]
    {
      ThresholdsOnlyFilter(d, rows, now);
    }
    forall rows ensures Extracts(d, rows, now, Extraction(d, rows, now)) { ExtractionSpelled(d, rows, now); }
  }

  method RunPipeline(d: Definition, rows: seq<B.Event>, now: int) returns (users: map<B.Key, Features>)
    ensures users == Extraction(d, rows, now) && Extracts(d, rows, now, users)
  {
    ExtractionSpelled(d, rows, now);
    var q := BuildQuery(d, now);
    users := Execute(q, rows);
  }

  // ----------------------------------------- the extraction, from the definition

  /** The row is the user's, falls into the definition's days of history, and is of one of its categories if it names
      any. */
  predicate InScope(d: Definition, now: int, u: B.Key, e: B.Event) {
    && e.user == u
    && e.at >= now - d.purchaseHistoryDays * 86_400_000
    && (d.categoryAffinities == [] ||
        match e
        case PageView(_, _, _, category) => category.Some? && category.value in d.categoryAffinities
        case Purchase(_, _, _, category, _) => category in d.categoryAffinities
        case Session(_, _, _, _) => false)
  }

  /** The row carries the category. */
  predicate Carries(e: B.Event, category: string) {
    match e
    case PageView(_, _, _, c) => c == Some(category)
    case Purchase(_, _, _, c, _) => c == category
    case Session(_, _, _, _) => false
  }

  function PageViewsIn(d: Definition, rows: seq<B.Event>, now: int, u: B.Key): set<nat> {
    set i: nat | i < |rows| && InScope(d, now, u, rows[i]) && rows[i].PageView?
  }

  function PurchasesIn(d: Definition, rows: seq<B.Event>, now: int, u: B.Key): set<nat> {
    set i: nat | i < |rows| && InScope(d, now, u, rows[i]) && rows[i].Purchase?
  }

  function SessionsIn(d: Definition, rows: seq<B.Event>, now: int, u: B.Key): set<nat> {
    set i: nat | i < |rows| && InScope(d, now, u, rows[i]) && rows[i].Session?
  }

  function SpentIn(d: Definition, rows: seq<B.Event>, now: int, u: B.Key): real {
    if rows == [] then 0.0 else
    var e := rows[|rows| - 1];
    SpentIn(d, rows[..|rows| - 1], now, u) + if InScope(d, now, u, e) && e.Purchase? then e.amount else 0.0
  }

  /** The features tell the user's rows in scope: how many of each kind, the sum spent, the categories, the latest. */
  ghost predicate Tells(d: Definition, rows: seq<B.Event>, now: int, u: B.Key, f: Features) {
    && TellsCounts(d, rows, now, u, f)
    && TellsCategories(d, rows, now, u, f.categories)
    && IsLatest(d, rows, now, u, f.lastActivity)
  }

  predicate TellsCounts(d: Definition, rows: seq<B.Event>, now: int, u: B.Key, f: Features) {
    && f.pageViews == |PageViewsIn(d, rows, now, u)|
    && f.purchases == |PurchasesIn(d, rows, now, u)|
    && f.sessions == |SessionsIn(d, rows, now, u)|
    && f.spent == SpentIn(d, rows, now, u)
  }

  ghost predicate TellsCategories(d: Definition, rows: seq<B.Event>, now: int, u: B.Key, categories: set<string>) {
    forall c :: c in categories <==> SomeCarries(d, rows, now, u, c)
  }

  ghost predicate SomeCarries(d: Definition, rows: seq<B.Event>, now: int, u: B.Key, category: string) {
    exists i :: 0 <= i < |rows| && InScope(d, now, u, rows[i]) && Carries(rows[i], category)
  }

  ghost predicate IsLatest(d: Definition, rows: seq<B.Event>, now: int, u: B.Key, last: Option<int>) {
    && (last.Some? ==> exists i :: 0 <= i < |rows| && InScope(d, now, u, rows[i]) && rows[i].at == last.value)
    && (forall i :: 0 <= i < |rows| && InScope(d, now, u, rows[i]) ==> last.Some? && rows[i].at <= last.value)
  }

  ghost predicate SomeInScope(d: Definition, rows: seq<B.Event>, now: int, u: B.Key) {
    exists i :: 0 <= i < |rows| && InScope(d, now, u, rows[i])
  }

  /** The result has exactly the users with a row in scope who meet the thresholds, each with the features of those
      rows. */
  ghost predicate Extracts(d: Definition, rows: seq<B.Event>, now: int, users: map<B.Key, Features>) {
    forall u :: ExtractsUser(d, rows, now, users, u)
  }

  ghost predicate ExtractsUser(d: Definition, rows: seq<B.Event>, now: int, users: map<B.Key, Features>, u: B.Key) {
    && (u in users <==>
        && SomeInScope(d, rows, now, u)
        && (d.minPurchaseCount.Some? ==> |PurchasesIn(d, rows, now, u)| >= d.minPurchaseCount.value)
        && (d.minPageViews.Some? ==> |PageViewsIn(d, rows, now, u)| >= d.minPageViews.value))
    && (u in users ==> Tells(d, rows, now, u, users[u]))
  }

  lemma ScopeIsSelection(d: Definition, now: int, u: B.Key, e: B.Event)
    ensures InScope(d, now, u, e) <==> e.user == u && Selected(Since(d, now), CategoryFilter(d), e)
  {
  }

  lemma KindsSnoc(d: Definition, front: seq<B.Event>, e: B.Event, now: int, u: B.Key)
    ensures
      var rows, n := front + [e], |front|;
      && PageViewsIn(d, rows, now, u) == PageViewsIn(d, front, now, u) + (if InScope(d, now, u, e) && e.PageView? then {n} else {})
      && PurchasesIn(d, rows, now, u) == PurchasesIn(d, front, now, u) + (if InScope(d, now, u, e) && e.Purchase? then {n} else {})
      && SessionsIn(d, rows, now, u) == SessionsIn(d, front, now, u) + (if InScope(d, now, u, e) && e.Session? then {n} else {})
  {
    var rows := front + [e];
    assert forall i :: 0 <= i < |front| ==> rows[i] == front[i];
  }

  lemma {:induction false} AggregateTells(d: Definition, rows: seq<B.Event>, now: int, u: B.Key)
    ensures Tells(d, rows, now, u, Aggregate(rows, Since(d, now), CategoryFilter(d), u))
  {
    if rows == [] {
    } else {
      var front, e := rows[..|rows| - 1], rows[|rows| - 1];
      assert rows == front + [e];
      AggregateTells(d, front, now, u);
      ScopeIsSelection(d, now, u, e);
      KindsSnoc(d, front, e, now, u);
      TellsSnoc(d, front, e, now, u, Aggregate(front, Since(d, now), CategoryFilter(d), u));
    }
  }

  lemma CountsSnoc(d: Definition, front: seq<B.Event>, e: B.Event, now: int, u: B.Key)
    ensures
      var rows, mine := front + [e], InScope(d, now, u, e);
      && |PageViewsIn(d, rows, now, u)| == |PageViewsIn(d, front, now, u)| + (if mine && e.PageView? then 1 else 0)
      && |PurchasesIn(d, rows, now, u)| == |PurchasesIn(d, front, now, u)| + (if mine && e.Purchase? then 1 else 0)
      && |SessionsIn(d, rows, now, u)| == |SessionsIn(d, front, now, u)| + (if mine && e.Session? then 1 else 0)
      && SpentIn(d, rows, now, u) == SpentIn(d, front, now, u) + (if mine && e.Purchase? then e.amount else 0.0)
  {
    KindsSnoc(d, front, e, now, u);
    assert (front + [e])[..|front|] == front;
  }

  lemma CarriesSnoc(d: Definition, front: seq<B.Event>, e: B.Event, now: int, u: B.Key, c: string)
    ensures SomeCarries(d, front + [e], now, u, c) <==>
      SomeCarries(d, front, now, u, c) || (InScope(d, now, u, e) && Carries(e, c))
  {
    var rows := front + [e];
    assert rows[|front|] == e;
    if i :| 0 <= i < |front| && InScope(d, now, u, front[i]) && Carries(front[i], c) {
      assert rows[i] == front[i] && Carries(rows[i], c);
    }
    if i :| 0 <= i < |rows| && InScope(d, now, u, rows[i]) && Carries(rows[i], c) {
      if i < |front| { assert front[i] == rows[i]; }
    }
  }

  lemma LatestSnoc(d: Definition, front: seq<B.Event>, e: B.Event, now: int, u: B.Key, last: Option<int>)
    requires IsLatest(d, front, now, u, last)
    ensures IsLatest(d, front + [e], now, u,
                     if !InScope(d, now, u, e) then last
                     else if last.Some? && last.value > e.at then last else Some(e.at))
  {
    var rows := front + [e];
    assert rows[|front|] == e && forall i :: 0 <= i < |front| ==> rows[i] == front[i];
    if last.Some? {
      var i :| 0 <= i < |front| && InScope(d, now, u, front[i]) && front[i].at == last.value;
      assert rows[i].at == last.value;
    }
  }

  lemma CategoriesSnoc(d: Definition, front: seq<B.Event>, e: B.Event, now: int, u: B.Key, f: Features)
    requires TellsCategories(d, front, now, u, f.categories)
    ensures TellsCategories(d, front + [e], now, u, if InScope(d, now, u, e) then AddRow(f, e).categories else f.categories)
  {
    var g := if InScope(d, now, u, e) then AddRow(f, e).categories else f.categories;
    forall c ensures c in g <==> SomeCarries(d, front + [e], now, u, c) { CarriesSnoc(d, front, e, now, u, c); }
  }

  lemma TellsCountsSnoc(d: Definition, front: seq<B.Event>, e: B.Event, now: int, u: B.Key, f: Features)
    requires TellsCounts(d, front, now, u, f)
    ensures TellsCounts(d, front + [e], now, u, if InScope(d, now, u, e) then AddRow(f, e) else f)
  {
    CountsSnoc(d, front, e, now, u);
  }

  lemma TellsSnoc(d: Definition, front: seq<B.Event>, e: B.Event, now: int, u: B.Key, f: Features)
    requires Tells(d, front, now, u, f)
    ensures Tells(d, front + [e], now, u, if InScope(d, now, u, e) then AddRow(f, e) else f)
  {
    TellsCountsSnoc(d, front, e, now, u, f);
    LatestSnoc(d, front, e, now, u, f.lastActivity);
    CategoriesSnoc(d, front, e, now, u, f);
  }

  /** The extraction is what the definition asks for. */
  lemma ExtractionSpelled(d: Definition, rows: seq<B.Event>, now: int)
    ensures Extracts(d, rows, now, Extraction(d, rows, now))
  {
    forall u ensures ExtractsUser(d, rows, now, Extraction(d, rows, now), u) {
      AggregateTells(d, rows, now, u);
      UsersAreInScope(d, rows, now, u);
    }
  }

  lemma UsersAreInScope(d: Definition, rows: seq<B.Event>, now: int, u: B.Key)
    ensures u in Users(rows, Since(d, now), CategoryFilter(d)) <==> SomeInScope(d, rows, now, u)
  {
    if SomeInScope(d, rows, now, u) {
      var i :| 0 <= i < |rows| && InScope(d, now, u, rows[i]);
      ScopeIsSelection(d, now, u, rows[i]);
    }
    if u in Users(rows, Since(d, now), CategoryFilter(d)) {
      var i :| 0 <= i < |rows| && Selected(Since(d, now), CategoryFilter(d), rows[i]) && rows[i].user == u;
      ScopeIsSelection(d, now, u, rows[i]);
    }
  }

  // ---------------------------------------------------------------- properties

  /** Extraction with thresholds is the extraction without them, filtered. */
  lemma ThresholdsOnlyFilter(d: Definition, rows: seq<B.Event>, now: int)
    ensures
      var all := Extraction(d.(minPurchaseCount := None, minPageViews := None), rows, now);
      Extraction(d, rows, now) == map u | u in all && Meets(d, all[u]) :: all[u]
  {
    var free := d.(minPurchaseCount := None, minPageViews := None);
    assert Since(free, now) == Since(d, now) && CategoryFilter(free) == CategoryFilter(d);
  }

  function RowsOf(rows: seq<B.Event>, since: int, categories: Option<seq<string>>, u: B.Key): nat {
    if rows == [] then 0 else
    var e := rows[|rows| - 1];
    RowsOf(rows[..|rows| - 1], since, categories, u) + if e.user == u && Selected(since, categories, e) then 1 else 0
  }

  /** The three counts of a user add up to the user's selected rows. */
  lemma {:induction false} CountsAddUp(rows: seq<B.Event>, since: int, categories: Option<seq<string>>, u: B.Key)
    ensures
      var f := Aggregate(rows, since, categories, u);
      f.pageViews + f.purchases + f.sessions == RowsOf(rows, since, categories, u)
  {
    if rows == [] {
    } else {
      CountsAddUp(rows[..|rows| - 1], since, categories, u);
    }
  }

  /** A user is extracted exactly when some row of theirs is selected, and then the latest such row dates them. */
  lemma {:induction false} ExtractedUsers(rows: seq<B.Event>, since: int, categories: Option<seq<string>>, u: B.Key)
    ensures u in Users(rows, since, categories) <==> RowsOf(rows, since, categories, u) > 0
    ensures
      var last := Aggregate(rows, since, categories, u).lastActivity;
      && (last.Some? <==> RowsOf(rows, since, categories, u) > 0)
      && (last.Some? ==> last.value >= since)
      && (last.Some? ==> forall i :: 0 <= i < |rows| && rows[i].user == u && Selected(since, categories, rows[i]) ==>
            rows[i].at <= last.value)
  {
    if rows == [] {
    } else {
      var n := |rows| - 1;
      ExtractedUsers(rows[..n], since, categories, u);
      assert Users(rows, since, categories) ==
        Users(rows[..n], since, categories) + if Selected(since, categories, rows[n]) then {rows[n].user} else {} by {
        forall i | 0 <= i < n && Selected(since, categories, rows[i])
          ensures rows[i].user in Users(rows[..n], since, categories)
        {
          assert rows[..n][i] == rows[i];
        }
      }
      forall i | 0 <= i < n && rows[i].user == u && Selected(since, categories, rows[i])
        ensures rows[i].at <= Aggregate(rows, since, categories, u).lastActivity.value
      {
        assert rows[..n][i] == rows[i];
      }
    }
  }

  /** Widening the window keeps every extracted user and never lowers a count. */
  lemma {:induction false} WideningRaises(rows: seq<B.Event>, since: int, earlier: int, categories: Option<seq<string>>, u: B.Key)
    requires earlier <= since
    ensures
      var f, g := Aggregate(rows, since, categories, u), Aggregate(rows, earlier, categories, u);
      f.pageViews <= g.pageViews && f.purchases <= g.purchases && f.sessions <= g.sessions && f.categories <= g.categories
    ensures u in Users(rows, since, categories) ==> u in Users(rows, earlier, categories)
  {
    if rows == [] {
    } else {
      WideningRaises(rows[..|rows| - 1], since, earlier, categories, u);
    }
  }

  /** More days of history never lose a user or lower a count of the unfiltered extraction. */
  lemma MoreDaysRaise(d: Definition, days: int, rows: seq<B.Event>, now: int, u: B.Key)
    requires d.minPurchaseCount.None? && d.minPageViews.None? && d.purchaseHistoryDays <= days
    requires u in Extraction(d, rows, now)
    ensures u in Extraction(d.(purchaseHistoryDays := days), rows, now)
    ensures
      var f, g := Extraction(d, rows, now)[u], Extraction(d.(purchaseHistoryDays := days), rows, now)[u];
      f.pageViews <= g.pageViews && f.purchases <= g.purchases && f.sessions <= g.sessions
  {
    WideningRaises(rows, Since(d, now), Since(d.(purchaseHistoryDays := days), now), CategoryFilter(d), u);
  }

  function ConversionRate(f: Features): real {
    f.purchases as real / (if f.sessions > 1 then f.sessions else 1) as real
  }

  /** Any category filter removes every session row, so the conversion rate is the purchase count. */
  lemma CategoryFilterDropsSessions(d: Definition, rows: seq<B.Event>, now: int, u: B.Key)
    requires d.categoryAffinities != [] && u in Extraction(d, rows, now)
    ensures Extraction(d, rows, now)[u].sessions == 0
    ensures ConversionRate(Extraction(d, rows, now)[u]) == Extraction(d, rows, now)[u].purchases as real
  {
    NoSessions(rows, Since(d, now), d.categoryAffinities, u);
  }

  lemma {:induction false} NoSessions(rows: seq<B.Event>, since: int, categories: seq<string>, u: B.Key)
    ensures Aggregate(rows, since, Some(categories), u).sessions == 0
  {
    if rows == [] {
    } else {
      NoSessions(rows[..|rows| - 1], since, categories, u);
    }
  }

  // ------------------------------------------------- features against profiles

  /** rows lists the table once, in some order. */
  ghost predicate Lists(rows: seq<B.Event>, table: map<B.Key, B.Event>) {
    && (forall i, j :: 0 <= i < j < |rows| ==> rows[i].id != rows[j].id)
    && (forall i :: 0 <= i < |rows| ==> rows[i].id in table && table[rows[i].id] == rows[i])
    && (forall id :: id in table ==> table[id] in rows)
  }

  ghost function MatchingIds(rows: seq<B.Event>, c: B.Counter, u: B.Key): set<B.Key> {
    set i | 0 <= i < |rows| && B.Matches(c, u, rows[i]) :: rows[i].id
  }

  function SessionEnds(rows: seq<B.Event>, since: int, u: B.Key): nat {
    if rows == [] then 0 else
    var e := rows[|rows| - 1];
    SessionEnds(rows[..|rows| - 1], since, u) + if e.Session? && !e.isStart && e.user == u && e.at >= since then 1 else 0
  }

  lemma {:induction false} CountsAreMatches(rows: seq<B.Event>, since: int, u: B.Key)
    requires forall i, j :: 0 <= i < j < |rows| ==> rows[i].id != rows[j].id
    requires forall i :: 0 <= i < |rows| ==> rows[i].at >= since
    ensures
      var f := Aggregate(rows, since, None, u);
      && f.pageViews == |MatchingIds(rows, B.PageViews, u)|
      && f.purchases == |MatchingIds(rows, B.Purchases, u)|
      && f.sessions == |MatchingIds(rows, B.Sessions, u)| + SessionEnds(rows, since, u)
  {
    if rows != [] {
      CountsAreMatches(rows[..|rows| - 1], since, u);
      MatchingSnoc(rows, B.PageViews, u);
      MatchingSnoc(rows, B.Purchases, u);
      MatchingSnoc(rows, B.Sessions, u);
    } else {
      assert MatchingIds(rows, B.PageViews, u) == MatchingIds(rows, B.Purchases, u) == MatchingIds(rows, B.Sessions, u) == {};
    }
  }

  lemma {:induction false} MatchingSnoc(rows: seq<B.Event>, c: B.Counter, u: B.Key)
    requires rows != [] && forall i, j :: 0 <= i < j < |rows| ==> rows[i].id != rows[j].id
    ensures |MatchingIds(rows, c, u)| ==
      |MatchingIds(rows[..|rows| - 1], c, u)| + if B.Matches(c, u, rows[|rows| - 1]) then 1 else 0
  {
    var n := |rows| - 1;
    var front := rows[..n];
    var before, after := MatchingIds(front, c, u), MatchingIds(rows, c, u);
    var last := if B.Matches(c, u, rows[n]) then {rows[n].id} else {};
    assert rows == front + [rows[n]];
    MatchingWithLast(front, rows[n], c, u);
    forall i | 0 <= i < n ensures front[i].id != rows[n].id { assert front[i] == rows[i]; }
    assert before !! last && after == before + last;
  }

  lemma MatchingWithLast(front: seq<B.Event>, e: B.Event, c: B.Counter, u: B.Key)
    ensures MatchingIds(front + [e], c, u) == MatchingIds(front, c, u) + if B.Matches(c, u, e) then {e.id} else {}
  {
    var rows := front + [e];
    forall id | id in MatchingIds(front, c, u) ensures id in MatchingIds(rows, c, u) {
      var i :| 0 <= i < |front| && B.Matches(c, u, front[i]) && front[i].id == id;
      assert rows[i] == front[i];
    }
    if B.Matches(c, u, e) { assert rows[|front|] == e; }
  }

  /** Without store failures, over a window that covers the whole table, the profile counts what the features count
      plus the redeliveries; and the features count session ends, which the profile never does. */
  lemma {:induction false} ProfileAgainstFeatures(round: B.CentRounding, ds: seq<B.Delivery>, rows: seq<B.Event>, since: int, u: B.Key)
    requires B.NoFailures(ds) && Lists(rows, B.Run(round, B.EMPTY, ds).rows)
    requires forall i :: 0 <= i < |rows| ==> rows[i].at >= since
    ensures
      var s, f := B.Run(round, B.EMPTY, ds), Aggregate(rows, since, None, u);
      && B.Count(s, B.PageViews, u) == f.pageViews + B.Repeats(ds, B.PageViews, u)
      && B.Count(s, B.Purchases, u) == f.purchases + B.Repeats(ds, B.Purchases, u)
      && B.Count(s, B.Sessions, u) + SessionEnds(rows, since, u) == f.sessions + B.Repeats(ds, B.Sessions, u)
  {
    CountsAreMatches(rows, since, u);
    IdsAreRows(round, ds, rows, B.PageViews, u);
    IdsAreRows(round, ds, rows, B.Purchases, u);
    IdsAreRows(round, ds, rows, B.Sessions, u);
    B.CounterIsRowsPlusRepeats(round, ds, B.PageViews, u);
    B.CounterIsRowsPlusRepeats(round, ds, B.Purchases, u);
    B.CounterIsRowsPlusRepeats(round, ds, B.Sessions, u);
  }

  lemma {:induction false} IdsAreRows(round: B.CentRounding, ds: seq<B.Delivery>, rows: seq<B.Event>, c: B.Counter, u: B.Key)
    requires Lists(rows, B.Run(round, B.EMPTY, ds).rows)
    ensures MatchingIds(rows, c, u) == B.MatchingRows(B.Run(round, B.EMPTY, ds), c, u)
  {
    var s := B.Run(round, B.EMPTY, ds);
    B.KeyedById(round, ds);
    forall id | id in B.MatchingRows(s, c, u) ensures id in MatchingIds(rows, c, u) {
      var i :| 0 <= i < |rows| && rows[i] == s.rows[id];
      assert rows[i].id == id && B.Matches(c, u, rows[i]);
    }
    forall id | id in MatchingIds(rows, c, u) ensures id in B.MatchingRows(s, c, u) {
      var i :| 0 <= i < |rows| && B.Matches(c, u, rows[i]) && rows[i].id == id;
    }
  }
}
