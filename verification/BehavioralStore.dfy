/** The behavioral consumer: each event goes to a deduplicated table and, without deduplication,
    to a running profile of its user.

    Events are taken after anonymization, so a user is a user hash.  Money is in hundredths, with
    formatting to two decimals a parameter that may break ties either way. */
module BehavioralStore {
  import opened Prelude

  /** Event ids and user hashes are only compared. */
  type Key = nat

  datatype Event =
    | PageView(id: Key, user: Key, at: int, category: Option<string>)
    | Purchase(id: Key, user: Key, at: int, paidFor: string, amount: real)
    | Session(id: Key, user: Key, at: int, isStart: bool)

  const TOPIC_PAGE_VIEWS := "events.page_views"
  const TOPIC_PURCHASES := "events.purchases"
  const TOPIC_SESSIONS := "events.sessions"
  const MAX_ATTEMPTS: nat := 3

  /** An event as process_record gets it, with the number of insert attempts that will fail
      and whether the profile store answers. */
  datatype Delivery = Delivery(topic: string, event: Event, failures: nat, redisUp: bool)

  datatype Profile = Profile(pageViews: nat, purchases: nat, sessions: nat, total: Option<int>,
                             categories: Option<seq<string>>, lastSeen: Option<int>)

  const NO_PROFILE := Profile(0, 0, 0, None, None, None)

  datatype Store = Store(rows: map<Key, Event>, profiles: map<Key, Profile>)

  /** Raised is an exception that leaves process_record. */
  datatype Outcome = Success | Failure(errorType: string) | Raised

  type CentRounding = real -> int

  /** round(x) is a whole number of cents nearest to x. */
  ghost predicate Nearest(round: CentRounding) {
    forall x: real :: -0.5 <= 100.0 * x - round(x) as real <= 0.5
  }

  // ------------------------------------------------------------- one delivery

  function TopicOf(e: Event): string {
    match e
    case PageView(_, _, _, _) => TOPIC_PAGE_VIEWS
    case Purchase(_, _, _, _, _) => TOPIC_PURCHASES
    case Session(_, _, _, _) => TOPIC_SESSIONS
  }

  /** The event reaches the table. */
  predicate Reaches(d: Delivery) {
    d.topic == TopicOf(d.event) && d.failures < MAX_ATTEMPTS
  }

  predicate TouchesProfile(e: Event) {
    e.Session? ==> e.isStart
  }

  /** The event reaches the profile of its user. */
  predicate Applies(d: Delivery) {
    Reaches(d) && TouchesProfile(d.event) && d.redisUp
  }

  function ProfileOf(s: Store, u: Key): Profile {
    if u in s.profiles then s.profiles[u] else NO_PROFILE
  }

  function Categories(s: Store, u: Key): seq<string> {
    match ProfileOf(s, u).categories case Some(cs) => cs case None => []
  }

  function TotalCents(p: Profile): int {
    match p.total case Some(t) => t case None => 0
  }

  function Insert(rows: map<Key, Event>, e: Event): map<Key, Event> {
    if e.id in rows then rows else rows[e.id := e]
  }

  function Updated(round: CentRounding, p: Profile, e: Event): Profile
    requires TouchesProfile(e)
  {
    match e
    case PageView(_, _, at, c) =>
      var p1 := p.(pageViews := p.pageViews + 1, lastSeen := Some(at));
      if c.None? || c.value == "" then p1 else
      var cs := if p.categories.Some? then p.categories.value else [];
      p1.(categories := Some(if c.value in cs then cs else cs + [c.value]))
    case Purchase(_, _, at, _, amount) =>
      p.(purchases := p.purchases + 1, lastSeen := Some(at),
         total := Some(round(TotalCents(p) as real / 100.0 + amount)))
    case Session(_, _, at, _) =>
      p.(sessions := p.sessions + 1, lastSeen := Some(at))
  }

  function Process(round: CentRounding, s: Store, d: Delivery): (Store, Outcome) {
    if d.topic != TOPIC_PAGE_VIEWS && d.topic != TOPIC_PURCHASES && d.topic != TOPIC_SESSIONS
    then (s, Failure("UnknownTopic")) else
    if !Reaches(d) then (s, Raised) else
    var s1 := s.(rows := Insert(s.rows, d.event));
    if !TouchesProfile(d.event) then (s1, Success) else
    if !d.redisUp then (s1, Failure("RedisError")) else
    (s1.(profiles := s1.profiles[d.event.user := Updated(round, ProfileOf(s1, d.event.user), d.event)]), Success)
  }

  /** When process_record answers what: a topic it does not know is a failure, a record of another topic or three failed
      inserts escape, and the profile store failing is a failure, but only for an event that a profile counts. */
  lemma OutcomeExactly(round: CentRounding, s: Store, d: Delivery)
    ensures
      var o := Process(round, s, d).1;
      var known := d.topic == "events.page_views" || d.topic == "events.purchases" || d.topic == "events.sessions";
      var fits := match d.event
        case PageView(_, _, _, _) => d.topic == "events.page_views"
        case Purchase(_, _, _, _, _) => d.topic == "events.purchases"
        case Session(_, _, _, _) => d.topic == "events.sessions";
      var counted := match d.event case Session(_, _, _, isStart) => isStart case _ => true;
      && (o == Failure("UnknownTopic") <==> !known)
      && (o == Raised <==> known && (!fits || d.failures >= 3))
      && (o == Failure("RedisError") <==> fits && d.failures < 3 && counted && !d.redisUp)
      && (o == Success <==> fits && d.failures < 3 && (counted ==> d.redisUp))
  {
  }

  /** What a delivery does: its event is in the table, first come, first kept, if it fits and an insert succeeds; then the
      user's profile takes it if it is counted and the store answers; and nothing else changes. */
  lemma EffectExactly(round: CentRounding, s: Store, d: Delivery)
    ensures
      var t, e := Process(round, s, d).0, d.event;
      var fits := match e
        case PageView(_, _, _, _) => d.topic == "events.page_views"
        case Purchase(_, _, _, _, _) => d.topic == "events.purchases"
        case Session(_, _, _, _) => d.topic == "events.sessions";
      var counted := match e case Session(_, _, _, isStart) => isStart case _ => true;
      && t.rows == (if fits && d.failures < 3 && e.id !in s.rows then s.rows[e.id := e] else s.rows)
      && (forall u :: u in t.profiles && u != e.user ==> u in s.profiles && t.profiles[u] == s.profiles[u])
      && (forall u :: u in s.profiles ==> u in t.profiles)
      && (if fits && d.failures < 3 && counted && d.redisUp
          then e.user in t.profiles && Takes(round, ProfileOf(s, e.user), t.profiles[e.user], e)
          else t.profiles == s.profiles)
  {
  }

  /** A profile before and after an event. */
  ghost predicate Takes(round: CentRounding, p: Profile, q: Profile, e: Event) {
    && q.lastSeen == Some(e.at)
    && q.pageViews == p.pageViews + (if e.PageView? then 1 else 0)
    && q.purchases == p.purchases + (if e.Purchase? then 1 else 0)
    && q.sessions == p.sessions + (if e.Session? then 1 else 0)
    && q.total == (if e.Purchase? then Some(round((if p.total.Some? then p.total.value as real / 100.0 else 0.0) + e.amount))
                   else p.total)
    && (if e.PageView? && e.category.Some? && e.category.value != ""
        then q.categories.Some? && AddsOnce(if p.categories.Some? then p.categories.value else [], q.categories.value, e.category.value)
        else q.categories == p.categories)
  }

  predicate AddsOnce(xs: seq<string>, ys: seq<string>, x: string) {
    if x in xs then ys == xs else |ys| == |xs| + 1 && ys[..|xs|] == xs && ys[|xs|] == x
  }

  function Run(round: CentRounding, s: Store, ds: seq<Delivery>): Store {
    if ds == [] then s else Process(round, Run(round, s, ds[..|ds| - 1]), ds[|ds| - 1]).0
  }

  const EMPTY := Store(map[], map[])

  // ------------------------------------------------------------- the table

  /** Some delivery in ds stored, or tried to store, a row under this id. */
  predicate Offered(ds: seq<Delivery>, id: Key) {
    exists i :: 0 <= i < |ds| && Reaches(ds[i]) && ds[i].event.id == id
  }

  /** The event first offered under an id. */
  function FirstOffered(ds: seq<Delivery>, id: Key): (e: Event)
    requires Offered(ds, id)
  {
    var n := |ds| - 1;
    if Offered(ds[..n], id) then FirstOffered(ds[..n], id) else ds[n].event
  }

  predicate TellsFirstOffered(rows: map<Key, Event>, ds: seq<Delivery>, id: Key) {
    (id in rows <==> Offered(ds, id)) && (id in rows ==> rows[id] == FirstOffered(ds, id))
  }

  /** For every delivery sequence, failures and redeliveries included: the table has one row per id that reached
      it, and that row is the event first delivered under the id. */
  lemma {:induction false} TableIsFirstOffered(round: CentRounding, ds: seq<Delivery>)
    ensures
      forall id :: TellsFirstOffered(Run(round, EMPTY, ds).rows, ds, id)
  {
    if ds == [] {
    } else {
      var n := |ds| - 1;
      TableIsFirstOffered(round, ds[..n]);
      RowsAfter(round, Run(round, EMPTY, ds[..n]), ds[n]);
      forall id ensures TellsFirstOffered(Run(round, EMPTY, ds).rows, ds, id) {
        assert TellsFirstOffered(Run(round, EMPTY, ds[..n]).rows, ds[..n], id);
        OfferedSnoc(ds, id);
      }
    }
  }

  lemma RowsAfter(round: CentRounding, s: Store, d: Delivery)
    ensures Process(round, s, d).0.rows == if Reaches(d) then Insert(s.rows, d.event) else s.rows
  {
  }

  lemma {:induction false} OfferedSnoc(ds: seq<Delivery>, id: Key)
    requires ds != []
    ensures Offered(ds, id) <==> Offered(ds[..|ds| - 1], id) || (Reaches(ds[|ds| - 1]) && ds[|ds| - 1].event.id == id)
  {
    var n := |ds| - 1;
    if i :| 0 <= i < n && Reaches(ds[..n][i]) && ds[..n][i].event.id == id {
      assert ds[i] == ds[..n][i];
    }
    if i :| 0 <= i < |ds| && Reaches(ds[i]) && ds[i].event.id == id {
      if i < n { assert ds[..n][i] == ds[i]; }
    }
  }

  /** Every row is stored under its own id. */
  ghost predicate Keyed(rows: map<Key, Event>) {
    forall id :: id in rows ==> rows[id].id == id
  }

  lemma {:induction false} KeyedById(round: CentRounding, ds: seq<Delivery>)
    ensures Keyed(Run(round, EMPTY, ds).rows)
  {
    if ds == [] {
    } else {
      KeyedById(round, ds[..|ds| - 1]);
      var s0 := Run(round, EMPTY, ds[..|ds| - 1]);
      assert Keyed(Process(round, s0, ds[|ds| - 1]).0.rows);
    }
  }

  /** A redelivery repeats the event: the same id never carries two different events. */
  predicate Consistent(ds: seq<Delivery>) {
    forall i, j :: 0 <= i < |ds| && 0 <= j < |ds| && ds[i].event.id == ds[j].event.id ==> ds[i].event == ds[j].event
  }

  /** Some delivery in ds carried the event to the table. */
  predicate Carried(ds: seq<Delivery>, e: Event) {
    exists i :: 0 <= i < |ds| && Reaches(ds[i]) && ds[i].event == e
  }

  /** With redeliveries that repeat their event, the table is the set of distinct events that reached it. */
  lemma {:induction false} TableIsDistinctEvents(round: CentRounding, ds: seq<Delivery>)
    requires Consistent(ds)
    ensures
      var rows := Run(round, EMPTY, ds).rows;
      forall e: Event :: e.id in rows && rows[e.id] == e <==> Carried(ds, e)
  {
    TableIsFirstOffered(round, ds);
    var rows := Run(round, EMPTY, ds).rows;
    forall e: Event ensures e.id in rows && rows[e.id] == e <==> Carried(ds, e) {
      assert TellsFirstOffered(rows, ds, e.id);
      RowIffCarried(ds, e);
    }
  }

  lemma {:induction false} RowIffCarried(ds: seq<Delivery>, e: Event)
    requires Consistent(ds)
    ensures Offered(ds, e.id) && FirstOffered(ds, e.id) == e <==> Carried(ds, e)
  {
    if Offered(ds, e.id) { FirstOfferedIn(ds, e.id); }
  }

  lemma {:induction false} FirstOfferedIn(ds: seq<Delivery>, id: Key)
    requires Offered(ds, id)
    ensures exists i :: 0 <= i < |ds| && Reaches(ds[i]) && ds[i].event == FirstOffered(ds, id) && ds[i].event.id == id
  {
    var n := |ds| - 1;
    if Offered(ds[..n], id) {
      FirstOfferedIn(ds[..n], id);
      var i :| 0 <= i < n && Reaches(ds[..n][i]) && ds[..n][i].event == FirstOffered(ds[..n], id) && ds[..n][i].event.id == id;
      assert ds[i] == ds[..n][i];
    } else {
      OfferedSnoc(ds, id);
      assert ds[n].event == FirstOffered(ds, id);
    }
  }

  // ------------------------------------------------------------- the counters

  datatype Counter = PageViews | Purchases | Sessions

  /** The event is one the counter of user u counts. */
  predicate Matches(c: Counter, u: Key, e: Event) {
    e.user == u && match c
                   case PageViews => e.PageView?
                   case Purchases => e.Purchase?
                   case Sessions => e.Session? && e.isStart
  }

  function Count(s: Store, c: Counter, u: Key): nat {
    match c
    case PageViews => ProfileOf(s, u).pageViews
    case Purchases => ProfileOf(s, u).purchases
    case Sessions => ProfileOf(s, u).sessions
  }

  function MatchingRows(s: Store, c: Counter, u: Key): set<Key> {
    set id | id in s.rows && Matches(c, u, s.rows[id])
  }

  /** Matching deliveries of an id that is already in the table, counted again by the profile. */
  function Recounted(round: CentRounding, ds: seq<Delivery>, c: Counter, u: Key): nat {
    if ds == [] then 0 else
    var n, d := |ds| - 1, ds[|ds| - 1];
    Recounted(round, ds[..n], c, u)
      + if Applies(d) && Matches(c, u, d.event) && d.event.id in Run(round, EMPTY, ds[..n]).rows then 1 else 0
  }

  /** Matching deliveries that made a new row while the profile store was down. */
  function Uncounted(round: CentRounding, ds: seq<Delivery>, c: Counter, u: Key): nat {
    if ds == [] then 0 else
    var n, d := |ds| - 1, ds[|ds| - 1];
    Uncounted(round, ds[..n], c, u)
      + if Reaches(d) && !d.redisUp && Matches(c, u, d.event) && d.event.id !in Run(round, EMPTY, ds[..n]).rows then 1 else 0
  }

  lemma {:induction false} CountStep(round: CentRounding, s: Store, d: Delivery, c: Counter, u: Key)
    ensures Count(Process(round, s, d).0, c, u) == Count(s, c, u) + if Applies(d) && Matches(c, u, d.event) then 1 else 0
  {
  }

  lemma {:induction false} RowsStep(round: CentRounding, s: Store, d: Delivery, c: Counter, u: Key)
    ensures MatchingRows(Process(round, s, d).0, c, u) == MatchingRows(s, c, u)
      + if Reaches(d) && d.event.id !in s.rows && Matches(c, u, d.event) then {d.event.id} else {}
  {
  }

  /** The profile's counter and the table differ by exactly the redeliveries counted again and the events the
      profile missed. */
  lemma {:induction false} CounterAgainstTable(round: CentRounding, ds: seq<Delivery>, c: Counter, u: Key)
    ensures
      var s := Run(round, EMPTY, ds);
      Count(s, c, u) + Uncounted(round, ds, c, u) == |MatchingRows(s, c, u)| + Recounted(round, ds, c, u)
  {
    if ds != [] {
      var n, d := |ds| - 1, ds[|ds| - 1];
      CounterAgainstTable(round, ds[..n], c, u);
      CountStep(round, Run(round, EMPTY, ds[..n]), d, c, u);
      RowsStep(round, Run(round, EMPTY, ds[..n]), d, c, u);
    } else {
      assert MatchingRows(EMPTY, c, u) == {};
    }
  }

  predicate NoFailures(ds: seq<Delivery>) {
    forall i :: 0 <= i < |ds| ==> Reaches(ds[i]) && ds[i].redisUp
  }

  function Repeats(ds: seq<Delivery>, c: Counter, u: Key): nat {
    if ds == [] then 0 else
    var n, d := |ds| - 1, ds[|ds| - 1];
    Repeats(ds[..n], c, u) + if Matches(c, u, d.event) && Offered(ds[..n], d.event.id) then 1 else 0
  }

  /** Without store failures, a counter is the matching count over the table plus exactly the matching redeliveries. */
  lemma {:induction false} CounterIsRowsPlusRepeats(round: CentRounding, ds: seq<Delivery>, c: Counter, u: Key)
    requires NoFailures(ds)
    ensures
      var s := Run(round, EMPTY, ds);
      Count(s, c, u) == |MatchingRows(s, c, u)| + Repeats(ds, c, u)
  {
    CounterAgainstTable(round, ds, c, u);
    RepeatsAreRecounts(round, ds, c, u);
  }

  lemma {:induction false} RepeatsAreRecounts(round: CentRounding, ds: seq<Delivery>, c: Counter, u: Key)
    requires NoFailures(ds)
    ensures Recounted(round, ds, c, u) == Repeats(ds, c, u) && Uncounted(round, ds, c, u) == 0
  {
    if ds == [] {
    } else {
      RepeatsAreRecounts(round, ds[..|ds| - 1], c, u);
      TableIsFirstOffered(round, ds[..|ds| - 1]);
      assert TellsFirstOffered(Run(round, EMPTY, ds[..|ds| - 1]).rows, ds[..|ds| - 1], ds[|ds| - 1].event.id);
    }
  }

  // ------------------------------------------------------------- categories

  /** The delivery shows user u's profile a category. */
  predicate Shows(d: Delivery, u: Key) {
    Applies(d) && d.event.PageView? && d.event.user == u && d.event.category.Some? && d.event.category.value != ""
  }

  /** The non-empty categories of u's page views that reached the profile, in delivery order. */
  function CategoriesSeen(ds: seq<Delivery>, u: Key): seq<string> {
    if ds == [] then [] else
    var d, before := ds[|ds| - 1], CategoriesSeen(ds[..|ds| - 1], u);
    if Shows(d, u) then before + [d.event.category.value] else before
  }

  /** The elements that do not occur earlier. */
  function FirstSeen(xs: seq<string>): (ys: seq<string>)
    ensures forall x :: x in ys <==> x in xs
  {
    if xs == [] then [] else
    var n := |xs| - 1;
    assert forall x :: x in xs <==> x in xs[..n] || x == xs[n];
    if xs[n] in xs[..n] then FirstSeen(xs[..n]) else FirstSeen(xs[..n]) + [xs[n]]
  }

  lemma {:induction false} FirstSeenSnoc(xs: seq<string>, x: string)
    ensures FirstSeen(xs + [x]) == if x in xs then FirstSeen(xs) else FirstSeen(xs) + [x]
  {
    assert (xs + [x])[..|xs|] == xs;
  }

  lemma {:induction false} CategoriesStep(round: CentRounding, s: Store, d: Delivery, u: Key)
    ensures Categories(Process(round, s, d).0, u) ==
      if !Shows(d, u) || d.event.category.value in Categories(s, u) then Categories(s, u)
      else Categories(s, u) + [d.event.category.value]
  {
  }

  lemma {:induction false} CategoriesAreFirstSeen(round: CentRounding, ds: seq<Delivery>, u: Key)
    ensures Categories(Run(round, EMPTY, ds), u) == FirstSeen(CategoriesSeen(ds, u))
  {
    if ds == [] {
    } else {
      var n, d := |ds| - 1, ds[|ds| - 1];
      CategoriesAreFirstSeen(round, ds[..n], u);
      CategoriesStep(round, Run(round, EMPTY, ds[..n]), d, u);
      if Shows(d, u) { FirstSeenSnoc(CategoriesSeen(ds[..n], u), d.event.category.value); }
    }
  }

  /** The deliveries that are not redeliveries. */
  function Originals(ds: seq<Delivery>): seq<Delivery> {
    if ds == [] then [] else
    var n := |ds| - 1;
    if Offered(ds[..n], ds[n].event.id) then Originals(ds[..n]) else Originals(ds[..n]) + [ds[n]]
  }

  lemma {:induction false} SeenSnoc(ds: seq<Delivery>, d: Delivery, u: Key)
    ensures CategoriesSeen(ds + [d], u) ==
      if Shows(d, u) then CategoriesSeen(ds, u) + [d.event.category.value] else CategoriesSeen(ds, u)
  {
    assert (ds + [d])[..|ds|] == ds;
  }

  lemma {:induction false} SeenIn(ds: seq<Delivery>, i: nat, u: Key)
    requires i < |ds| && Shows(ds[i], u)
    ensures ds[i].event.category.value in CategoriesSeen(ds, u)
  {
    if i < |ds| - 1 { SeenIn(ds[..|ds| - 1], i, u); }
  }

  /** Redeliveries do not change the list of categories. */
  lemma {:induction false} CategoriesIgnoreRepeats(ds: seq<Delivery>, u: Key)
    requires NoFailures(ds) && Consistent(ds)
    ensures FirstSeen(CategoriesSeen(ds, u)) == FirstSeen(CategoriesSeen(Originals(ds), u))
  {
    if ds == [] {
    } else {
      var n, d := |ds| - 1, ds[|ds| - 1];
      CategoriesIgnoreRepeats(ds[..n], u);
      if Offered(ds[..n], d.event.id) {
        if Shows(d, u) {
          RepeatShownBefore(ds, u);
          FirstSeenSnoc(CategoriesSeen(ds[..n], u), d.event.category.value);
        }
      } else {
        SeenSnoc(Originals(ds[..n]), d, u);
        if Shows(d, u) {
          var c, xs, ys := d.event.category.value, CategoriesSeen(ds[..n], u), CategoriesSeen(Originals(ds[..n]), u);
          FirstSeenSnoc(xs, c);
          FirstSeenSnoc(ys, c);
          assert c in xs <==> c in FirstSeen(xs);
          assert c in ys <==> c in FirstSeen(ys);
        }
      }
    }
  }

  lemma {:induction false} RepeatShownBefore(ds: seq<Delivery>, u: Key)
    requires NoFailures(ds) && Consistent(ds) && ds != []
    requires Offered(ds[..|ds| - 1], ds[|ds| - 1].event.id) && Shows(ds[|ds| - 1], u)
    ensures ds[|ds| - 1].event.category.value in CategoriesSeen(ds[..|ds| - 1], u)
  {
    var before, d := ds[..|ds| - 1], ds[|ds| - 1];
    var i :| 0 <= i < |before| && Reaches(before[i]) && before[i].event.id == d.event.id;
    assert ds[i] == before[i];
    SeenIn(before, i, u);
  }

  /** For every delivery sequence without store failures, categories_viewed is the first-seen-order deduplication
      of the categories, whether or not messages were redelivered. */
  lemma CategoriesOverRun(round: CentRounding, ds: seq<Delivery>, u: Key)
    requires NoFailures(ds) && Consistent(ds)
    ensures Categories(Run(round, EMPTY, ds), u) == FirstSeen(CategoriesSeen(ds, u))
    ensures Categories(Run(round, EMPTY, ds), u) == Categories(Run(round, EMPTY, Originals(ds)), u)
  {
    CategoriesAreFirstSeen(round, ds, u);
    CategoriesAreFirstSeen(round, Originals(ds), u);
    CategoriesIgnoreRepeats(ds, u);
  }

  // ------------------------------------------------------------- money

  /** The exact amount of u's purchases that reached the profile, and their number. */
  function Spent(ds: seq<Delivery>, u: Key): real {
    if ds == [] then 0.0 else
    var d := ds[|ds| - 1];
    Spent(ds[..|ds| - 1], u) + if Applies(d) && Matches(Purchases, u, d.event) then d.event.amount else 0.0
  }

  function PurchasesSeen(ds: seq<Delivery>, u: Key): nat {
    if ds == [] then 0 else
    var d := ds[|ds| - 1];
    PurchasesSeen(ds[..|ds| - 1], u) + if Applies(d) && Matches(Purchases, u, d.event) then 1 else 0
  }

  function Total(s: Store, u: Key): real {
    TotalCents(ProfileOf(s, u)) as real / 100.0
  }

  function Abs(x: real): real { if x < 0.0 then -x else x }

  /** What one delivery does to the total. */
  lemma TotalAfter(round: CentRounding, s: Store, d: Delivery, u: Key)
    ensures Total(Process(round, s, d).0, u) ==
      if Applies(d) && Matches(Purchases, u, d.event) then round(Total(s, u) + d.event.amount) as real / 100.0
      else Total(s, u)
  {
    if Applies(d) && d.event.user == u {
      var p := ProfileOf(s, u);
      assert ProfileOf(Process(round, s, d).0, u) == Updated(round, p, d.event);
    } else {
      assert ProfileOf(Process(round, s, d).0, u) == ProfileOf(s, u);
    }
  }

  /** After n purchases the stored total is within half a cent times n of the exact sum, for any tie rule. */
  lemma {:induction false} TotalDrift(round: CentRounding, ds: seq<Delivery>, u: Key)
    requires Nearest(round)
    ensures Abs(Total(Run(round, EMPTY, ds), u) - Spent(ds, u)) <= 0.005 * PurchasesSeen(ds, u) as real
  {
    if ds == [] {
    } else {
      var n, d := |ds| - 1, ds[|ds| - 1];
      TotalDrift(round, ds[..n], u);
      TotalAfter(round, Run(round, EMPTY, ds[..n]), d, u);
      if Applies(d) && Matches(Purchases, u, d.event) {
        var x := Total(Run(round, EMPTY, ds[..n]), u) + d.event.amount;
        assert -0.5 <= 100.0 * x - round(x) as real <= 0.5;
      }
    }
  }

  predicate WholeCents(ds: seq<Delivery>) {
    forall i :: 0 <= i < |ds| && ds[i].event.Purchase? ==>
      100.0 * ds[i].event.amount == (100.0 * ds[i].event.amount).Floor as real
  }

  lemma RoundsWholeCents(round: CentRounding, cents: int, amount: real)
    requires Nearest(round) && 100.0 * amount == (100.0 * amount).Floor as real
    ensures var x := cents as real / 100.0 + amount;
      round(x) as real / 100.0 == x
  {
    var x := cents as real / 100.0 + amount;
    var k := cents + (100.0 * amount).Floor;
    assert 100.0 * x == k as real;
    assert -0.5 <= 100.0 * x - round(x) as real <= 0.5;
    assert round(x) == k;
  }

  /** When every amount is a whole number of cents nothing drifts. */
  lemma {:induction false} WholeCentsExact(round: CentRounding, ds: seq<Delivery>, u: Key)
    requires Nearest(round) && WholeCents(ds)
    ensures Total(Run(round, EMPTY, ds), u) == Spent(ds, u)
  {
    if ds == [] {
    } else {
      var n, d := |ds| - 1, ds[|ds| - 1];
      WholeCentsExact(round, ds[..n], u);
      TotalAfter(round, Run(round, EMPTY, ds[..n]), d, u);
      if Applies(d) && Matches(Purchases, u, d.event) {
        RoundsWholeCents(round, TotalCents(ProfileOf(Run(round, EMPTY, ds[..n]), u)), d.event.amount);
      }
    }
  }

  function HalfUp(x: real): int { (100.0 * x + 0.5).Floor }

  /** The bound is reached: rounding ties up, n purchases of half a cent are stored as n cents. */
  lemma {:induction false} DriftIsReached(ds: seq<Delivery>, u: Key)
    requires forall i :: 0 <= i < |ds| ==>
      Applies(ds[i]) && ds[i].event.Purchase? && ds[i].event.user == u && ds[i].event.amount == 0.005
    ensures Nearest(HalfUp)
    ensures PurchasesSeen(ds, u) == |ds| && TotalCents(ProfileOf(Run(HalfUp, EMPTY, ds), u)) == |ds|
    ensures Total(Run(HalfUp, EMPTY, ds), u) - Spent(ds, u) == 0.005 * |ds| as real
  {
    if ds == [] {
    } else {
      var n, d := |ds| - 1, ds[|ds| - 1];
      DriftIsReached(ds[..n], u);
      var x := n as real / 100.0 + 0.005;
      assert 100.0 * x + 0.5 == (n + 1) as real;
      assert HalfUp(x) == n + 1;
    }
  }

  // ---------------------------------------------------------------- last seen

  /** The profile was last seen at its last counted event. */
  lemma {:induction false} LastSeenIsLast(round: CentRounding, ds: seq<Delivery>, u: Key)
    ensures SeenLast(ProfileOf(Run(round, EMPTY, ds), u).lastSeen, ds, u)
  {
    if ds == [] {
    } else {
      var n, d := |ds| - 1, ds[|ds| - 1];
      LastSeenIsLast(round, ds[..n], u);
      EffectExactly(round, Run(round, EMPTY, ds[..n]), d);
      SeenLastSnoc(ProfileOf(Run(round, EMPTY, ds[..n]), u).lastSeen, ds[..n], d, u);
      assert ds == ds[..n] + [d];
    }
  }

  ghost predicate SeenLast(seen: Option<int>, ds: seq<Delivery>, u: Key) {
    && (seen.None? <==> forall i :: 0 <= i < |ds| ==> !(Applies(ds[i]) && ds[i].event.user == u))
    && (seen.Some? ==> exists i :: 0 <= i < |ds| && LastFor(ds, u, i) && ds[i].event.at == seen.value)
  }

  lemma SeenLastSnoc(seen: Option<int>, front: seq<Delivery>, d: Delivery, u: Key)
    requires SeenLast(seen, front, u)
    ensures SeenLast(if Applies(d) && d.event.user == u then Some(d.event.at) else seen, front + [d], u)
  {
    var ds, n := front + [d], |front|;
    assert ds[n] == d && forall i :: 0 <= i < n ==> ds[i] == front[i];
    if Applies(d) && d.event.user == u {
      assert LastFor(ds, u, n);
    } else if seen.Some? {
      var i :| 0 <= i < n && LastFor(front, u, i) && front[i].event.at == seen.value;
      assert LastFor(ds, u, i);
    }
  }

  predicate LastFor(ds: seq<Delivery>, u: Key, i: nat)
    requires i < |ds|
  {
    && Applies(ds[i]) && ds[i].event.user == u
    && forall j :: i < j < |ds| ==> !(Applies(ds[j]) && ds[j].event.user == u)
  }

  // ------------------------------------------------------- the handlers, in place

  class BehavioralConsumer {
    const round: CentRounding
    var rows: map<Key, Event>
    var profiles: map<Key, Profile>

    ghost function State(): Store
      reads this
    {
      Store(rows, profiles)
    }

    /** Up to three attempts; each success inserts unless the id is there. */
    method InsertBehavioralEvent(e: Event, failures: nat) returns (inserted: bool)
      modifies this`rows
      ensures inserted <==> failures < MAX_ATTEMPTS
      ensures rows == if inserted then Insert(old(rows), e) else old(rows)
    {
      inserted := false;
      var attempt := 0;
      while attempt < MAX_ATTEMPTS && !inserted
        invariant attempt <= MAX_ATTEMPTS
        invariant inserted <==> failures < attempt
        invariant rows == if inserted then Insert(old(rows), e) else old(rows)
        decreases MAX_ATTEMPTS - attempt
      {
        if attempt >= failures {
          if e.id !in rows { rows := rows[e.id := e]; }
          inserted := true;
        }
        attempt := attempt + 1;
      }
    }

    method UpdateProfilePageView(e: Event)
      requires e.PageView?
      modifies this`profiles
      ensures profiles == old(profiles)[e.user := Updated(round, ProfileOf(old(State()), e.user), e)]
    {
      var p := ProfileOf(Store(rows, profiles), e.user);
      var q := p.(pageViews := p.pageViews + 1);
      q := q.(lastSeen := Some(e.at));
      if e.category.Some? && e.category.value != "" {
        var cats := if p.categories.Some? then p.categories.value else [];
        if e.category.value !in cats { cats := cats + [e.category.value]; }
        q := q.(categories := Some(cats));
      }
      profiles := profiles[e.user := q];
    }

    method UpdateProfilePurchase(e: Event)
      requires e.Purchase?
      modifies this`profiles
      ensures profiles == old(profiles)[e.user := Updated(round, ProfileOf(old(State()), e.user), e)]
    {
      var p := ProfileOf(Store(rows, profiles), e.user);
      var q := p.(purchases := p.purchases + 1);
      var newTotal := (if p.total.Some? then p.total.value as real / 100.0 else 0.0) + e.amount;
      q := q.(total := Some(round(newTotal)));
      q := q.(lastSeen := Some(e.at));
      profiles := profiles[e.user := q];
    }

    method UpdateProfileSession(e: Event)
      requires e.Session? && e.isStart
      modifies this`profiles
      ensures profiles == old(profiles)[e.user := Updated(round, ProfileOf(old(State()), e.user), e)]
    {
      var p := ProfileOf(Store(rows, profiles), e.user);
      profiles := profiles[e.user := p.(sessions := p.sessions + 1, lastSeen := Some(e.at))];
    }

    method ProcessRecord(d: Delivery) returns (outcome: Outcome)
      modifies this
      ensures (State(), outcome) == Process(round, old(State()), d)
    {
      if d.topic != TOPIC_PAGE_VIEWS && d.topic != TOPIC_PURCHASES && d.topic != TOPIC_SESSIONS {
        return Failure("UnknownTopic");
      }
      if d.topic != TopicOf(d.event) { return Raised; }
      var inserted := InsertBehavioralEvent(d.event, d.failures);
      if !inserted { return Raised; }
      if d.event.Session? && !d.event.isStart { return Success; }
      if !d.redisUp { return Failure("RedisError"); }
      match d.event {
        case PageView(_, _, _, _) => UpdateProfilePageView(d.event);
        case Purchase(_, _, _, _, _) => UpdateProfilePurchase(d.event);
        case Session(_, _, _, _) => UpdateProfileSession(d.event);
      }
      outcome := Success;
    }
  }
}
