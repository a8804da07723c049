/** Reading one run through the expiring cache.

    The cached payload is the response body, which has no org; the reader asks it for one. */
module RunCache {
  import opened Prelude
  import S = SimulationRuns
  import R = ReplyParsing

  const TTL_COMPLETE: int := 86_400
  const TTL_PENDING: int := 30

  datatype Field = IdField(id: S.Id) | Text(text: Option<string>) | Units(n: Option<int>) | StatusField(st: S.Status)
                 | Factors(factors: Option<seq<R.Json>>) | Time(at: Option<int>)

  type Payload = map<string, Field>

  datatype Entry = Entry(payload: Payload, expiresAt: int)

  datatype State = State(rows: S.Table, cache: map<string, Entry>, now: int)

  datatype Response = Found(body: Payload) | Fail(status: nat)

  /** How the run id in a path parses. */
  type Parse = string -> Option<S.Id>

  /** The response body of a row. */
  function Body(id: S.Id, row: S.Row): Payload {
    map["id" := IdField(id), "segment_id" := IdField(row.segment), "stimulus" := Text(Some(row.stimulus)),
        "verbatim_response" := Text(row.verbatim), "sentiment" := Text(row.sentiment),
        "likelihood_to_convert" := Units(row.likelihood), "conversion_score" := Units(row.score),
        "llm_metadata" := Factors(row.keyFactors), "status" := StatusField(row.status),
        "completed_at" := Time(row.completedAt)]
  }

  /** The org-scoped query alone. */
  function QueryAnswer(parse: Parse, rows: S.Table, org: S.Id, path: string): Response {
    match parse(path)
    case None => Fail(422)
    case Some(id) => if id in rows && rows[id].org == Some(org) then Found(Body(id, rows[id])) else Fail(404)
  }

  function CachedRun(s: State, path: string, up: bool): Option<Payload> {
    if up && path in s.cache && s.now < s.cache[path].expiresAt then Some(s.cache[path].payload) else None
  }

  predicate BelongsTo(p: Payload, org: S.Id) {
    "org_id" in p && p["org_id"] == IdField(org)
  }

  /** One read: the cache is consulted and refilled, each of which may fail. */
  function GetRun(parse: Parse, s: State, org: S.Id, path: string, getUp: bool, setUp: bool): (State, Response) {
    if parse(path).None? then (s, Fail(422)) else
    var cached := CachedRun(s, path, getUp);
    if cached.Some? && BelongsTo(cached.value, org) then (s, Found(cached.value)) else
    var id := parse(path).value;
    if !(id in s.rows && s.rows[id].org == Some(org)) then (s, Fail(404)) else
    var body := Body(id, s.rows[id]);
    (if setUp then s.(cache := s.cache[path := Entry(body, s.now + Ttl(s.rows[id].status))]) else s, Found(body))
  }

  function Ttl(st: S.Status): int { if st.Completed? then TTL_COMPLETE else TTL_PENDING }

  /** What happens between and around reads: a read, any change of the table, time passing, an entry vanishing. */
  datatype Step =
    | Get(org: S.Id, path: string, getUp: bool, setUp: bool)
    | TableBecomes(rows: S.Table)
    | Tick(seconds: nat)
    | Evict(path: string)

  function Next(parse: Parse, s: State, step: Step): State {
    match step
    case Get(org, path, getUp, setUp) => GetRun(parse, s, org, path, getUp, setUp).0
    case TableBecomes(rows) => s.(rows := rows)
    case Tick(n) => s.(now := s.now + n)
    case Evict(path) => s.(cache := s.cache - {path})
  }

  function Run(parse: Parse, s: State, steps: seq<Step>): State {
    if steps == [] then s else Next(parse, Run(parse, s, steps[..|steps| - 1]), steps[|steps| - 1])
  }

  /** No cached payload names an org, and each is the body some row had. */
  ghost predicate Bodies(cache: map<string, Entry>) {
    forall path :: path in cache ==>
      "org_id" !in cache[path].payload && exists id, row :: cache[path].payload == Body(id, row)
  }

  lemma BodyHasNoOrg(id: S.Id, row: S.Row)
    ensures "org_id" !in Body(id, row)
  {
    var k := "org_id";
    assert |"id"| != |k| && |"segment_id"| != |k| && |"stimulus"| != |k| && |"verbatim_response"| != |k|;
    assert |"sentiment"| != |k| && |"likelihood_to_convert"| != |k| && |"conversion_score"| != |k|;
    assert |"llm_metadata"| != |k| && "status"[0] != k[0] && |"completed_at"| != |k|;
  }

  lemma {:induction false} CacheHoldsBodies(parse: Parse, s: State, steps: seq<Step>)
    requires Bodies(s.cache)
    ensures Bodies(Run(parse, s, steps).cache)
  {
    if steps == [] {
    } else {
      CacheHoldsBodies(parse, s, steps[..|steps| - 1]);
      StepHoldsBodies(parse, Run(parse, s, steps[..|steps| - 1]), steps[|steps| - 1]);
    }
  }

  lemma StepHoldsBodies(parse: Parse, s: State, step: Step)
    requires Bodies(s.cache)
    ensures Bodies(Next(parse, s, step).cache)
  {
    if step.Get? && parse(step.path).Some? && parse(step.path).value in s.rows {
      BodyHasNoOrg(parse(step.path).value, s.rows[parse(step.path).value]);
    }
  }

  /** Over every interleaving of reads, cache writes and failures, expiries and changes of the table, a read returns
      exactly what the org-scoped query returns at that moment: never a stale body, never another org's. */
  lemma {:induction false} ReadsAreQueries(parse: Parse, s: State, steps: seq<Step>, org: S.Id, path: string, getUp: bool, setUp: bool)
    requires Bodies(s.cache)
    ensures
      var t := Run(parse, s, steps);
      GetRun(parse, t, org, path, getUp, setUp).1 == QueryAnswer(parse, t.rows, org, path)
  {
    CacheHoldsBodies(parse, s, steps);
  }

  /** So two orgs never get the same run, and the cache lends nothing to a run that is gone. */
  lemma {:induction false} NoCrossOrgRead(parse: Parse, s: State, steps: seq<Step>, a: S.Id, b: S.Id, path: string, getUp: bool, setUp: bool)
    requires Bodies(s.cache) && a != b
    ensures
      var t := Run(parse, s, steps);
      GetRun(parse, t, a, path, getUp, setUp).1.Found? ==> GetRun(parse, t, b, path, getUp, setUp).1 == Fail(404)
  {
    ReadsAreQueries(parse, s, steps, a, path, getUp, setUp);
    ReadsAreQueries(parse, s, steps, b, path, getUp, setUp);
  }

  /** What a reader is shown: exactly these fields of a run that is its org's. */
  ghost predicate ShowsRun(rows: S.Table, org: S.Id, id: S.Id, body: Payload) {
    && id in rows && rows[id].org == Some(org)
    && body.Keys == {"id", "segment_id", "stimulus", "verbatim_response", "sentiment", "likelihood_to_convert",
                     "conversion_score", "llm_metadata", "status", "completed_at"}
    && body["id"] == IdField(id) && body["segment_id"] == IdField(rows[id].segment)
    && body["stimulus"] == Text(Some(rows[id].stimulus))
    && body["verbatim_response"] == Text(rows[id].verbatim) && body["sentiment"] == Text(rows[id].sentiment)
    && body["likelihood_to_convert"] == Units(rows[id].likelihood)
    && body["conversion_score"] == Units(rows[id].score)
    && body["llm_metadata"] == Factors(rows[id].keyFactors)
    && body["status"] == StatusField(rows[id].status) && body["completed_at"] == Time(rows[id].completedAt)
  }

  lemma BodyShowsRun(rows: S.Table, org: S.Id, id: S.Id)
    requires id in rows && rows[id].org == Some(org)
    ensures ShowsRun(rows, org, id, Body(id, rows[id]))
  {
    assert |"id"| == 2 && |"segment_id"| == 10 && |"stimulus"| == 8 && |"verbatim_response"| == 17 && |"sentiment"| == 9;
    assert |"likelihood_to_convert"| == 21 && |"conversion_score"| == 16 && |"llm_metadata"| == 12 && |"status"| == 6;
    assert |"completed_at"| == 12 && "llm_metadata"[0] == 'l' && "completed_at"[0] == 'c';
  }

  /** After any interleaving a read is refused for a malformed id, finds nothing that is not the org's, and otherwise
      shows the run as it is then. */
  lemma ReadsShowRuns(parse: Parse, s: State, steps: seq<Step>, org: S.Id, path: string, getUp: bool, setUp: bool)
    requires Bodies(s.cache)
    ensures
      var t := Run(parse, s, steps);
      match GetRun(parse, t, org, path, getUp, setUp).1
      case Found(body) => parse(path).Some? && ShowsRun(t.rows, org, parse(path).value, body)
      case Fail(status) =>
        if parse(path).None? then status == 422
        else status == 404 && (parse(path).value in t.rows ==> t.rows[parse(path).value].org != Some(org))
  {
    ReadsAreQueries(parse, s, steps, org, path, getUp, setUp);
    var t := Run(parse, s, steps);
    if parse(path).Some? && parse(path).value in t.rows && t.rows[parse(path).value].org == Some(org) {
      BodyShowsRun(t.rows, org, parse(path).value);
    }
  }

  /** What a read leaves in the cache: the body it showed, for a day if the run is completed and for half a minute
      otherwise; and no other entry. */
  lemma ReadCaches(parse: Parse, s: State, org: S.Id, path: string, getUp: bool, setUp: bool)
    requires Bodies(s.cache)
    ensures
      var (t, r) := GetRun(parse, s, org, path, getUp, setUp);
      && t.rows == s.rows && t.now == s.now
      && (forall p :: p in s.cache && p != path ==> p in t.cache && t.cache[p] == s.cache[p])
      && (forall p :: p in t.cache && p != path ==> p in s.cache)
      && if r.Found? && setUp
         then
           var completed := s.rows[parse(path).value].status.Completed?;
           path in t.cache && t.cache[path] == Entry(r.body, s.now + if completed then 86_400 else 30)
         else t.cache == s.cache
  {
    ReadsAreQueries(parse, s, [], org, path, getUp, setUp);
  }

  class RunReader {
    const parse: Parse
    var rows: S.Table
    var cache: map<string, Entry>
    var now: int

    ghost function Now(): State
      reads this
    {
      State(rows, cache, now)
    }

    method GetCachedRun(path: string, up: bool) returns (p: Option<Payload>)
      modifies this`cache
      ensures p == CachedRun(old(Now()), path, up)
      ensures p.Some? <==> up && path in old(cache) && now < old(cache)[path].expiresAt
      ensures p.Some? ==> p.value == old(cache)[path].payload
      ensures cache == if path in old(cache) && now >= old(cache)[path].expiresAt then old(cache) - {path} else old(cache)
    {
      p := if up && path in cache && now < cache[path].expiresAt then Some(cache[path].payload) else None;
      if path in cache && now >= cache[path].expiresAt { cache := cache - {path}; }
    }

    method CacheRun(path: string, body: Payload, status: S.Status, up: bool)
      modifies this`cache
      ensures cache == if up then old(cache)[path := Entry(body, now + Ttl(status))] else old(cache)
    {
      var ttl := if status.Completed? then TTL_COMPLETE else TTL_PENDING;
      if up { cache := cache[path := Entry(body, now + ttl)]; }
    }

    /** The read, expired entries dropping out as they are met. */
    method Read(org: S.Id, path: string, getUp: bool, setUp: bool) returns (r: Response)
      modifies this`cache
      ensures r == GetRun(parse, old(Now()), org, path, getUp, setUp).1
      ensures Bodies(old(cache)) ==> Bodies(cache) && r == QueryAnswer(parse, rows, org, path)
      ensures Bodies(old(cache)) && r.Found? && setUp ==>
        path in cache && cache[path] == Entry(r.body, now + if rows[parse(path).value].status.Completed? then 86_400 else 30)
      ensures forall p :: p in old(cache) && p != path ==> p in cache && cache[p] == old(cache)[p]
    {
      if parse(path).None? { return Fail(422); }
      var cached := GetCachedRun(path, getUp);
      if cached.Some? && BelongsTo(cached.value, org) { return Found(cached.value); }
      var id := parse(path).value;
      if id !in rows || rows[id].org != Some(org) { return Fail(404); }
      var body := Body(id, rows[id]);
      BodyHasNoOrg(id, rows[id]);
      CacheRun(path, body, rows[id].status, setUp);
      r := Found(body);
    }
  }
}
