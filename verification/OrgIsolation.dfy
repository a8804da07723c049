/** What one org can learn of the others: the org-scoped store together with the two things all orgs share, the
    minute counter of queued starts and the disk memo of completions.

    The statement is about two runs: everybody's requests, and one org's requests alone. */
module OrgIsolation {
  import opened Prelude
  import T = TenantStore
  import L = RateLimiter
  import I = Inference
  import P = StimulusPrompt
  import R = ReplyParsing
  import S = SimulationRuns

  type Id = T.Id

  /** Why no completion came. */
  datatype Trouble = FileBroken(text: string) | WriteFailed(write: I.Write) | ApiFailed(last: I.Attempt)

  /** What does not change: the limit, the inference service, how replies are stored, the system prompt that is built
      from a segment's name and definition, and the error texts: of a missing completion, and of a reply that is
      rejected, which name the stimulus. */
  datatype Setting = Setting(limit: int, service: I.Service, text: S.TextOf, system: (string, string) -> string,
                             trouble: Trouble -> string, rejection: (string, string) -> string)

  datatype World = World(db: T.Db, counters: L.Store, memo: I.Client)

  /** A request: one of the store's own, or a run start through either endpoint.  The stimulus is absent when it does
      not parse; `tick`, `queueUp` and `weather` are what the limiter, the queue and the API do. */
  datatype Call =
    | Store(op: T.Op)
    | StartQueued(segment: T.IdText, newId: Id, at: int, stimulus: Option<P.Stimulus>, tick: L.Request, queueUp: bool)
    | StartSync(segment: T.IdText, newId: Id, at: int, stimulus: Option<P.Stimulus>, model: Option<string>,
                temperature: Option<real>, weather: I.Weather)

  datatype Request = Request(org: Id, call: Call)

  /** All that a synchronous response shows of the inference behind it, at the store's precision. */
  datatype Sight =
    | Failed(detail: string)
    | Unstorable
    | Result(verbatim: Option<string>, sentiment: string, likelihood: int, score: int, keyFactors: seq<R.Json>,
             inputTokens: nat, outputTokens: nat, latency: real)

  datatype Response =
    | Plain(body: T.Response)
    | Limited(retryAfter: int)
    | Answered(id: Id, run: T.SimRun, sight: Sight)
    | InferenceFailed(detail: string)

  // ------------------------------------------------------------------ one request

  predicate GoodStimulus(t: Option<P.Stimulus>) { t.Some? && P.ValidStimulus(t.value) }

  function TroubleOf(disk: map<I.Key, I.File>, q: I.Request): Trouble {
    if q.key in disk then FileBroken(if disk[q.key].Broken? then disk[q.key].text else "") else
    var last := q.env(I.Calls(q.env) - 1);
    if last.Reply? then WriteFailed(q.write) else ApiFailed(last)
  }

  /** What a response shows of a completion, or of the trouble in getting one. */
  function Shows(st: Setting, completion: Option<I.Completion>, trouble: Trouble, stimulusId: string): Sight {
    match I.Outcome(st.service, completion)
    case NoCompletion => Failed(st.trouble(trouble))
    case Rejected(_) => Failed(st.rejection(stimulusId, if completion.Some? then completion.value.text else ""))
    case Response(r, score) =>
      var text := S.VerbatimText(st.text, r.verbatim);
      if text.Unstorable? || completion.None? then Unstorable else
      Result(text.t, r.sentiment, if r.likelihood.Fin? then S.Round4(r.likelihood.r) else 0, S.Round4(score), r.keyFactors,
             completion.value.inputTokens, completion.value.outputTokens, completion.value.latency)
  }

  function AddRun(r: Request): T.Request
    requires !r.call.Store?
  {
    T.Request(r.org, T.AddRun(r.call.segment, r.call.newId, r.call.at))
  }

  /** The start finds its segment, and its stimulus parses. */
  predicate Proceeds(db: T.Db, r: Request) {
    !r.call.Store? && T.Found(db.segments, r.call.segment, r.org) && GoodStimulus(r.call.stimulus)
  }

  /** What a synchronous start asks of the inference service. */
  function Asks(st: Setting, db: T.Db, r: Request): I.Request
    requires r.call.StartSync? && Proceeds(db, r)
  {
    var segment := db.segments[r.call.segment.id];
    var ask := I.Ask(st.system(segment.name, segment.definition), r.call.stimulus.value, r.call.model, r.call.temperature);
    I.Request(I.KeyOf(st.service, ask), r.call.weather.env, r.call.weather.write)
  }

  /** What the memo `c` would show to the start. */
  function Sees(st: Setting, db: T.Db, c: I.Client, r: Request): Sight
    requires r.call.StartSync? && Proceeds(db, r)
  {
    var q := Asks(st, db, r);
    Shows(st, I.Complete(c, q).1, TroubleOf(c.disk, q), r.call.stimulus.value.stimulusId)
  }

  /** What a cache file shows. */
  function FileSees(st: Setting, f: I.File, stimulusId: string): Sight {
    match f
    case Whole(c) => Shows(st, Some(c), FileBroken(""), stimulusId)
    case Broken(text) => Shows(st, None, FileBroken(text), stimulusId)
  }

  /** What a request shows that finds no file and calls the API itself. */
  function CallSees(st: Setting, q: I.Request, stimulusId: string): Sight {
    var last := q.env(I.Calls(q.env) - 1);
    if last.Reply? && q.write.Written? then Shows(st, Some(last.completion), WriteFailed(q.write), stimulusId)
    else Shows(st, None, if last.Reply? then WriteFailed(q.write) else ApiFailed(last), stimulusId)
  }

  lemma SeesFileOrCall(st: Setting, db: T.Db, c: I.Client, r: Request)
    requires r.call.StartSync? && Proceeds(db, r)
    ensures
      var q, sid := Asks(st, db, r), r.call.stimulus.value.stimulusId;
      Sees(st, db, c, r) == if q.key in c.disk then FileSees(st, c.disk[q.key], sid) else CallSees(st, q, sid)
  {
  }

  /** The answer to a start that does not proceed. */
  function Refusal(db: T.Db, r: Request): Response
    requires !r.call.Store?
  {
    Plain(if T.Found(db.segments, r.call.segment, r.org) then T.Fail(422) else T.Missing(r.call.segment))
  }

  ghost function StepQueued(st: Setting, w: World, r: Request): (World, Response)
    requires r.call.StartQueued?
  {
    var (counters, verdict) := L.Check(st.limit, w.counters, r.call.tick);
    var w1 := w.(counters := counters);
    if verdict.Rejected? then (w1, Limited(verdict.retryAfter)) else
    if !Proceeds(w.db, r) then (w1, Refusal(w.db, r)) else
    if !r.call.queueUp then (w1, Plain(T.Fail(500))) else
    var out := T.Step(w.db, AddRun(r));
    (w1.(db := out.db), Plain(out.response))
  }

  ghost function StepSync(st: Setting, w: World, r: Request): (World, Response)
    requires r.call.StartSync?
  {
    if !Proceeds(w.db, r) then (w, Refusal(w.db, r)) else
    if r.call.newId in w.db.runs then (w, Plain(T.Fail(500))) else
    var w1 := w.(memo := I.Complete(w.memo, Asks(st, w.db, r)).0);
    var sight := Sees(st, w.db, w.memo, r);
    match sight
    case Result(_, _, _, _, _, _, _, _) =>
      var out := T.Step(w.db, AddRun(r));
      (w1.(db := out.db), Answered(r.call.newId, T.SimRun(r.org, r.call.segment.id, r.call.at), sight))
    case Unstorable => (w1, Plain(T.Fail(500)))
    case Failed(detail) => (w1, InferenceFailed(detail))
  }

  ghost function Step(st: Setting, w: World, r: Request): (World, Response) {
    match r.call
    case Store(op) =>
      var out := T.Step(w.db, T.Request(r.org, op));
      (w.(db := out.db), Plain(out.response))
    case StartQueued(_, _, _, _, _, _) => StepQueued(st, w, r)
    case StartSync(_, _, _, _, _, _, _) => StepSync(st, w, r)
  }

  ghost function Run(st: Setting, w: World, rs: seq<Request>): World
    decreases |rs|
  {
    if rs == [] then w else Run(st, Step(st, w, rs[0]).0, rs[1..])
  }

  /** The responses o's own requests get during a run. */
  ghost function ResponsesTo(st: Setting, w: World, rs: seq<Request>, o: Id): seq<Response>
    decreases |rs|
  {
    if rs == [] then [] else
    (if rs[0].org == o then [Step(st, w, rs[0]).1] else []) + ResponsesTo(st, Step(st, w, rs[0]).0, rs[1..], o)
  }

  function Only(rs: seq<Request>, o: Id): seq<Request> {
    if rs == [] then [] else (if rs[0].org == o then [rs[0]] else []) + Only(rs[1..], o)
  }

  /** The world without the other orgs' rows. */
  ghost function Alone(w: World, o: Id): World { w.(db := T.Project(w.db, o)) }

  /** The request's generated id is new, and runs are started through an endpoint. */
  ghost predicate Proper(db: T.Db, r: Request) {
    match r.call
    case Store(op) => T.FreshId(db, op) && !op.AddRun?
    case _ => r.call.newId !in db.runs
  }

  ghost predicate ProperRun(st: Setting, w: World, rs: seq<Request>)
    decreases |rs|
  {
    rs != [] ==> Proper(w.db, rs[0]) && ProperRun(st, Step(st, w, rs[0]).0, rs[1..])
  }

  // ----------------------------------------------------- the answers, field by field

  /** A queued start in full: the limiter comes first and counts whatever follows; then the segment, the stimulus and the
      queue may refuse; otherwise a run of the org's segment is stored and shown. */
  lemma QueuedInFull(st: Setting, w: World, r: Request)
    requires r.call.StartQueued? && r.call.newId !in w.db.runs
    ensures
      var (t, resp) := Step(st, w, r);
      var (counters, verdict) := L.Check(st.limit, w.counters, r.call.tick);
      && t.counters == counters && t.memo == w.memo
      && if verdict.Rejected? then t.db == w.db && resp == Limited(verdict.retryAfter)
         else if !r.call.segment.Uuid? then t.db == w.db && resp == Plain(T.Fail(422))
         else if r.call.segment.id !in w.db.segments || w.db.segments[r.call.segment.id].org != r.org
         then t.db == w.db && resp == Plain(T.Fail(404))
         else if r.call.stimulus.None? || !P.ValidStimulus(r.call.stimulus.value)
         then t.db == w.db && resp == Plain(T.Fail(422))
         else if !r.call.queueUp then t.db == w.db && resp == Plain(T.Fail(500))
         else
           var run := T.SimRun(r.org, r.call.segment.id, r.call.at);
           t.db == w.db.(runs := w.db.runs[r.call.newId := run]) && resp == Plain(T.RunIs(r.call.newId, run))
  {
  }

  /** A synchronous start that does not reach the memo: refused for its segment or its stimulus, with nothing changed. */
  lemma SyncRefused(st: Setting, w: World, r: Request)
    requires r.call.StartSync?
    ensures
      var mine := r.call.segment.Uuid? && r.call.segment.id in w.db.segments
                  && w.db.segments[r.call.segment.id].org == r.org;
      var good := r.call.stimulus.Some? && P.ValidStimulus(r.call.stimulus.value);
      && (Proceeds(w.db, r) <==> mine && good)
      && (!mine || !good ==>
            Step(st, w, r) == (w, Plain(T.Fail(if !r.call.segment.Uuid? then 422 else if !mine then 404 else 422))))
  {
  }

  /** What a synchronous start asks: its own segment's persona about its own stimulus. */
  lemma AsksInFull(st: Setting, db: T.Db, r: Request)
    requires r.call.StartSync? && Proceeds(db, r)
    ensures
      var k, segment := Asks(st, db, r).key, db.segments[r.call.segment.id];
      && k.user == P.Prompt(P.Show(st.service.printer, r.call.stimulus.value))
      && |k.system| == 1 && k.system[0].text == st.system(segment.name, segment.definition)
      && k.temperature == (if r.call.temperature.Some? then r.call.temperature.value else st.service.temperature)
      && (r.call.model.Some? && r.call.model.value != "" ==> k.model == r.call.model.value)
      && k.maxTokens == 1024
      && Asks(st, db, r).env == r.call.weather.env && Asks(st, db, r).write == r.call.weather.write
  {
    var segment := db.segments[r.call.segment.id];
    I.KeySays(st.service, I.Ask(st.system(segment.name, segment.definition), r.call.stimulus.value, r.call.model, r.call.temperature));
  }

  /** The sight shows the reply's own fields, at the store's precision, and what its completion cost. */
  ghost predicate ShowsReply(sight: Sight, reply: R.Response, c: I.Completion) {
    && sight.Result? && reply.likelihood.Fin?
    && (reply.verbatim.JStr? ==> sight.verbatim == Some(reply.verbatim.s))
    && (reply.verbatim.JNull? ==> sight.verbatim == None)
    && sight.sentiment == reply.sentiment
    && sight.likelihood == S.Round4(reply.likelihood.r)
    && sight.score == S.Round4(R.Score(reply.likelihood.r, reply.sentiment))
    && sight.keyFactors == reply.keyFactors
    && sight.inputTokens == c.inputTokens && sight.outputTokens == c.outputTokens && sight.latency == c.latency
  }

  lemma CompletionShown(st: Setting, c: I.Completion, trouble: Trouble, stimulusId: string)
    ensures
      var sight := Shows(st, Some(c), trouble, stimulusId);
      match R.BuildResponse(st.service.lib, st.service.keyOrder, c.text)
      case Err(_) => sight == Failed(st.rejection(stimulusId, c.text))
      case Ok(reply) => if S.Storable(st.text, reply.verbatim) then ShowsReply(sight, reply, c) else sight == Unstorable
  {
    R.ParsedIsAccepted(st.service.lib, st.service.keyOrder, c.text);
  }

  /** What each sight answers and stores. */
  lemma SightAnswered(st: Setting, w: World, r: Request)
    requires r.call.StartSync? && Proceeds(w.db, r) && r.call.newId !in w.db.runs
    ensures
      var (t, resp) := Step(st, w, r);
      var run := T.SimRun(r.org, r.call.segment.id, r.call.at);
      match Sees(st, w.db, w.memo, r)
      case Failed(detail) => t.db == w.db && resp == InferenceFailed(detail)
      case Unstorable => t.db == w.db && resp == Plain(T.Fail(500))
      case sight => t.db == w.db.(runs := w.db.runs[r.call.newId := run]) && resp == Answered(r.call.newId, run, sight)
  {
    SyncAnswers(st, w, r);
    RunStored(w.db, r);
  }

  lemma RunStored(db: T.Db, r: Request)
    requires !r.call.Store? && Proceeds(db, r) && r.call.newId !in db.runs
    ensures T.Step(db, AddRun(r)).db == db.(runs := db.runs[r.call.newId := T.SimRun(r.org, r.call.segment.id, r.call.at)])
  {
  }

  /** A synchronous start that gets a completion, from the memo or the API: if the reply parses and can be stored, a run
      is stored and the answer shows the reply; otherwise none is. */
  lemma AnswerInFull(st: Setting, w: World, r: Request, c: I.Completion)
    requires r.call.StartSync? && Proceeds(w.db, r) && r.call.newId !in w.db.runs
    requires I.Complete(w.memo, Asks(st, w.db, r)).1 == Some(c)
    ensures
      var (t, resp) := Step(st, w, r);
      match R.BuildResponse(st.service.lib, st.service.keyOrder, c.text)
      case Err(_) =>
        t.db == w.db && resp == InferenceFailed(st.rejection(r.call.stimulus.value.stimulusId, c.text))
      case Ok(reply) =>
        var run := T.SimRun(r.org, r.call.segment.id, r.call.at);
        if !S.Storable(st.text, reply.verbatim) then t.db == w.db && resp == Plain(T.Fail(500))
        else
          && t.db == w.db.(runs := w.db.runs[r.call.newId := run])
          && resp.Answered? && resp.id == r.call.newId && resp.run == run && ShowsReply(resp.sight, reply, c)
  {
    CompletionShown(st, c, TroubleOf(w.memo.disk, Asks(st, w.db, r)), r.call.stimulus.value.stimulusId);
    SightAnswered(st, w, r);
  }

  /** Without a completion the answer is the trouble there was in getting one: a broken file, a failed write, or the last
      error of the API. */
  lemma NoAnswerInFull(st: Setting, w: World, r: Request)
    requires r.call.StartSync? && Proceeds(w.db, r) && r.call.newId !in w.db.runs
    requires I.Complete(w.memo, Asks(st, w.db, r)).1 == None
    ensures
      var (t, resp) := Step(st, w, r);
      var q := Asks(st, w.db, r);
      var last := I.Final(q.env);
      && t.db == w.db
      && resp == InferenceFailed(st.trouble(
           if q.key in w.memo.disk && w.memo.disk[q.key].Broken? then FileBroken(w.memo.disk[q.key].text)
           else if last.Reply? then WriteFailed(q.write) else ApiFailed(last)))
  {
  }

  // ------------------------------------------------------------- the three guards

  /** In the world `w` of all and the world `v` of the org alone: the request does not target a foreign segment; a
      queued start is let through by the shared count exactly if by the org's own; and where a synchronous start finds
      a file under a key for which the org alone has none, the file shows what the org's own call would. */
  ghost predicate Guarded(st: Setting, w: World, v: World, r: Request) {
    match r.call
    case Store(op) => !T.NamesForeign(w.db, T.Request(r.org, op))
    case StartQueued(_, _, _, _, tick, _) =>
      L.Check(st.limit, w.counters, tick).1.Admitted? <==> L.Check(st.limit, v.counters, tick).1.Admitted?
    case StartSync(_, _, _, stimulus, _, _, _) =>
      Proceeds(w.db, r) ==>
      var q := Asks(st, w.db, r);
      q.key in w.memo.disk && q.key !in v.memo.disk ==>
        FileSees(st, w.memo.disk[q.key], stimulus.value.stimulusId) == CallSees(st, q, stimulus.value.stimulusId)
  }

  /** Where both worlds have a file for a synchronous start, the files show it the same. */
  ghost predicate FilesAgree(st: Setting, w: World, v: World, r: Request) {
    r.call.StartSync? && Proceeds(w.db, r) ==>
    var key, sid := Asks(st, w.db, r).key, r.call.stimulus.value.stimulusId;
    key in w.memo.disk && key in v.memo.disk ==>
      FileSees(st, w.memo.disk[key], sid) == FileSees(st, v.memo.disk[key], sid)
  }

  ghost predicate AllGuarded(st: Setting, w: World, v: World, rs: seq<Request>, o: Id)
    decreases |rs|
  {
    rs != [] ==>
      if rs[0].org == o
      then Guarded(st, w, v, rs[0]) && AllGuarded(st, Step(st, w, rs[0]).0, Step(st, v, rs[0]).0, rs[1..], o)
      else AllGuarded(st, Step(st, w, rs[0]).0, v, rs[1..], o)
  }

  ghost predicate AllFilesAgree(st: Setting, w: World, v: World, rs: seq<Request>, o: Id)
    decreases |rs|
  {
    rs != [] ==>
      if rs[0].org == o
      then FilesAgree(st, w, v, rs[0]) && AllFilesAgree(st, Step(st, w, rs[0]).0, Step(st, v, rs[0]).0, rs[1..], o)
      else AllFilesAgree(st, Step(st, w, rs[0]).0, v, rs[1..], o)
  }

  /** Whatever the org alone has a file for, all have one for. */
  predicate KeysShared(c: I.Client, d: I.Client) { d.disk.Keys <= c.disk.Keys }

  ghost predicate Sound(w: World, o: Id) { T.Wf(w.db) && T.OwnTargets(w.db, o) }

  /** The store's part of a request. */
  function StoreRequest(r: Request): T.Request { if r.call.Store? then T.Request(r.org, r.call.op) else AddRun(r) }

  /** The store changes as that part says, or not at all. */
  lemma StepDb(st: Setting, w: World, r: Request)
    ensures Step(st, w, r).0.db == w.db || Step(st, w, r).0.db == T.Step(w.db, StoreRequest(r)).db
  {
  }

  lemma OtherOrgsStep(st: Setting, w: World, r: Request, o: Id)
    requires Sound(w, o) && Proper(w.db, r) && r.org != o
    ensures Sound(Step(st, w, r).0, o) && T.Project(Step(st, w, r).0.db, o) == T.Project(w.db, o)
  {
    var q := StoreRequest(r);
    StepDb(st, w, r);
    T.StepKeepsWf(w.db, q);
    T.StepKeepsOwnTargets(w.db, q, o);
    T.OtherStep(w.db, q, o);
  }

  lemma SameSegments(db: T.Db, o: Id, t: T.IdText)
    ensures T.Found(T.Project(db, o).segments, t, o) <==> T.Found(db.segments, t, o)
    ensures T.Found(db.segments, t, o) ==> T.Project(db, o).segments[t.id] == db.segments[t.id]
  {
  }

  lemma OwnStoreStep(st: Setting, w: World, v: World, r: Request, o: Id)
    requires Sound(w, o) && Proper(w.db, r) && r.org == o && v.db == T.Project(w.db, o) && r.call.Store?
    ensures Step(st, w, r).1 == Step(st, v, r).1 <==> Guarded(st, w, v, r)
    ensures Guarded(st, w, v, r) ==>
      Sound(Step(st, w, r).0, o) && Step(st, v, r).0.db == T.Project(Step(st, w, r).0.db, o)
  {
    var q := T.Request(o, r.call.op);
    if T.NamesForeign(w.db, q) {
      T.ForeignNameShows(w.db, q, o);
    } else {
      T.StepKeepsWf(w.db, q);
      T.StepKeepsOwnTargets(w.db, q, o);
      T.OwnStep(w.db, q, o);
    }
  }

  /** The insert of a run start, in both worlds. */
  lemma OwnAddRun(w: World, r: Request, o: Id)
    requires Sound(w, o) && Proper(w.db, r) && r.org == o && !r.call.Store?
    ensures
      var out := T.Step(w.db, AddRun(r));
      && T.Wf(out.db) && T.OwnTargets(out.db, o)
      && T.Step(T.Project(w.db, o), AddRun(r)) == T.Outcome(T.Project(out.db, o), out.response)
  {
    T.StepKeepsWf(w.db, AddRun(r));
    T.StepKeepsOwnTargets(w.db, AddRun(r), o);
    T.OwnStep(w.db, AddRun(r), o);
  }

  lemma OwnQueuedStep(st: Setting, w: World, v: World, r: Request, o: Id)
    requires Sound(w, o) && Proper(w.db, r) && r.org == o && v.db == T.Project(w.db, o) && r.call.StartQueued?
    ensures Step(st, w, r).1 == Step(st, v, r).1 <==> Guarded(st, w, v, r)
    ensures Guarded(st, w, v, r) ==>
      Sound(Step(st, w, r).0, o) && Step(st, v, r).0.db == T.Project(Step(st, w, r).0.db, o)
  {
    SameSegments(w.db, o, r.call.segment);
    OwnAddRun(w, r, o);
  }

  function AnswerOf(r: Request, sight: Sight): Response
    requires r.call.StartSync? && r.call.segment.Uuid?
  {
    match sight
    case Result(_, _, _, _, _, _, _, _) => Answered(r.call.newId, T.SimRun(r.org, r.call.segment.id, r.call.at), sight)
    case Unstorable => Plain(T.Fail(500))
    case Failed(detail) => InferenceFailed(detail)
  }

  /** A start that proceeds answers with what it sees, and stores a run only for a result. */
  lemma SyncAnswers(st: Setting, w: World, r: Request)
    requires r.call.StartSync? && Proceeds(w.db, r) && r.call.newId !in w.db.runs
    ensures
      var sight := Sees(st, w.db, w.memo, r);
      && Step(st, w, r).1 == AnswerOf(r, sight)
      && Step(st, w, r).0.db == if sight.Result? then T.Step(w.db, AddRun(r)).db else w.db
  {
  }

  /** A start that proceeds asks the same in both worlds. */
  lemma OwnSyncAnswer(st: Setting, w: World, v: World, r: Request, o: Id)
    requires Sound(w, o) && Proper(w.db, r) && r.org == o && v.db == T.Project(w.db, o) && KeysShared(w.memo, v.memo)
    requires r.call.StartSync? && Proceeds(w.db, r)
    ensures Step(st, w, r).1 == Step(st, v, r).1 <==> Guarded(st, w, v, r) && FilesAgree(st, w, v, r)
    ensures Guarded(st, w, v, r) && FilesAgree(st, w, v, r) ==>
      Sound(Step(st, w, r).0, o) && Step(st, v, r).0.db == T.Project(Step(st, w, r).0.db, o)
  {
    SameSegments(w.db, o, r.call.segment);
    assert r.call.newId !in v.db.runs;
    OwnAddRun(w, r, o);
    assert Asks(st, v.db, r) == Asks(st, w.db, r);
    SyncAnswers(st, w, r);
    SyncAnswers(st, v, r);
    SightsAgree(st, w, v, r);
  }

  /** The two worlds show the same exactly when the files do. */
  lemma SightsAgree(st: Setting, w: World, v: World, r: Request)
    requires KeysShared(w.memo, v.memo) && r.call.StartSync? && Proceeds(w.db, r)
    ensures Sees(st, w.db, w.memo, r) == Sees(st, w.db, v.memo, r) <==> Guarded(st, w, v, r) && FilesAgree(st, w, v, r)
  {
    SeesFileOrCall(st, w.db, w.memo, r);
    SeesFileOrCall(st, w.db, v.memo, r);
  }

  lemma OwnSyncStep(st: Setting, w: World, v: World, r: Request, o: Id)
    requires Sound(w, o) && Proper(w.db, r) && r.org == o && v.db == T.Project(w.db, o) && KeysShared(w.memo, v.memo) && r.call.StartSync?
    ensures Step(st, w, r).1 == Step(st, v, r).1 <==> Guarded(st, w, v, r) && FilesAgree(st, w, v, r)
    ensures Guarded(st, w, v, r) && FilesAgree(st, w, v, r) ==>
      Sound(Step(st, w, r).0, o) && Step(st, v, r).0.db == T.Project(Step(st, w, r).0.db, o)
  {
    if Proceeds(w.db, r) {
      OwnSyncAnswer(st, w, v, r, o);
    } else {
      SameSegments(w.db, o, r.call.segment);
    }
  }

  lemma OwnStep(st: Setting, w: World, v: World, r: Request, o: Id)
    requires Sound(w, o) && Proper(w.db, r) && r.org == o && v.db == T.Project(w.db, o) && KeysShared(w.memo, v.memo)
    ensures Step(st, w, r).1 == Step(st, v, r).1 <==> Guarded(st, w, v, r) && FilesAgree(st, w, v, r)
    ensures Guarded(st, w, v, r) && FilesAgree(st, w, v, r) ==>
      Sound(Step(st, w, r).0, o) && Step(st, v, r).0.db == T.Project(Step(st, w, r).0.db, o)
  {
    match r.call
    case Store(_) => OwnStoreStep(st, w, v, r, o);
    case StartQueued(_, _, _, _, _, _) => OwnQueuedStep(st, w, v, r, o);
    case StartSync(_, _, _, _, _, _, _) => OwnSyncStep(st, w, v, r, o);
  }

  // ---------------------------------------------------------------- the two memos

  lemma StepMemo(st: Setting, w: World, r: Request)
    requires Proper(w.db, r)
    ensures Step(st, w, r).0.memo ==
      if r.call.StartSync? && Proceeds(w.db, r) then I.Complete(w.memo, Asks(st, w.db, r)).0 else w.memo
  {
  }

  lemma OwnAsk(st: Setting, w: World, v: World, r: Request, o: Id)
    requires v.db == T.Project(w.db, o) && Proper(w.db, r) && r.org == o && r.call.StartSync? && Proceeds(w.db, r)
    ensures Step(st, v, r).0.memo == I.Complete(v.memo, Asks(st, w.db, r)).0
  {
    SameSegments(w.db, o, r.call.segment);
    assert r.call.newId !in v.db.runs;
    assert Asks(st, v.db, r) == Asks(st, w.db, r);
  }

  lemma OwnIdle(st: Setting, w: World, v: World, r: Request, o: Id)
    requires v.db == T.Project(w.db, o) && r.org == o && !(r.call.StartSync? && Proceeds(w.db, r))
    ensures Step(st, v, r).0.memo == v.memo
  {
    if r.call.StartSync? { SameSegments(w.db, o, r.call.segment); }
  }

  /** What a request does to both memos. */
  lemma MemosStep(st: Setting, w: World, v: World, r: Request, o: Id)
    requires v.db == T.Project(w.db, o) && Proper(w.db, r)
    ensures
      var asks := r.call.StartSync? && Proceeds(w.db, r);
      && Step(st, w, r).0.memo == (if asks then I.Complete(w.memo, Asks(st, w.db, r)).0 else w.memo)
      && (r.org == o ==> Step(st, v, r).0.memo == if asks then I.Complete(v.memo, Asks(st, w.db, r)).0 else v.memo)
  {
    StepMemo(st, w, r);
    if r.org == o {
      if r.call.StartSync? && Proceeds(w.db, r) { OwnAsk(st, w, v, r, o); } else { OwnIdle(st, w, v, r, o); }
    }
  }

  lemma CompleteSharesKeys(c: I.Client, d: I.Client, q: I.Request)
    requires KeysShared(c, d)
    ensures KeysShared(I.Complete(c, q).0, d) && KeysShared(I.Complete(c, q).0, I.Complete(d, q).0)
  {
  }

  lemma KeysStayShared(st: Setting, w: World, v: World, r: Request, o: Id)
    requires v.db == T.Project(w.db, o) && Proper(w.db, r) && KeysShared(w.memo, v.memo)
    ensures KeysShared(Step(st, w, r).0.memo, if r.org == o then Step(st, v, r).0.memo else v.memo)
  {
    MemosStep(st, w, v, r, o);
    if r.call.StartSync? && Proceeds(w.db, r) { CompleteSharesKeys(w.memo, v.memo, Asks(st, w.db, r)); }
  }

  // ------------------------------------------------------------ non-interference

  /** The two runs side by side. */
  lemma {:induction false} Lockstep(st: Setting, w: World, v: World, rs: seq<Request>, o: Id)
    requires Sound(w, o) && ProperRun(st, w, rs) && v.db == T.Project(w.db, o) && KeysShared(w.memo, v.memo)
    ensures ResponsesTo(st, w, rs, o) == ResponsesTo(st, v, Only(rs, o), o) <==>
      AllGuarded(st, w, v, rs, o) && AllFilesAgree(st, w, v, rs, o)
    ensures AllGuarded(st, w, v, rs, o) && AllFilesAgree(st, w, v, rs, o) ==>
      T.Project(Run(st, w, rs).db, o) == Run(st, v, Only(rs, o)).db
    decreases |rs|
  {
    if rs == [] {
    } else {
      var r := rs[0];
      var a, b := ResponsesTo(st, w, rs, o), ResponsesTo(st, v, Only(rs, o), o);
      KeysStayShared(st, w, v, r, o);
      if r.org != o {
        OtherOrgsStep(st, w, r, o);
        Lockstep(st, Step(st, w, r).0, v, rs[1..], o);
        assert Only(rs, o) == Only(rs[1..], o);
      } else {
        assert Only(rs, o)[0] == r && Only(rs, o)[1..] == Only(rs[1..], o);
        OwnStep(st, w, v, r, o);
        assert a[0] == Step(st, w, r).1 && b[0] == Step(st, v, r).1;
        if Guarded(st, w, v, r) && FilesAgree(st, w, v, r) {
          Lockstep(st, Step(st, w, r).0, Step(st, v, r).0, rs[1..], o);
          assert a[1..] == ResponsesTo(st, Step(st, w, r).0, rs[1..], o);
          assert b[1..] == ResponsesTo(st, Step(st, v, r).0, Only(rs[1..], o), o);
        }
      }
    }
  }

  /** Whatever the error texts are: for every run of requests, o's responses are those after deleting all other orgs'
      requests if and only if every request of o meets its guard and finds agreeing files where both worlds have one. */
  lemma NonInterferenceAnyTexts(st: Setting, w: World, rs: seq<Request>, o: Id)
    requires Sound(w, o) && ProperRun(st, w, rs)
    ensures ResponsesTo(st, w, rs, o) == ResponsesTo(st, Alone(w, o), Only(rs, o), o) <==>
      AllGuarded(st, w, Alone(w, o), rs, o) && AllFilesAgree(st, w, Alone(w, o), rs, o)
  {
    Lockstep(st, w, Alone(w, o), rs, o);
  }

  /** The error texts of two rejected replies that are the same for one stimulus are so for all; no rejection reads like
      trouble; and a file cut short reads unlike a write that failed. */
  ghost predicate ErrorsTell(st: Setting) {
    && (forall s: string, t: string, a: string, b: string :: st.rejection(s, a) == st.rejection(s, b) ==>
          st.rejection(t, a) == st.rejection(t, b))
    && (forall s: string, a: string, t: Trouble :: st.rejection(s, a) != st.trouble(t))
    && (forall a: string, w: I.Write :: st.trouble(FileBroken(a)) != st.trouble(WriteFailed(w)))
  }

  /** The two files show the same for every stimulus. */
  ghost predicate ShowSame(st: Setting, f: I.File, g: I.File) {
    forall sid: string :: FileSees(st, f, sid) == FileSees(st, g, sid)
  }

  /** Every file the org alone has shows what the shared one does. */
  ghost predicate FilesShowSame(st: Setting, c: I.Client, d: I.Client) {
    forall k :: k in d.disk ==> k in c.disk && ShowSame(st, c.disk[k], d.disk[k])
  }

  /** Files that show the same for one stimulus do for all. */
  lemma SameOnceSameAlways(st: Setting, f: I.File, g: I.File, sid: string)
    requires ErrorsTell(st) && FileSees(st, f, sid) == FileSees(st, g, sid)
    ensures ShowSame(st, f, g)
  {
    forall t: string ensures FileSees(st, f, t) == FileSees(st, g, t) {
      SameHere(st, f, g, sid, t);
    }
  }

  lemma SameHere(st: Setting, f: I.File, g: I.File, s: string, t: string)
    requires ErrorsTell(st) && FileSees(st, f, s) == FileSees(st, g, s)
    ensures FileSees(st, f, t) == FileSees(st, g, t)
  {
  }

  /** A call that shows what a file does leaves no file, or one that shows the same. */
  lemma CallLeavesSame(st: Setting, f: I.File, c: I.Client, q: I.Request, sid: string)
    requires ErrorsTell(st) && q.key !in c.disk && FileSees(st, f, sid) == CallSees(st, q, sid)
    ensures
      var disk := I.Complete(c, q).0.disk;
      q.key in disk ==> ShowSame(st, f, disk[q.key])
  {
    var disk := I.Complete(c, q).0.disk;
    if q.key in disk { SameOnceSameAlways(st, f, disk[q.key], sid); }
  }

  lemma CompleteShowsSame(st: Setting, c: I.Client, d: I.Client, q: I.Request, sid: string)
    requires ErrorsTell(st) && FilesShowSame(st, c, d)
    ensures FilesShowSame(st, I.Complete(c, q).0, d)
    ensures (q.key in c.disk && q.key !in d.disk ==> FileSees(st, c.disk[q.key], sid) == CallSees(st, q, sid)) ==>
      FilesShowSame(st, I.Complete(c, q).0, I.Complete(d, q).0)
  {
    I.CompleteKeeps(c, q);
    if q.key in c.disk && q.key !in d.disk && FileSees(st, c.disk[q.key], sid) == CallSees(st, q, sid) {
      CallLeavesSame(st, c.disk[q.key], d, q, sid);
    }
  }

  lemma FilesStep(st: Setting, w: World, v: World, r: Request, o: Id)
    requires ErrorsTell(st) && v.db == T.Project(w.db, o) && Proper(w.db, r) && FilesShowSame(st, w.memo, v.memo)
    requires r.org == o ==> Guarded(st, w, v, r)
    ensures FilesShowSame(st, Step(st, w, r).0.memo, if r.org == o then Step(st, v, r).0.memo else v.memo)
  {
    MemosStep(st, w, v, r, o);
    if r.call.StartSync? && Proceeds(w.db, r) {
      CompleteShowsSame(st, w.memo, v.memo, Asks(st, w.db, r), r.call.stimulus.value.stimulusId);
    }
  }

  lemma ShownSameAgree(st: Setting, w: World, v: World, r: Request)
    requires FilesShowSame(st, w.memo, v.memo)
    ensures FilesAgree(st, w, v, r)
  {
    if r.call.StartSync? && Proceeds(w.db, r) {
      var key := Asks(st, w.db, r).key;
      if key in v.memo.disk { assert ShowSame(st, w.memo.disk[key], v.memo.disk[key]); }
    }
  }

  /** Met guards keep the files agreeing. */
  lemma {:induction false} GuardsKeepFiles(st: Setting, w: World, v: World, rs: seq<Request>, o: Id)
    requires ErrorsTell(st) && Sound(w, o) && ProperRun(st, w, rs) && v.db == T.Project(w.db, o)
    requires FilesShowSame(st, w.memo, v.memo) && AllGuarded(st, w, v, rs, o)
    ensures AllFilesAgree(st, w, v, rs, o)
    decreases |rs|
  {
    if rs == [] {
    } else {
      var r := rs[0];
      FilesStep(st, w, v, r, o);
      if r.org != o {
        OtherOrgsStep(st, w, r, o);
        GuardsKeepFiles(st, Step(st, w, r).0, v, rs[1..], o);
      } else {
        ShownSameAgree(st, w, v, r);
        OwnStep(st, w, v, r, o);
        GuardsKeepFiles(st, Step(st, w, r).0, Step(st, v, r).0, rs[1..], o);
      }
    }
  }

  /** Non-interference, exactly: for every run of requests, o's responses are those after deleting all other orgs'
      requests if and only if every request of o meets its guard; and then o's rows are the same, too. */
  lemma NonInterference(st: Setting, w: World, rs: seq<Request>, o: Id)
    requires ErrorsTell(st) && Sound(w, o) && ProperRun(st, w, rs)
    ensures ResponsesTo(st, w, rs, o) == ResponsesTo(st, Alone(w, o), Only(rs, o), o) <==> AllGuarded(st, w, Alone(w, o), rs, o)
    ensures AllGuarded(st, w, Alone(w, o), rs, o) ==>
      T.Project(Run(st, w, rs).db, o) == Run(st, Alone(w, o), Only(rs, o)).db
  {
    Lockstep(st, w, Alone(w, o), rs, o);
    if AllGuarded(st, w, Alone(w, o), rs, o) { GuardsKeepFiles(st, w, Alone(w, o), rs, o); }
  }

  // ------------------------------------------------------- the guards, in plain terms

  /** The ticks of the queued starts, in order. */
  function Ticks(rs: seq<Request>): seq<L.Request> {
    if rs == [] then [] else (if rs[0].call.StartQueued? then [rs[0].call.tick] else []) + Ticks(rs[1..])
  }

  lemma LimiterSnoc(limit: int, ticks: seq<L.Request>, tick: L.Request)
    ensures L.Run(limit, ticks + [tick]) == L.Check(limit, L.Run(limit, ticks), tick).0
  {
    assert (ticks + [tick])[..|ticks|] == ticks;
  }

  lemma StepCounters(st: Setting, w: World, r: Request)
    ensures Step(st, w, r).0.counters ==
      if r.call.StartQueued? then L.Check(st.limit, w.counters, r.call.tick).0 else w.counters
  {
  }

  /** All orgs' queued starts feed one counter. */
  lemma {:induction false} CountersFollowTicks(st: Setting, w: World, rs: seq<Request>, before: seq<L.Request>)
    requires w.counters == L.Run(st.limit, before)
    ensures Run(st, w, rs).counters == L.Run(st.limit, before + Ticks(rs))
    decreases |rs|
  {
    if rs == [] {
      assert before + Ticks(rs) == before;
    } else {
      var here := if rs[0].call.StartQueued? then [rs[0].call.tick] else [];
      StepCounters(st, w, rs[0]);
      if here != [] { LimiterSnoc(st.limit, before, here[0]); } else { assert before + here == before; }
      CountersFollowTicks(st, Step(st, w, rs[0]).0, rs[1..], before + here);
      assert before + here + Ticks(rs[1..]) == before + (here + Ticks(rs[1..]));
    }
  }

  /** The guard of a queued start: it does not reach the counter, or its minute's shared count and the org's own count
      are both below the limit or both not. */
  lemma QueuedGuardCounts(st: Setting, w: World, v: World, r: Request, all: seq<L.Request>, own: seq<L.Request>)
    requires st.limit >= 1 && r.call.StartQueued?
    requires w.counters == L.Run(st.limit, all) && v.counters == L.Run(st.limit, own)
    ensures
      var minute := r.call.tick.at / L.WINDOW;
      Guarded(st, w, v, r) <==>
        r.call.tick.fault.IncrFails? || (L.Counted(all, minute) < st.limit <==> L.Counted(own, minute) < st.limit)
  {
    L.AdmittedIffBelow(st.limit, all, r.call.tick);
    L.AdmittedIffBelow(st.limit, own, r.call.tick);
  }

  /** The guards on targets and counts alone. */
  ghost predicate CountsGuarded(st: Setting, w: World, v: World, rs: seq<Request>, o: Id)
    decreases |rs|
  {
    rs != [] ==>
      if rs[0].org == o
      then (!rs[0].call.StartSync? ==> Guarded(st, w, v, rs[0]))
           && CountsGuarded(st, Step(st, w, rs[0]).0, Step(st, v, rs[0]).0, rs[1..], o)
      else CountsGuarded(st, Step(st, w, rs[0]).0, v, rs[1..], o)
  }

  /** No start of o finds a file under a key for which o alone has none. */
  ghost predicate BorrowsNothing(st: Setting, w: World, v: World, rs: seq<Request>, o: Id)
    decreases |rs|
  {
    rs != [] ==>
      if rs[0].org == o
      then (rs[0].call.StartSync? && Proceeds(w.db, rs[0]) && Asks(st, w.db, rs[0]).key in w.memo.disk ==>
              Asks(st, w.db, rs[0]).key in v.memo.disk)
           && BorrowsNothing(st, Step(st, w, rs[0]).0, Step(st, v, rs[0]).0, rs[1..], o)
      else BorrowsNothing(st, Step(st, w, rs[0]).0, v, rs[1..], o)
  }

  /** The org's own files are shared as they are. */
  predicate FilesShared(c: I.Client, d: I.Client) {
    forall k :: k in d.disk ==> k in c.disk && c.disk[k] == d.disk[k]
  }

  lemma CompleteShares(c: I.Client, d: I.Client, q: I.Request)
    requires FilesShared(c, d)
    ensures FilesShared(I.Complete(c, q).0, d)
    ensures (q.key in c.disk ==> q.key in d.disk) ==> FilesShared(I.Complete(c, q).0, I.Complete(d, q).0)
  {
    I.CompleteKeeps(c, q);
  }

  lemma FilesStayShared(st: Setting, w: World, v: World, r: Request, o: Id)
    requires v.db == T.Project(w.db, o) && Proper(w.db, r) && FilesShared(w.memo, v.memo)
    requires r.org == o && r.call.StartSync? && Proceeds(w.db, r) && Asks(st, w.db, r).key in w.memo.disk ==>
      Asks(st, w.db, r).key in v.memo.disk
    ensures FilesShared(Step(st, w, r).0.memo, if r.org == o then Step(st, v, r).0.memo else v.memo)
  {
    MemosStep(st, w, v, r, o);
    if r.call.StartSync? && Proceeds(w.db, r) { CompleteShares(w.memo, v.memo, Asks(st, w.db, r)); }
  }

  /** Then the shared memo makes no difference, whatever the error texts, and whatever the others ask of keys o already
      has files for. */
  lemma {:induction false} BorrowingNothingGuards(st: Setting, w: World, v: World, rs: seq<Request>, o: Id)
    requires Sound(w, o) && ProperRun(st, w, rs) && v.db == T.Project(w.db, o) && FilesShared(w.memo, v.memo)
    requires BorrowsNothing(st, w, v, rs, o) && CountsGuarded(st, w, v, rs, o)
    ensures AllGuarded(st, w, v, rs, o) && AllFilesAgree(st, w, v, rs, o)
    decreases |rs|
  {
    if rs == [] {
    } else {
      var r := rs[0];
      FilesStayShared(st, w, v, r, o);
      if r.org != o {
        OtherOrgsStep(st, w, r, o);
        BorrowingNothingGuards(st, Step(st, w, r).0, v, rs[1..], o);
      } else {
        OwnStep(st, w, v, r, o);
        BorrowingNothingGuards(st, Step(st, w, r).0, Step(st, v, r).0, rs[1..], o);
      }
    }
  }

  // --------------------------------------------------- starts unlike all before them

  /** Every earlier synchronous start that reached the memo asked another persona, or showed something else on single
      lines. */
  ghost predicate AllOther(st: Setting, w: World, rs: seq<Request>, system: string, shown: P.Shown)
    decreases |rs|
  {
    rs != [] ==>
      && (rs[0].call.StartSync? && Proceeds(w.db, rs[0]) ==> AsksElse(st, w.db, rs[0], system, shown))
      && AllOther(st, Step(st, w, rs[0]).0, rs[1..], system, shown)
  }

  predicate AsksElse(st: Setting, db: T.Db, r: Request, system: string, shown: P.Shown)
    requires r.call.StartSync? && Proceeds(db, r)
  {
    var segment := db.segments[r.call.segment.id];
    var mine := P.Show(st.service.printer, r.call.stimulus.value);
    st.system(segment.name, segment.definition) != system || (P.OneLineEach(mine) && P.OneLineEach(shown) && mine != shown)
  }

  lemma {:induction false} NoFileForNew(st: Setting, w: World, rs: seq<Request>, k: I.Key, system: string, shown: P.Shown)
    requires ProperRun(st, w, rs) && AllOther(st, w, rs, system, shown) && k !in w.memo.disk
    requires |k.system| == 1 && k.system[0].text == system && k.user == P.Prompt(shown)
    ensures k !in Run(st, w, rs).memo.disk
    decreases |rs|
  {
    if rs == [] {
    } else {
      var r := rs[0];
      StepMemo(st, w, r);
      if r.call.StartSync? && Proceeds(w.db, r) {
        var q := Asks(st, w.db, r);
        AsksInFull(st, w.db, r);
        if q.key == k && P.OneLineEach(shown) && P.OneLineEach(P.Show(st.service.printer, r.call.stimulus.value)) {
          P.PromptTellsContent(P.Show(st.service.printer, r.call.stimulus.value), shown);
        }
        I.CompleteEffect(w.memo, q);
      }
      NoFileForNew(st, Step(st, w, r).0, rs[1..], k, system, shown);
    }
  }

  /** Whatever the orgs sent before, a synchronous start unlike all before it is answered by its own API calls. */
  lemma NewStartIsAnsweredItself(st: Setting, w: World, rs: seq<Request>, r: Request)
    requires ProperRun(st, w, rs) && w.memo == I.NO_CALLS && r.call.StartSync?
    requires Proceeds(Run(st, w, rs).db, r) && r.call.newId !in Run(st, w, rs).db.runs
    requires
      var segment := Run(st, w, rs).db.segments[r.call.segment.id];
      AllOther(st, w, rs, st.system(segment.name, segment.definition), P.Show(st.service.printer, r.call.stimulus.value))
    ensures
      var now := Run(st, w, rs);
      var q, last := Asks(st, now.db, r), I.Final(r.call.weather.env);
      && q.key !in now.memo.disk
      && Step(st, now, r).1 == AnswerOf(r, CallSees(st, q, r.call.stimulus.value.stimulusId))
      && I.Complete(now.memo, q).1 ==
           if last.Reply? && r.call.weather.write.Written? then Some(last.completion) else None
  {
    var now := Run(st, w, rs);
    var segment, q := now.db.segments[r.call.segment.id], Asks(st, now.db, r);
    AsksInFull(st, now.db, r);
    NoFileForNew(st, w, rs, q.key, st.system(segment.name, segment.definition), P.Show(st.service.printer, r.call.stimulus.value));
    I.MissInFull(now.memo, q);
    SeesFileOrCall(st, now.db, now.memo, r);
    SyncAnswers(st, now, r);
  }

  // ---------------------------------------------------------------- interference

  /** Once other orgs' queued starts have used up a minute, any start of o in that minute is refused that would have
      been let through alone: whatever else the others sent. */
  lemma OthersUseUpTheMinute(st: Setting, w: World, rs: seq<Request>, r: Request, o: Id)
    requires st.limit >= 1 && w.counters == map[] && (forall i :: 0 <= i < |rs| ==> rs[i].org != o)
    requires r.org == o && r.call.StartQueued? && r.call.tick.fault.NoFault?
    requires L.Counted(Ticks(rs), r.call.tick.at / L.WINDOW) >= st.limit
    ensures Step(st, Run(st, w, rs), r).1.Limited? && !Step(st, Alone(w, o), r).1.Limited?
  {
    CountersFollowTicks(st, w, rs, []);
    assert [] + Ticks(rs) == Ticks(rs);
    L.AdmittedIffBelow(st.limit, Ticks(rs), r.call.tick);
    L.AdmittedIffBelow(st.limit, [], r.call.tick);
  }

  /** An answer another org's start has left in the memo serves a start of o that asks the same, though the API no
      longer answers; alone it fails. */
  lemma OthersAnswerIsReused(st: Setting, w: World, theirs: Request, r: Request, o: Id)
    requires Sound(w, o) && Proper(w.db, theirs) && Proper(Step(st, w, theirs).0.db, r)
    requires theirs.org != o && theirs.call.StartSync? && Step(st, w, theirs).1.Answered?
    requires r.org == o && r.call.StartSync? && Proceeds(w.db, r) && Asks(st, w.db, r).key == Asks(st, w.db, theirs).key
    requires Asks(st, w.db, r).key !in w.memo.disk
    requires r.call.weather.env(I.Calls(r.call.weather.env) - 1).Permanent?
    ensures Step(st, Step(st, w, theirs).0, r).1.Answered? && Step(st, Alone(w, o), r).1.InferenceFailed?
  {
    var w1 := Step(st, w, theirs).0;
    SightAnswered(st, w, theirs);
    assert w1.db.segments == w.db.segments && r.call.newId !in w.db.runs;
    assert Asks(st, w1.db, r) == Asks(st, w.db, r);
    MemoKeepsAnswer(st, w, theirs, r);
    SyncAnswers(st, w1, r);
    AloneFails(st, w, r, o);
  }

  lemma AloneFails(st: Setting, w: World, r: Request, o: Id)
    requires r.org == o && r.call.StartSync? && Proceeds(w.db, r) && r.call.newId !in w.db.runs
    requires Asks(st, w.db, r).key !in w.memo.disk && r.call.weather.env(I.Calls(r.call.weather.env) - 1).Permanent?
    ensures Step(st, Alone(w, o), r).1.InferenceFailed?
  {
    PermanentSight(st, w, r);
    AloneAsks(st, w, r, o);
    FailedSight(st, Alone(w, o), r);
  }

  lemma PermanentSight(st: Setting, w: World, r: Request)
    requires r.call.StartSync? && Proceeds(w.db, r)
    requires Asks(st, w.db, r).key !in w.memo.disk && r.call.weather.env(I.Calls(r.call.weather.env) - 1).Permanent?
    ensures Sees(st, w.db, w.memo, r).Failed?
  {
    SeesFileOrCall(st, w.db, w.memo, r);
    CallFails(st, Asks(st, w.db, r), r.call.stimulus.value.stimulusId);
  }

  lemma FailedSight(st: Setting, w: World, r: Request)
    requires r.call.StartSync? && Proceeds(w.db, r) && r.call.newId !in w.db.runs && Sees(st, w.db, w.memo, r).Failed?
    ensures Step(st, w, r).1.InferenceFailed?
  {
    SyncAnswers(st, w, r);
  }

  lemma AloneAsks(st: Setting, w: World, r: Request, o: Id)
    requires r.org == o && r.call.StartSync? && Proceeds(w.db, r) && r.call.newId !in w.db.runs
    ensures
      var db := Alone(w, o).db;
      Proceeds(db, r) && r.call.newId !in db.runs && Sees(st, db, w.memo, r) == Sees(st, w.db, w.memo, r)
  {
    SameSegments(w.db, o, r.call.segment);
    assert Asks(st, Alone(w, o).db, r) == Asks(st, w.db, r);
  }

  lemma CallFails(st: Setting, q: I.Request, sid: string)
    requires q.env(I.Calls(q.env) - 1).Permanent?
    ensures CallSees(st, q, sid).Failed?
  {
  }

  lemma MemoKeepsAnswer(st: Setting, w: World, theirs: Request, r: Request)
    requires theirs.call.StartSync? && Step(st, w, theirs).1.Answered?
    requires r.call.StartSync? && Proceeds(w.db, r) && Asks(st, w.db, r).key == Asks(st, w.db, theirs).key
    ensures Sees(st, w.db, Step(st, w, theirs).0.memo, r).Result?
  {
    I.CompleteEffect(w.memo, Asks(st, w.db, theirs));
  }

  /** Two orgs with a segment of the same name and definition, nothing counted and nothing remembered. */
  function TwoSegments(): World {
    var s := T.Segment(1, "s", None, "{}", true, 0);
    World(T.Db(map[1 := s, 2 := s.(org := 2)], map[], map[], map[]), map[], I.NO_CALLS)
  }

  function Start(org: Id, weather: I.Weather): Request {
    Request(org, StartSync(T.Uuid(org), 10 + org, 0, Some(P.PriceChange("", 0, "", 1.0, 2.0, "")), None, None, weather))
  }

  function Replying(text: string): I.Weather { I.Weather((n: nat) => I.Reply(I.Completion(text, 0, 0, 0.0)), I.Written) }

  function ApiDown(): I.Weather { I.Weather((n: nat) => I.Permanent, I.Written) }

  function SomeReply(): R.Json {
    R.JObj(map[R.VERBATIM := R.JStr("v"), R.SENTIMENT := R.JStr("neutral"), R.LIKELIHOOD := R.JInt(0)])
  }

  lemma SomeReplyBuilds(lib: R.Lib, keyOrder: map<string, R.Json> -> seq<string>, text: string)
    requires lib.loads(R.Extract(text)) == Some(SomeReply()) && !lib.tooBig(0)
    ensures
      var r := R.BuildResponse(lib, keyOrder, text);
      r.Ok? && r.value.verbatim == R.JStr("v") && r.value.likelihood.Fin?
  {
    assert R.VERBATIM[0] == 'v' && R.SENTIMENT[0] == 's' && R.LIKELIHOOD[0] == 'l' && R.KEY_FACTORS[0] == 'k';
  }

  lemma FirstSees(st: Setting, text: string)
    requires st.service.lib.loads(R.Extract(text)) == Some(SomeReply()) && !st.service.lib.tooBig(0)
    ensures Sees(st, TwoSegments().db, I.NO_CALLS, Start(1, Replying(text))).Result?
  {
    SomeReplyBuilds(st.service.lib, st.service.keyOrder, text);
    var q := Asks(st, TwoSegments().db, Start(1, Replying(text)));
    assert I.Complete(I.NO_CALLS, q).1 == Some(I.Completion(text, 0, 0, 0.0));
  }

  /** A start that sees a result is answered with it and leaves other ids free. */
  lemma FirstStoresRun(st: Setting, w: World, r: Request)
    requires r.call.StartSync? && Proceeds(w.db, r) && r.call.newId !in w.db.runs && Sees(st, w.db, w.memo, r).Result?
    ensures Step(st, w, r).1.Answered?
    ensures forall id :: id in Step(st, w, r).0.db.runs ==> id == r.call.newId || id in w.db.runs
  {
    SyncAnswers(st, w, r);
    RunStored(w.db, r);
  }

  /** It happens: org 1 starts, the API goes down, and org 2's start is answered with org 1's reply. */
  lemma ReuseExample(st: Setting, text: string)
    requires st.service.lib.loads(R.Extract(text)) == Some(SomeReply()) && !st.service.lib.tooBig(0)
    ensures
      var theirs, own := Start(1, Replying(text)), Start(2, ApiDown());
      && Step(st, Step(st, TwoSegments(), theirs).0, own).1.Answered?
      && Step(st, Alone(TwoSegments(), 2), own).1.InferenceFailed?
  {
    var w, theirs, own := TwoSegments(), Start(1, Replying(text)), Start(2, ApiDown());
    FirstSees(st, text);
    FirstStoresRun(st, w, theirs);
    OthersAnswerIsReused(st, w, theirs, own, 2);
  }

  // ------------------------------------------------------------- the two endpoints

  class Api {
    const st: Setting
    const tables: T.Tables
    const limiter: L.Limiter
    const client: I.CachedClaudeClient

    constructor (st: Setting, tables: T.Tables, limiter: L.Limiter, client: I.CachedClaudeClient)
      ensures this.st == st && this.tables == tables && this.limiter == limiter && this.client == client
    {
      this.st, this.tables, this.limiter, this.client := st, tables, limiter, client;
    }

    ghost function Now(): World
      reads tables, limiter, client
    {
      World(tables.State(), limiter.store, client.State())
    }

    method RunSimulationAsync(r: Request) returns (resp: Response)
      requires r.call.StartQueued? && limiter.limit == st.limit
      modifies tables, limiter
      ensures (Now(), resp) == Step(st, old(Now()), r)
    {
      var verdict := limiter.CheckSimulationRateLimit(r.call.tick);
      if verdict.Rejected? { return Limited(verdict.retryAfter); }
      if !T.Found(tables.segments, r.call.segment, r.org) { return Plain(T.Missing(r.call.segment)); }
      if !GoodStimulus(r.call.stimulus) { return Plain(T.Fail(422)); }
      if !r.call.queueUp { return Plain(T.Fail(500)); }
      var body := tables.Handle(AddRun(r));
      resp := Plain(body);
    }

    method RunSimulationSync(r: Request) returns (resp: Response)
      requires r.call.StartSync?
      modifies tables, client
      ensures (Now(), resp) == Step(st, old(Now()), r)
    {
      if !T.Found(tables.segments, r.call.segment, r.org) { return Plain(T.Missing(r.call.segment)); }
      if !GoodStimulus(r.call.stimulus) { return Plain(T.Fail(422)); }
      if r.call.newId in tables.runs { return Plain(T.Fail(500)); }
      ghost var was := Now();
      var q := Asks(st, T.Db(tables.segments, tables.campaigns, tables.variants, tables.runs), r);
      var trouble := TroubleOf(client.disk, q);
      var completion := client.CompleteKey(q.key, q.env, q.write);
      var sight := Shows(st, completion, trouble, r.call.stimulus.value.stimulusId);
      assert sight == Sees(st, was.db, was.memo, r);
      match sight {
        case Result(_, _, _, _, _, _, _, _) =>
          var _ := tables.Handle(AddRun(r));
          resp := Answered(r.call.newId, T.SimRun(r.org, r.call.segment.id, r.call.at), sight);
        case Unstorable =>
          resp := Plain(T.Fail(500));
        case Failed(detail) =>
          resp := InferenceFailed(detail);
      }
    }
  }
}
