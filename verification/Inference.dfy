/** Inference: a stimulus becomes a prompt, the prompt a completion through the disk cache,
    and the completion a scored response.

    The cache file of a call is named by a hash of its arguments; the hash is taken to be injective,
    so the disk maps the arguments themselves to the stored completion. */
module Inference {
  import opened Prelude
  import opened StimulusPrompt
  import R = ReplyParsing

  // ---------------------------------------------------------- the cached client

  const DEFAULT_MODEL := "claude-sonnet-4-6"
  const MAX_TOKENS: nat := 1024
  const MIN_CACHE_TOKENS: nat := 100
  const MAX_ATTEMPTS: nat := 3

  datatype Block = Block(text: string, ephemeral: bool)
  datatype Key = Key(model: string, system: seq<Block>, user: string, temperature: real, maxTokens: nat)
  datatype Completion = Completion(text: string, inputTokens: nat, outputTokens: nat, latency: real)

  /** One call of the API: a reply with text, a reply without any, an error worth retrying, or another error. */
  datatype Attempt = Reply(completion: Completion) | NoText | Transient | Permanent

  /** A cache file: complete, or cut short and no longer JSON. */
  datatype File = Whole(completion: Completion) | Broken(text: string)

  /** How writing a cache file goes; the last two raise, one leaving no file and one a file cut short. */
  datatype Write = Written | Unwritten | Cut(text: string)

  datatype Client = Client(disk: map<Key, File>, calls: seq<(Key, Attempt)>)

  /** A system prompt: a string, or blocks that are taken as they are. */
  datatype System = Text(text: string) | Blocks(blocks: seq<Block>)

  function NormalizeSystem(system: System): seq<Block> {
    match system
    case Text(text) => [Block(text, |text| / 4 >= MIN_CACHE_TOKENS)]
    case Blocks(blocks) => blocks
  }

  /** How many calls a miss makes, given how each would end. */
  function Calls(env: nat -> Attempt): (n: nat)
    ensures 1 <= n <= MAX_ATTEMPTS
    ensures forall i :: 0 <= i < n - 1 ==> env(i).Transient?
    ensures n < MAX_ATTEMPTS ==> !env(n - 1).Transient?
  {
    if !env(0).Transient? then 1 else if !env(1).Transient? then 2 else 3
  }

  function CallLog(k: Key, env: nat -> Attempt, n: nat): seq<(Key, Attempt)> {
    seq(n, (i: nat) => (k, env(i)))
  }

  /** None is a raised error: of the API, of writing the file, or of reading one that was cut short. */
  function Complete(c: Client, r: Request): (Client, Option<Completion>) {
    if r.key in c.disk then (c, if c.disk[r.key].Whole? then Some(c.disk[r.key].completion) else None) else
    var n := Calls(r.env);
    var calls := c.calls + CallLog(r.key, r.env, n);
    match r.env(n - 1)
    case Reply(completion) =>
      (match r.write
       case Written => (Client(c.disk[r.key := Whole(completion)], calls), Some(completion))
       case Unwritten => (Client(c.disk, calls), None)
       case Cut(text) => (Client(c.disk[r.key := Broken(text)], calls), None))
    case _ => (Client(c.disk, calls), None)
  }

  /** A call of complete: its key, how each API call it makes would end, and how its file write would go. */
  datatype Request = Request(key: Key, env: nat -> Attempt, write: Write)

  function Run(c: Client, rs: seq<Request>): Client {
    if rs == [] then c else Complete(Run(c, rs[..|rs| - 1]), rs[|rs| - 1]).0
  }

  /** The result of the i-th request of a run. */
  function ResultAt(c: Client, rs: seq<Request>, i: nat): Option<Completion>
    requires i < |rs|
  {
    Complete(Run(c, rs[..i]), rs[i]).1
  }

  /** Usable replies the API gave for a key. */
  function Replies(calls: seq<(Key, Attempt)>, k: Key): nat {
    if calls == [] then 0 else
    var last := calls[|calls| - 1];
    Replies(calls[..|calls| - 1], k) + if last.0 == k && last.1.Reply? then 1 else 0
  }

  /** A hit costs no call and changes nothing; a miss makes one to three calls, all for its key; whatever is returned
      is on the disk, and no other file is touched. */
  lemma CompleteEffect(c: Client, r: Request)
    ensures
      var (d, result) := Complete(c, r);
      && (r.key in c.disk ==> d == c)
      && (r.key !in c.disk ==> |c.calls| < |d.calls| <= |c.calls| + MAX_ATTEMPTS && c.calls == d.calls[..|c.calls|])
      && (result.Some? ==> r.key in d.disk && d.disk[r.key] == Whole(result.value))
      && (result.None? && r.key in d.disk ==> d.disk[r.key].Broken?)
      && d.disk - {r.key} == c.disk - {r.key}
  {
    var d := Complete(c, r).0;
    if d.disk != c.disk {
      assert d.disk - {r.key} == c.disk - {r.key};
    }
  }

  /** How the API calls of a miss end: with the first that is not transient, or the third. */
  function Final(env: nat -> Attempt): Attempt {
    if !env(0).Transient? then env(0) else if !env(1).Transient? then env(1) else env(2)
  }

  /** A miss in full: a transient error is followed by another call, up to three, all for the same key; a usable reply is
      returned if its file is written, and the file is what the write left; any other end raises. */
  lemma MissInFull(c: Client, r: Request)
    requires r.key !in c.disk
    ensures
      var (d, result) := Complete(c, r);
      var last := Final(r.env);
      var n := if !r.env(0).Transient? then 1 else if !r.env(1).Transient? then 2 else 3;
      && |d.calls| == |c.calls| + n && d.calls[..|c.calls|] == c.calls
      && (forall i :: 0 <= i < n ==> d.calls[|c.calls| + i] == (r.key, r.env(i)))
      && result == (if last.Reply? && r.write.Written? then Some(last.completion) else None)
      && d.disk == if last.Reply? && r.write.Written? then c.disk[r.key := Whole(last.completion)]
                   else if last.Reply? && r.write.Cut? then c.disk[r.key := Broken(r.write.text)]
                   else c.disk
  {
    var d, n := Complete(c, r).0, Calls(r.env);
    assert d.calls == c.calls + CallLog(r.key, r.env, n);
    assert Final(r.env) == r.env(n - 1);
    forall i | 0 <= i < n ensures d.calls[|c.calls| + i] == (r.key, r.env(i)) {
      assert CallLog(r.key, r.env, n)[i] == (r.key, r.env(i));
    }
  }

  /** A hit in full: nothing is called or changed, and the file is returned, or raises. */
  lemma HitInFull(c: Client, r: Request)
    requires r.key in c.disk
    ensures Complete(c, r) == (c, match c.disk[r.key] case Whole(completion) => Some(completion) case Broken(_) => None)
  {
  }

  ghost predicate Keeps(c: Client, d: Client) {
    forall k :: k in c.disk ==> k in d.disk && d.disk[k] == c.disk[k]
  }

  lemma CompleteKeeps(c: Client, r: Request)
    ensures Keeps(c, Complete(c, r).0)
  {
  }

  lemma {:induction false} RunKeeps(c: Client, rs: seq<Request>, i: nat)
    requires i <= |rs|
    ensures Keeps(Run(c, rs[..i]), Run(c, rs))
    decreases |rs|
  {
    if i == |rs| {
      assert rs[..i] == rs;
    } else {
      var n := |rs| - 1;
      assert rs[..n][..i] == rs[..i];
      RunKeeps(c, rs[..n], i);
      CompleteKeeps(Run(c, rs[..n]), rs[n]);
    }
  }

  /** What a request finds or leaves on the disk under its key is what every later request of the key finds. */
  lemma DiskIsForever(c: Client, rs: seq<Request>, i: nat, j: nat)
    requires i < j < |rs| && rs[i].key == rs[j].key && rs[i].key in Complete(Run(c, rs[..i]), rs[i]).0.disk
    ensures
      var disk, later := Complete(Run(c, rs[..i]), rs[i]).0.disk, Run(c, rs[..j]).disk;
      rs[j].key in later && later[rs[j].key] == disk[rs[i].key]
  {
    var upTo := rs[..j];
    assert upTo[..i + 1] == rs[..i + 1] && rs[..i + 1][..i] == rs[..i];
    RunKeeps(c, upTo, i + 1);
    assert Run(c, rs[..i + 1]) == Complete(Run(c, rs[..i]), rs[i]).0;
  }

  /** Over every run, once a key has a result every later request for it returns that same result. */
  lemma FirstResultForever(c: Client, rs: seq<Request>, i: nat, j: nat)
    requires i < j < |rs| && rs[i].key == rs[j].key && ResultAt(c, rs, i).Some?
    ensures ResultAt(c, rs, j) == ResultAt(c, rs, i)
  {
    CompleteEffect(Run(c, rs[..i]), rs[i]);
    DiskIsForever(c, rs, i, j);
  }

  /** And once a file was cut short every later request for its key raises, without calling the API again. */
  lemma CutFileRaisesForever(c: Client, rs: seq<Request>, i: nat, j: nat)
    requires i < j < |rs| && rs[i].key == rs[j].key && ResultAt(c, rs, i).None?
    requires rs[i].key in Complete(Run(c, rs[..i]), rs[i]).0.disk
    ensures ResultAt(c, rs, j).None? && Complete(Run(c, rs[..j]), rs[j]).0 == Run(c, rs[..j])
  {
    CompleteEffect(Run(c, rs[..i]), rs[i]);
    DiskIsForever(c, rs, i, j);
  }

  lemma {:induction false} RepliesAppend(calls: seq<(Key, Attempt)>, more: seq<(Key, Attempt)>, k: Key)
    ensures Replies(calls + more, k) == Replies(calls, k) + Replies(more, k)
  {
    if more == [] {
      assert calls + more == calls;
    } else {
      assert (calls + more)[..|calls + more| - 1] == calls + more[..|more| - 1];
      RepliesAppend(calls, more[..|more| - 1], k);
    }
  }

  lemma {:induction false} RepliesInLog(k: Key, env: nat -> Attempt, n: nat, q: Key)
    requires n >= 1 && forall i :: 0 <= i < n - 1 ==> env(i).Transient?
    ensures Replies(CallLog(k, env, n), q) == if q == k && env(n - 1).Reply? then 1 else 0
  {
    var log := CallLog(k, env, n);
    assert log[..n - 1] == CallLog(k, env, n - 1);
    NoReplies(k, env, n - 1, q);
  }

  lemma {:induction false} NoReplies(k: Key, env: nat -> Attempt, n: nat, q: Key)
    requires forall i :: 0 <= i < n ==> env(i).Transient?
    ensures Replies(CallLog(k, env, n), q) == 0
  {
    if n == 0 {
    } else {
      assert CallLog(k, env, n)[..n - 1] == CallLog(k, env, n - 1);
      NoReplies(k, env, n - 1, q);
    }
  }

  const NO_CALLS := Client(map[], [])

  /** The request spends a reply for q that leaves no file. */
  predicate Wastes(c: Client, r: Request, q: Key) {
    r.key == q && q !in c.disk && r.env(Calls(r.env) - 1).Reply? && r.write.Unwritten?
  }

  function Wasted(rs: seq<Request>, q: Key): nat {
    if rs == [] then 0 else
    var n := |rs| - 1;
    Wasted(rs[..n], q) + if Wastes(Run(NO_CALLS, rs[..n]), rs[n], q) then 1 else 0
  }

  function Stored(c: Client, q: Key): nat { if q in c.disk then 1 else 0 }

  lemma RepliesStep(c: Client, r: Request, q: Key)
    ensures
      var d := Complete(c, r).0;
      Replies(d.calls, q) + Stored(c, q) == Replies(c.calls, q) + Stored(d, q) + if Wastes(c, r, q) then 1 else 0
  {
    if r.key !in c.disk {
      var n := Calls(r.env);
      RepliesAppend(c.calls, CallLog(r.key, r.env, n), q);
      RepliesInLog(r.key, r.env, n, q);
    }
  }

  /** Over every run the usable replies the API gives for a key are exactly one if its file is there, plus one for
      each write that left no file. */
  lemma {:induction false} RepliesPerKey(rs: seq<Request>, q: Key)
    ensures Replies(Run(NO_CALLS, rs).calls, q) == Stored(Run(NO_CALLS, rs), q) + Wasted(rs, q)
  {
    if rs == [] {
    } else {
      RepliesPerKey(rs[..|rs| - 1], q);
      RepliesStep(Run(NO_CALLS, rs[..|rs| - 1]), rs[|rs| - 1], q);
    }
  }

  /** So there is at most one while no write leaves its file out. */
  lemma {:induction false} NothingWasted(rs: seq<Request>, q: Key)
    requires forall i :: 0 <= i < |rs| ==> !rs[i].write.Unwritten?
    ensures Wasted(rs, q) == 0
  {
    if rs == [] {
    } else {
      NothingWasted(rs[..|rs| - 1], q);
    }
  }

  lemma OneReplyPerKey(rs: seq<Request>, q: Key)
    requires forall i :: 0 <= i < |rs| ==> !rs[i].write.Unwritten?
    ensures Replies(Run(NO_CALLS, rs).calls, q) <= 1
  {
    RepliesPerKey(rs, q);
    NothingWasted(rs, q);
  }

  // -------------------------------------------------------------------- generate

  datatype Ask = Ask(system: string, stimulus: Stimulus, model: Option<string>, temperature: Option<real>)

  /** The service: its own model and temperature, and the libraries it runs on. */
  datatype Service = Service(model: Option<string>, temperature: real, printer: Printer, lib: R.Lib,
                             keyOrder: map<string, R.Json> -> seq<string>)

  function KeyOf(sv: Service, a: Ask): Key
    requires ValidStimulus(a.stimulus)
  {
    var model := if Truthy(a.model) then a.model.value else if Truthy(sv.model) then sv.model.value else DEFAULT_MODEL;
    Key(model, NormalizeSystem(Text(a.system)), Prompt(Show(sv.printer, a.stimulus)),
        if a.temperature.Some? then a.temperature.value else sv.temperature, MAX_TOKENS)
  }

  /** NoCompletion stands for every error of the client. */
  datatype Generated = NoCompletion | Rejected(why: R.Raised) | Response(response: R.Response, score: real)

  /** What generate and the scorer make of a completion. */
  function Outcome(sv: Service, completion: Option<Completion>): Generated {
    match completion
    case None => NoCompletion
    case Some(c) =>
      match R.BuildResponse(sv.lib, sv.keyOrder, c.text)
      case Err(e) => Rejected(e)
      case Ok(r) => Response(r, if r.likelihood.Fin? then R.Score(r.likelihood.r, r.sentiment) else 0.0)
  }

  /** What the surroundings do to one ask: the API's answers, and the write of the cache file. */
  datatype Weather = Weather(env: nat -> Attempt, write: Write)

  function Requests(sv: Service, asks: seq<Ask>, weather: seq<Weather>): seq<Request>
    requires |asks| == |weather| && forall i :: 0 <= i < |asks| ==> ValidStimulus(asks[i].stimulus)
  {
    seq(|asks|, i requires 0 <= i < |asks| => Request(KeyOf(sv, asks[i]), weather[i].env, weather[i].write))
  }

  function OutcomeAt(sv: Service, c: Client, asks: seq<Ask>, weather: seq<Weather>, i: nat): Generated
    requires |asks| == |weather| && forall k :: 0 <= k < |asks| ==> ValidStimulus(asks[k].stimulus)
    requires i < |asks|
  {
    Outcome(sv, ResultAt(c, Requests(sv, asks, weather), i))
  }

  /** What the API is asked: the service's prompt for the stimulus, the system text in one block that is cached from 400
      characters on, the model and the temperature of the ask or else of the service, and at most 1024 tokens. */
  lemma KeySays(sv: Service, a: Ask)
    requires ValidStimulus(a.stimulus)
    ensures
      var k := KeyOf(sv, a);
      && k.user == Prompt(Show(sv.printer, a.stimulus))
      && k.system == [Block(a.system, |a.system| >= 400)]
      && k.model == (if a.model.Some? && a.model.value != "" then a.model.value
                     else if sv.model.Some? && sv.model.value != "" then sv.model.value
                     else "claude-sonnet-4-6")
      && k.temperature == (if a.temperature.Some? then a.temperature.value else sv.temperature)
      && k.maxTokens == 1024
  {
  }

  /** Two asks of a service share a key exactly when they have the same system text, the same effective model and
      temperature, and the same prompt. */
  lemma KeyTellsAsk(sv: Service, a: Ask, b: Ask)
    requires ValidStimulus(a.stimulus) && ValidStimulus(b.stimulus)
    ensures
      var model := (q: Ask) => if q.model.Some? && q.model.value != "" then q.model.value
                               else if sv.model.Some? && sv.model.value != "" then sv.model.value
                               else "claude-sonnet-4-6";
      var temperature := (q: Ask) => if q.temperature.Some? then q.temperature.value else sv.temperature;
      KeyOf(sv, a) == KeyOf(sv, b) <==>
        && a.system == b.system && model(a) == model(b) && temperature(a) == temperature(b)
        && Prompt(Show(sv.printer, a.stimulus)) == Prompt(Show(sv.printer, b.stimulus))
  {
    KeySays(sv, a);
    KeySays(sv, b);
    assert [Block(a.system, |a.system| >= 400)][0].text == a.system;
    assert [Block(b.system, |b.system| >= 400)][0].text == b.system;
  }

  /** The ask shows something else, on single lines, or to another persona. */
  predicate AsksOther(sv: Service, a: Ask, b: Ask)
    requires ValidStimulus(a.stimulus) && ValidStimulus(b.stimulus)
  {
    a.system != b.system ||
    (OneLineEach(Show(sv.printer, a.stimulus)) && OneLineEach(Show(sv.printer, b.stimulus))
     && Show(sv.printer, a.stimulus) != Show(sv.printer, b.stimulus))
  }

  lemma OtherAsksOtherKeys(sv: Service, a: Ask, b: Ask)
    requires ValidStimulus(a.stimulus) && ValidStimulus(b.stimulus) && AsksOther(sv, a, b)
    ensures KeyOf(sv, a) != KeyOf(sv, b)
  {
    KeyTellsAsk(sv, a, b);
    if a.system == b.system { PromptTellsContent(Show(sv.printer, a.stimulus), Show(sv.printer, b.stimulus)); }
  }

  /** Files are only left under keys that were asked. */
  lemma {:induction false} FilesWereAsked(rs: seq<Request>, k: Key)
    requires forall i :: 0 <= i < |rs| ==> rs[i].key != k
    ensures k !in Run(NO_CALLS, rs).disk
  {
    if rs == [] {
    } else {
      FilesWereAsked(rs[..|rs| - 1], k);
      CompleteEffect(Run(NO_CALLS, rs[..|rs| - 1]), rs[|rs| - 1]);
    }
  }

  /** In every run an ask unlike all before it is answered by its own API calls, and by no reply to another. */
  lemma NewAskIsAnsweredItself(sv: Service, asks: seq<Ask>, weather: seq<Weather>, i: nat)
    requires |asks| == |weather| && forall k :: 0 <= k < |asks| ==> ValidStimulus(asks[k].stimulus)
    requires i < |asks| && forall j :: 0 <= j < i ==> AsksOther(sv, asks[j], asks[i])
    ensures
      var last := Final(weather[i].env);
      OutcomeAt(sv, NO_CALLS, asks, weather, i) ==
        Outcome(sv, if last.Reply? && weather[i].write.Written? then Some(last.completion) else None)
  {
    var rs := Requests(sv, asks, weather);
    forall j | 0 <= j < i ensures rs[..i][j].key != rs[i].key { OtherAsksOtherKeys(sv, asks[j], asks[i]); }
    FilesWereAsked(rs[..i], rs[i].key);
    MissInFull(Run(NO_CALLS, rs[..i]), rs[i]);
  }

  /** What generate makes of a completion: the reply as parsed and checked, with its score, or its rejection. */
  lemma OutcomeSays(sv: Service, c: Completion)
    ensures
      match R.BuildResponse(sv.lib, sv.keyOrder, c.text)
      case Err(e) => Outcome(sv, Some(c)) == Rejected(e)
      case Ok(r) =>
        r.likelihood.Fin? && Outcome(sv, Some(c)) == Response(r, R.Score(r.likelihood.r, r.sentiment))
    ensures Outcome(sv, None).NoCompletion?
  {
    R.ParsedIsAccepted(sv.lib, sv.keyOrder, c.text);
  }

  /** In every run, asks that differ only in the stimulus id and creation time get the same response, the same score
      or the same rejection, from the first one that got a completion on; and every score is a probability. */
  lemma SameContentSameScore(sv: Service, c: Client, asks: seq<Ask>, weather: seq<Weather>, i: nat, j: nat)
    requires |asks| == |weather| && forall k :: 0 <= k < |asks| ==> ValidStimulus(asks[k].stimulus)
    requires i < j < |asks| && !OutcomeAt(sv, c, asks, weather, i).NoCompletion?
    requires SameContent(asks[j].stimulus, asks[i].stimulus) && asks[j] == asks[i].(stimulus := asks[j].stimulus)
    ensures
      var g := OutcomeAt(sv, c, asks, weather, j);
      g == OutcomeAt(sv, c, asks, weather, i) && (g.Response? ==> 0.0 <= g.score <= 1.0 && g.response.likelihood.Fin?)
  {
    var rs := Requests(sv, asks, weather);
    SameContentShowsSame(sv.printer, asks[i].stimulus, asks[j].stimulus);
    assert rs[i].key == rs[j].key;
    FirstResultForever(c, rs, i, j);
    ScoresAreProbabilities(sv, ResultAt(c, rs, j));
  }

  /** Every score generate produces is a probability. */
  lemma ScoresAreProbabilities(sv: Service, completion: Option<Completion>)
    ensures Outcome(sv, completion).Response? ==>
      0.0 <= Outcome(sv, completion).score <= 1.0 && Outcome(sv, completion).response.likelihood.Fin?
  {
    if completion.Some? { R.ParsedIsAccepted(sv.lib, sv.keyOrder, completion.value.text); }
  }

  // ------------------------------------------------------- the client, in place

  class CachedClaudeClient {
    var disk: map<Key, File>
    ghost var calls: seq<(Key, Attempt)>

    ghost function State(): Client
      reads this
    {
      Client(disk, calls)
    }

    method CallApiWithRetry(k: Key, env: nat -> Attempt) returns (last: Attempt)
      modifies this`calls
      ensures last == env(Calls(env) - 1) && calls == old(calls) + CallLog(k, env, Calls(env))
    {
      var attempt := 0;
      last := Transient;
      while attempt < MAX_ATTEMPTS && last.Transient?
        invariant attempt <= MAX_ATTEMPTS && (attempt > 0 ==> last == env(attempt - 1))
        invariant forall i :: 0 <= i < attempt - 1 ==> env(i).Transient?
        invariant attempt == 0 ==> last.Transient?
        invariant calls == old(calls) + CallLog(k, env, attempt)
        decreases MAX_ATTEMPTS - attempt
      {
        last := env(attempt);
        calls := calls + [(k, last)];
        attempt := attempt + 1;
      }
      assert attempt == Calls(env);
    }

    method CompleteMessage(system: System, user: string, model: string, maxTokens: nat, temperature: real,
                           env: nat -> Attempt, write: Write)
      returns (r: Option<Completion>)
      modifies this
      ensures
        var key := Key(model, NormalizeSystem(system), user, temperature, maxTokens);
        (State(), r) == Complete(old(State()), Request(key, env, write))
    {
      r := CompleteKey(Key(model, NormalizeSystem(system), user, temperature, maxTokens), env, write);
    }

    method CompleteKey(key: Key, env: nat -> Attempt, write: Write) returns (r: Option<Completion>)
      modifies this
      ensures (State(), r) == Complete(old(State()), Request(key, env, write))
    {
      if key in disk {
        match disk[key] {
          case Whole(completion) => return Some(completion);
          case Broken(_) => return None;
        }
      }
      var last := CallApiWithRetry(key, env);
      r := None;
      if last.Reply? {
        match write {
          case Written =>
            disk := disk[key := Whole(last.completion)];
            r := Some(last.completion);
          case Unwritten =>
          case Cut(text) =>
            disk := disk[key := Broken(text)];
        }
      }
    }
  }
}
