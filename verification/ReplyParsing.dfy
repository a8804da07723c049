/** From the model's reply text to a validated response and its score: fence stripping, JSON checks,
    clamping, and the sentiment nudge. */
module ReplyParsing {
  import opened Prelude

  // --------------------------------------------------------- lines and fences

  /** What str.splitlines breaks on. */
  predicate IsBreak(c: char) {
    c == '\n' || c == '\r' || c as int in {0x0b, 0x0c, 0x1c, 0x1d, 0x1e, 0x85, 0x2028, 0x2029}
  }

  /** What str.strip removes. */
  predicate IsSpace(c: char) {
    var n := c as int;
    9 <= n <= 13 || 0x1c <= n <= 0x20 || n == 0x85 || n == 0xa0 || n == 0x1680 || 0x2000 <= n <= 0x200a
      || n == 0x2028 || n == 0x2029 || n == 0x202f || n == 0x205f || n == 0x3000
  }

  function LStrip(s: string): string {
    if s != "" && IsSpace(s[0]) then LStrip(s[1..]) else s
  }

  function RStrip(s: string): string {
    if s != "" && IsSpace(s[|s| - 1]) then RStrip(s[..|s| - 1]) else s
  }

  function Strip(s: string): string { RStrip(LStrip(s)) }

  /** The index of the first line break, or the length. */
  function FirstBreak(s: string): (k: nat)
    ensures k <= |s|
  {
    if s == "" || IsBreak(s[0]) then 0 else 1 + FirstBreak(s[1..])
  }

  /** Nothing before it is a break, and it is one unless it is the length. */
  lemma {:induction false} FirstBreakIsFirst(s: string)
    ensures
      var k := FirstBreak(s);
      (forall i :: 0 <= i < k ==> !IsBreak(s[i])) && (k < |s| ==> IsBreak(s[k]))
  {
    if s == "" || IsBreak(s[0]) {
    } else {
      FirstBreakIsFirst(s[1..]);
      assert forall i :: 1 <= i < |s| ==> s[i] == s[1..][i - 1];
    }
  }

  /** ... which determines it. */
  lemma FirstBreakAt(s: string, k: nat)
    requires k <= |s| && (forall i :: 0 <= i < k ==> !IsBreak(s[i])) && (k < |s| ==> IsBreak(s[k]))
    ensures FirstBreak(s) == k
  {
    FirstBreakIsFirst(s);
  }

  /** How many characters the break at k takes: carriage return and newline together are one. */
  function BreakWidth(s: string, k: nat): (w: nat)
    requires k < |s|
    ensures 1 <= w && k + w <= |s|
  {
    if s[k] == '\r' && k + 1 < |s| && s[k + 1] == '\n' then 2 else 1
  }

  function SplitLines(s: string): seq<string>
    decreases |s|
  {
    if s == "" then [] else
    var k := FirstBreak(s);
    if k == |s| then [s] else [s[..k]] + SplitLines(s[k + BreakWidth(s, k)..])
  }

  function Join(lines: seq<string>): string {
    if lines == [] then "" else if |lines| == 1 then lines[0] else lines[0] + "\n" + Join(lines[1..])
  }

  const FENCE := "```"

  /** The text handed to the JSON decoder. */
  function Extract(text: string): string {
    var cleaned := Strip(text);
    if !(FENCE <= cleaned) then cleaned else
    var lines := SplitLines(cleaned);
    if lines == [] then "" else
    Join(if Strip(lines[|lines| - 1]) == FENCE then (if |lines| == 1 then [] else lines[1..|lines| - 1]) else lines[1..])
  }

  function Fenced(info: string, body: string): string {
    FENCE + info + "\n" + body + "\n" + FENCE
  }

  predicate NoBreaks(s: string) {
    forall i :: 0 <= i < |s| ==> !IsBreak(s[i])
  }

  predicate OnlyNewlines(s: string) {
    forall i :: 0 <= i < |s| && IsBreak(s[i]) ==> s[i] == '\n'
  }

  predicate AllSpace(s: string) {
    forall i :: 0 <= i < |s| ==> IsSpace(s[i])
  }

  lemma {:induction false} LStripSpaces(pre: string, x: string)
    requires AllSpace(pre) && (x != "" ==> !IsSpace(x[0]))
    ensures LStrip(pre + x) == x
  {
    if pre == "" {
      assert pre + x == x;
    } else {
      assert (pre + x)[1..] == pre[1..] + x;
      LStripSpaces(pre[1..], x);
    }
  }

  lemma {:induction false} RStripSpaces(x: string, post: string)
    requires AllSpace(post) && (x != "" ==> !IsSpace(x[|x| - 1]))
    ensures RStrip(x + post) == x
  {
    if post == "" {
      assert x + post == x;
    } else {
      var n := |post| - 1;
      assert (x + post)[..|x| + n] == x + post[..n];
      RStripSpaces(x, post[..n]);
    }
  }

  lemma {:induction false} StripSpaces(pre: string, x: string, post: string)
    requires AllSpace(pre) && AllSpace(post) && x != "" && !IsSpace(x[0]) && !IsSpace(x[|x| - 1])
    ensures Strip(pre + x + post) == x
  {
    assert pre + x + post == pre + (x + post);
    LStripSpaces(pre, x + post);
    RStripSpaces(x, post);
  }

  lemma SplitAtBreak(s: string, k: nat)
    requires k < |s| && FirstBreak(s) == k
    ensures SplitLines(s) == [s[..k]] + SplitLines(s[k + BreakWidth(s, k)..])
  {
    assert s != "" && FirstBreak(s) != |s|;
  }

  lemma AppendedBreak(u: string, v: string, k: nat)
    requires k == FirstBreak(u) < |u| && u[|u| - 1] == '\n'
    ensures FirstBreak(u + v) == k && BreakWidth(u + v, k) == BreakWidth(u, k)
    ensures (u + v)[..k] == u[..k] && (u + v)[k + BreakWidth(u, k)..] == u[k + BreakWidth(u, k)..] + v
  {
    FirstBreakIn(u, v);
  }

  /** Text that ends in a newline splits independently of what follows. */
  lemma {:induction false} SplitAfterNewline(u: string, v: string)
    requires u != "" && u[|u| - 1] == '\n'
    ensures SplitLines(u + v) == SplitLines(u) + SplitLines(v)
    decreases |u|
  {
    FirstBreakIsFirst(u);
    var k := FirstBreak(u);
    assert IsBreak(u[|u| - 1]);
    AppendedBreak(u, v, k);
    SplitAtBreak(u, k);
    SplitAtBreak(u + v, k);
    var rest := u[k + BreakWidth(u, k)..];
    SplitRest(rest, v);
    if rest == "" {
    } else {
      SplitAfterNewline(rest, v);
    }
    Regroup(u[..k], SplitLines(rest), SplitLines(v), SplitLines(u), SplitLines(rest + v));
  }

  lemma SplitRest(rest: string, v: string)
    ensures rest == "" ==> SplitLines(rest + v) == SplitLines(rest) + SplitLines(v)
  {
    if rest == "" {
      assert rest + v == v;
      assert SplitLines(rest) == [];
    }
  }

  lemma Regroup(h: string, a: seq<string>, b: seq<string>, ha: seq<string>, ab: seq<string>)
    requires ha == [h] + a && ab == a + b
    ensures [h] + ab == ha + b
  {
  }

  lemma {:induction false} FirstBreakIn(u: string, v: string)
    requires FirstBreak(u) < |u|
    ensures FirstBreak(u + v) == FirstBreak(u)
  {
    var k := FirstBreak(u);
    FirstBreakIsFirst(u);
    assert forall i :: 0 <= i <= k ==> (u + v)[i] == u[i];
    FirstBreakAt(u + v, k);
  }

  lemma {:induction false} SplitOneLine(x: string)
    requires x != "" && NoBreaks(x)
    ensures SplitLines(x) == [x] && SplitLines(x + "\n") == [x]
  {
    FirstBreakAt(x, |x|);
    var y := x + "\n";
    assert IsBreak(y[|x|]) && forall i :: 0 <= i < |x| ==> y[i] == x[i];
    FirstBreakAt(y, |x|);
    assert y[..|x|] == x && y[|x| + 1..] == "";
  }

  lemma {:induction false} SplitMiddle(body: string)
    ensures SplitLines(body + "\n" + FENCE) == SplitLines(body + "\n") + [FENCE]
  {
    SplitAfterNewline(body + "\n", FENCE);
    SplitOneLine(FENCE);
  }

  lemma {:induction false} SplitFirst(first: string, rest: string)
    requires first != "" && NoBreaks(first)
    ensures SplitLines(first + "\n" + rest) == [first] + SplitLines(rest)
  {
    SplitAfterNewline(first + "\n", rest);
    SplitOneLine(first);
  }

  lemma {:induction false} SplitFenced(info: string, body: string)
    requires NoBreaks(info)
    ensures SplitLines(Fenced(info, body)) == [FENCE + info] + SplitLines(body + "\n") + [FENCE]
  {
    var first, middle := FENCE + info, body + "\n" + FENCE;
    assert Fenced(info, body) == first + "\n" + middle;
    SplitFirst(first, middle);
    SplitMiddle(body);
  }

  lemma StripFence()
    ensures Strip(FENCE) == FENCE
  {
    assert LStrip(FENCE) == FENCE && RStrip(FENCE) == FENCE;
  }

  /** A fenced reply, with any info string and outer whitespace, yields the lines of its body. */
  lemma {:induction false} ExtractFenced(pre: string, info: string, body: string, post: string)
    requires AllSpace(pre) && AllSpace(post) && NoBreaks(info)
    ensures Extract(pre + Fenced(info, body) + post) == Join(SplitLines(body + "\n"))
  {
    var x, inner := Fenced(info, body), SplitLines(body + "\n");
    StripSpaces(pre, x, post);
    SplitFenced(info, body);
    StripFence();
    var lines := [FENCE + info] + inner + [FENCE];
    assert lines[1..|lines| - 1] == inner && lines[|lines| - 1] == FENCE;
    assert FENCE <= x;
  }

  lemma {:induction false} LinesHaveNoBreaks(s: string)
    ensures forall i :: 0 <= i < |SplitLines(s)| ==> NoBreaks(SplitLines(s)[i])
    decreases |s|
  {
    if s == "" {
    } else {
      var k := FirstBreak(s);
      FirstBreakIsFirst(s);
      if k < |s| { LinesHaveNoBreaks(s[k + BreakWidth(s, k)..]); }
    }
  }

  lemma {:induction false} JoinOnlyNewlines(lines: seq<string>)
    requires forall i :: 0 <= i < |lines| ==> NoBreaks(lines[i])
    ensures OnlyNewlines(Join(lines))
  {
    if |lines| > 1 { JoinOnlyNewlines(lines[1..]); }
  }

  lemma JoinCons(line: string, lines: seq<string>)
    requires lines != []
    ensures Join([line] + lines) == line + "\n" + Join(lines)
  {
    assert ([line] + lines)[1..] == lines;
  }

  /** Where the first line of a text ends, when its only breaks are newlines. */
  lemma FirstNewline(s: string, t: string)
    requires OnlyNewlines(s) && t == s + "\n"
    ensures FirstBreak(t) <= |s| && t[FirstBreak(t)] == '\n'
  {
    FirstBreakIsFirst(t);
    assert t[|s|] == '\n';
    if FirstBreak(t) < |s| { assert t[FirstBreak(t)] == s[FirstBreak(t)]; }
  }

  lemma CutAtNewline(s: string, k: nat)
    requires k < |s| && s[k] == '\n'
    ensures s == s[..k] + "\n" + s[k + 1..]
    ensures (s + "\n")[..k] == s[..k] && (s + "\n")[k + 1..] == s[k + 1..] + "\n"
  {
  }

  lemma {:induction false} JoinSplit(s: string)
    requires OnlyNewlines(s)
    ensures SplitLines(s + "\n") != [] && Join(SplitLines(s + "\n")) == s
    decreases |s|
  {
    var k := FirstBreak(s + "\n");
    FirstNewline(s, s + "\n");
    if k < |s| {
      SplitCut(s, s + "\n", k);
      JoinSplit(s[k + 1..]);
      JoinCons(s[..k], SplitLines(s[k + 1..] + "\n"));
      CutAtNewline(s, k);
    } else {
      SplitAtBreak(s + "\n", k);
      JoinLast(s, s + "\n", k);
    }
  }

  lemma SplitCut(s: string, t: string, k: nat)
    requires t == s + "\n" && k == FirstBreak(t) < |s| && t[k] == '\n'
    ensures s[k] == '\n' && SplitLines(t) == [s[..k]] + SplitLines(s[k + 1..] + "\n")
  {
    assert t[k] == s[k];
    assert BreakWidth(t, k) == 1;
    SplitAtBreak(t, k);
    CutAtNewline(s, k);
    assert t[..k] == s[..k] && t[k + 1..] == s[k + 1..] + "\n";
  }

  lemma JoinLast(s: string, t: string, k: nat)
    requires t == s + "\n" && k == |s|
    ensures [t[..k]] + SplitLines(t[k + 1..]) == [s] && Join([s]) == s
  {
    assert t[..k] == s && t[k + 1..] == "";
    assert SplitLines("") == [];
  }

  /** Fencing a body leaves the extracted text exactly the body if and only if newlines are its only line breaks;
      any other break, even inside a JSON string, is rewritten. */
  lemma {:induction false} FenceTransparent(pre: string, info: string, body: string, post: string)
    requires AllSpace(pre) && AllSpace(post) && NoBreaks(info)
    ensures Extract(pre + Fenced(info, body) + post) == body <==> OnlyNewlines(body)
  {
    ExtractFenced(pre, info, body, post);
    if OnlyNewlines(body) {
      JoinSplit(body);
    } else {
      LinesHaveNoBreaks(body + "\n");
      JoinOnlyNewlines(SplitLines(body + "\n"));
    }
  }

  /** So fencing changes the text by outer whitespace only, when the bare body is not itself fenced. */
  lemma {:induction false} FenceOnlyStrips(info: string, body: string)
    requires NoBreaks(info) && OnlyNewlines(body) && !(FENCE <= Strip(body))
    ensures Strip(Extract(Fenced(info, body))) == Extract(body)
  {
    FenceTransparent("", info, body, "");
    assert "" + Fenced(info, body) + "" == Fenced(info, body);
  }

  lemma SplitSeparator(x: string, c: char, rest: string)
    requires NoBreaks(x) && IsBreak(c) && (c == '\r' && rest != "" ==> rest[0] != '\n')
    ensures SplitLines(x + [c] + rest) == [x] + SplitLines(rest)
  {
    var t := x + [c] + rest;
    var k := |x|;
    assert forall i :: 0 <= i < k ==> t[i] == x[i];
    assert t[k] == c;
    FirstBreakAt(t, k);
    SplitAtBreak(t, k);
    assert t[..k] == x && t[k + 1..] == rest;
  }

  lemma JoinTwo(x: string, y: string)
    ensures Join([x, y]) == x + "\n" + y
  {
    assert [x, y][1..] == [y];
  }

  lemma FencedAlone(info: string, body: string)
    requires NoBreaks(info)
    ensures Extract(Fenced(info, body)) == Join(SplitLines(body + "\n"))
  {
    ExtractFenced("", info, body, "");
    assert "" + Fenced(info, body) + "" == Fenced(info, body);
  }

  /** Any other line separator between two lines of the body becomes a newline. */
  lemma SeparatorRewritten(info: string, x: string, c: char, y: string)
    requires NoBreaks(info) && x != "" && y != "" && NoBreaks(x) && NoBreaks(y)
    requires IsBreak(c)
    ensures Extract(Fenced(info, x + [c] + y)) == x + "\n" + y
  {
    var body := x + [c] + y;
    FencedAlone(info, body);
    assert body + "\n" == x + [c] + (y + "\n");
    assert (y + "\n")[0] == y[0] && !IsBreak(y[0]);
    SplitSeparator(x, c, y + "\n");
    SplitOneLine(y);
    assert [x] + [y] == [x, y];
    JoinTwo(x, y);
  }

  // ------------------------------------------------------------------ validation

  datatype Float = Fin(r: real) | NaN | PosInf | NegInf

  datatype Json = JNull | JBool(b: bool) | JInt(n: int) | JFloat(x: Float) | JStr(s: string)
                | JArr(items: seq<Json>) | JObj(fields: map<string, Json>)

  /** json.loads, and which integers have no float. */
  datatype Lib = Lib(loads: string -> Option<Json>, tooBig: int -> bool)

  datatype Raised = NotJson | NotAnObject | MissingKeys | NotNumeric | Overflow | Unhashable | BadKeyFactors | Refused

  const VERBATIM := "verbatim_response"
  const SENTIMENT := "sentiment"
  const LIKELIHOOD := "likelihood_to_convert"
  const KEY_FACTORS := "key_factors"

  predicate ValidSentiment(s: string) { s == "positive" || s == "neutral" || s == "negative" }

  function Numeric(lib: Lib, v: Json): Result<Float, Raised> {
    match v
    case JBool(b) => Ok(Fin(if b then 1.0 else 0.0))
    case JInt(n) => if lib.tooBig(n) then Err(Overflow) else Ok(Fin(n as real))
    case JFloat(x) => Ok(x)
    case _ => Err(NotNumeric)
  }

  function PyLess(a: Float, b: Float): bool {
    match (a, b)
    case (NaN, _) => false
    case (_, NaN) => false
    case (Fin(x), Fin(y)) => x < y
    case (NegInf, _) => !b.NegInf?
    case (_, PosInf) => !a.PosInf?
    case (PosInf, _) => false
    case (_, NegInf) => false
  }

  /** max(0.0, min(1.0, x)): the first argument stands unless the second compares past it. */
  function ClampFloat(x: Float): Float {
    var lower := if PyLess(x, Fin(1.0)) then x else Fin(1.0);
    if PyLess(Fin(0.0), lower) then lower else Fin(0.0)
  }

  function CoercedSentiment(v: Json): Result<string, Raised> {
    match v
    case JArr(_) => Err(Unhashable)
    case JObj(_) => Err(Unhashable)
    case JStr(s) => Ok(if ValidSentiment(s) then s else "neutral")
    case _ => Ok("neutral")
  }

  function ParseResponse(lib: Lib, text: string): Result<map<string, Json>, Raised> {
    match lib.loads(Extract(text))
    case None => Err(NotJson)
    case Some(v) =>
      if !v.JObj? then Err(NotAnObject) else
      if VERBATIM !in v.fields || SENTIMENT !in v.fields || LIKELIHOOD !in v.fields then Err(MissingKeys) else
      match Numeric(lib, v.fields[LIKELIHOOD])
      case Err(e) => Err(e)
      case Ok(x) =>
        match CoercedSentiment(v.fields[SENTIMENT])
        case Err(e) => Err(e)
        case Ok(s) => Ok(v.fields[LIKELIHOOD := JFloat(ClampFloat(x))][SENTIMENT := JStr(s)])
  }

  datatype Response = Response(verbatim: Json, sentiment: string, likelihood: Float, keyFactors: seq<Json>)

  /** What SyntheticResponse.__post_init__ lets pass. */
  predicate Accepted(sentiment: string, likelihood: Float) {
    ValidSentiment(sentiment) && likelihood.Fin? && 0.0 <= likelihood.r <= 1.0
  }

  type ValidResponse = r: Response | Accepted(r.sentiment, r.likelihood) witness Response(JNull, "neutral", Fin(0.0), [])

  function KeyFactors(data: map<string, Json>, keyOrder: map<string, Json> -> seq<string>): Result<seq<Json>, Raised> {
    if KEY_FACTORS !in data then Ok([]) else
    match data[KEY_FACTORS]
    case JArr(items) => Ok(items)
    case JStr(s) => Ok(seq(|s|, i requires 0 <= i < |s| => JStr([s[i]])))
    case JObj(fields) => var ks := keyOrder(fields); Ok(seq(|ks|, i requires 0 <= i < |ks| => JStr(ks[i])))
    case _ => Err(BadKeyFactors)
  }

  /** The reply as generate builds it, the constructor's own check included. */
  function BuildResponse(lib: Lib, keyOrder: map<string, Json> -> seq<string>, text: string): Result<Response, Raised> {
    match ParseResponse(lib, text)
    case Err(e) => Err(e)
    case Ok(data) =>
      if VERBATIM !in data || SENTIMENT !in data || LIKELIHOOD !in data then Err(Refused) else
      if !data[SENTIMENT].JStr? || !data[LIKELIHOOD].JFloat? then Err(Refused) else
      match KeyFactors(data, keyOrder)
      case Err(e) => Err(e)
      case Ok(ks) =>
        if !Accepted(data[SENTIMENT].s, data[LIKELIHOOD].x) then Err(Refused)
        else Ok(Response(data[VERBATIM], data[SENTIMENT].s, data[LIKELIHOOD].x, ks))
  }

  /** For every reply text parsing raises or yields values the constructor accepts, so the constructor never refuses. */
  lemma ParsedIsAccepted(lib: Lib, keyOrder: map<string, Json> -> seq<string>, text: string)
    ensures ParseResponse(lib, text).Ok? ==>
      var data := ParseResponse(lib, text).value;
      && VERBATIM in data && SENTIMENT in data && LIKELIHOOD in data
      && data[SENTIMENT].JStr? && data[LIKELIHOOD].JFloat? && Accepted(data[SENTIMENT].s, data[LIKELIHOOD].x)
    ensures BuildResponse(lib, keyOrder, text) != Err(Refused)
    ensures BuildResponse(lib, keyOrder, text).Ok? ==>
      Accepted(BuildResponse(lib, keyOrder, text).value.sentiment, BuildResponse(lib, keyOrder, text).value.likelihood)
  {
    assert VERBATIM[0] != SENTIMENT[0] && SENTIMENT[0] != LIKELIHOOD[0] && VERBATIM[0] != LIKELIHOOD[0];
  }

  /** Values outside the range, infinities and not-a-number are pulled in: not-a-number reads as certainty. */
  lemma ClampedValues(x: Float)
    ensures ClampFloat(x) == match x
      case Fin(r) => Fin(if r < 0.0 then 0.0 else if r > 1.0 then 1.0 else r)
      case NaN => Fin(1.0)
      case PosInf => Fin(1.0)
      case NegInf => Fin(0.0)
  {
  }

  // --------------------------------------------------------------------- scoring

  function Nudge(sentiment: string): real {
    if sentiment == "positive" then 0.05 else if sentiment == "negative" then -0.08 else 0.0
  }

  function Clamp(x: real): real { if x < 0.0 then 0.0 else if x > 1.0 then 1.0 else x }

  function Score(likelihood: real, sentiment: string): real { Clamp(likelihood + Nudge(sentiment)) }

  function ScoreOf(r: ValidResponse): real { Score(r.likelihood.r, r.sentiment) }

  /** The score is a probability within 0.08 of the likelihood, on the sentiment's side of it, and grows with it. */
  lemma ScoreBounds(l: real, m: real, s: string)
    requires 0.0 <= l <= m <= 1.0
    ensures 0.0 <= Score(l, s) <= 1.0 && -0.08 <= Score(l, s) - l <= 0.05
    ensures Score(l, s) <= Score(m, s) && Score(m, s) - Score(l, s) <= m - l
    ensures Score(l, "negative") <= Score(l, "neutral") == l <= Score(l, "positive")
    ensures l < 1.0 ==> l < Score(l, "positive")
    ensures l > 0.0 ==> Score(l, "negative") < l
  {
    assert "positive"[0] != "negative"[0] && "neutral"[0] != "positive"[0] && "neutral"[2] != "negative"[2];
  }

  /** Away from the ends the nudge is exactly 0.05 up or 0.08 down. */
  lemma NudgesExactly(l: real)
    requires 0.08 <= l <= 0.95
    ensures Score(l, "positive") == l + 0.05 && Score(l, "neutral") == l && Score(l, "negative") == l - 0.08
  {
    assert "positive"[0] != "negative"[0];
    assert "neutral"[0] != "positive"[0] && "neutral"[2] != "negative"[2];
  }

  /** A number that JSON may hold, as a float. */
  function NumberIn(lib: Lib, v: Json): Option<Float> {
    match v
    case JBool(b) => Some(Fin(if b then 1.0 else 0.0))
    case JInt(n) => if lib.tooBig(n) then None else Some(Fin(n as real))
    case JFloat(x) => Some(x)
    case _ => None
  }

  /** A reply in full: which error it gives, in this order, or how each field of the response comes from the object. */
  lemma ReplyInFull(lib: Lib, keyOrder: map<string, Json> -> seq<string>, text: string)
    ensures
      var r := BuildResponse(lib, keyOrder, text);
      match lib.loads(Extract(text))
      case None => r == Err(NotJson)
      case Some(JObj(f)) =>
        if "verbatim_response" !in f || "sentiment" !in f || "likelihood_to_convert" !in f then r == Err(MissingKeys) else
        var likelihood, sentiment := f["likelihood_to_convert"], f["sentiment"];
        if !likelihood.JBool? && !likelihood.JInt? && !likelihood.JFloat? then r == Err(NotNumeric) else
        if likelihood.JInt? && lib.tooBig(likelihood.n) then r == Err(Overflow) else
        if sentiment.JArr? || sentiment.JObj? then r == Err(Unhashable) else
        if "key_factors" in f && !f["key_factors"].JArr? && !f["key_factors"].JStr? && !f["key_factors"].JObj?
        then r == Err(BadKeyFactors) else
        && r.Ok?
        && r.value.verbatim == f["verbatim_response"]
        && r.value.sentiment == (if sentiment == JStr("positive") || sentiment == JStr("negative") then sentiment.s else "neutral")
        && (match NumberIn(lib, likelihood).value
            case Fin(x) => r.value.likelihood == Fin(if x < 0.0 then 0.0 else if x > 1.0 then 1.0 else x)
            case NegInf => r.value.likelihood == Fin(0.0)
            case _ => r.value.likelihood == Fin(1.0))
        && (if "key_factors" !in f then r.value.keyFactors == []
            else f["key_factors"].JArr? ==> r.value.keyFactors == f["key_factors"].items)
      case Some(_) => r == Err(NotAnObject)
  {
    assert VERBATIM[0] != SENTIMENT[0] && SENTIMENT[0] != LIKELIHOOD[0] && VERBATIM[0] != LIKELIHOOD[0];
    assert KEY_FACTORS[0] != VERBATIM[0] && KEY_FACTORS[0] != SENTIMENT[0] && KEY_FACTORS[0] != LIKELIHOOD[0];
  }

  /** Text without a fence is only stripped. */
  lemma UnfencedStays(pre: string, x: string, post: string)
    requires AllSpace(pre) && AllSpace(post) && x != "" && !IsSpace(x[0]) && !IsSpace(x[|x| - 1]) && !(FENCE <= x)
    ensures Extract(pre + x + post) == x
  {
    StripSpaces(pre, x, post);
  }

  /** A fence that is never closed still goes, and all the lines after it stay. */
  lemma UnclosedFence(info: string, body: string)
    requires NoBreaks(info) && body != "" && !IsSpace(body[|body| - 1])
    requires SplitLines(body) != [] && Strip(SplitLines(body)[|SplitLines(body)| - 1]) != FENCE
    ensures Extract(FENCE + info + "\n" + body) == Join(SplitLines(body))
  {
    var first, text := FENCE + info, FENCE + info + "\n" + body;
    StrippedAlready(text);
    SplitFirst(first, body);
    LastOfCons(first, SplitLines(body));
    FenceLeads(info, body);
  }

  lemma FenceLeads(info: string, body: string)
    ensures FENCE <= FENCE + info + "\n" + body
  {
  }

  lemma LastOfCons(first: string, rest: seq<string>)
    requires rest != []
    ensures ([first] + rest)[1..] == rest && ([first] + rest)[|rest|] == rest[|rest| - 1]
  {
  }

  lemma StrippedAlready(x: string)
    requires x != "" && !IsSpace(x[0]) && !IsSpace(x[|x| - 1])
    ensures Strip(x) == x
  {
    StripSpaces("", x, "");
    assert "" + x + "" == x;
  }

  /** For every reply that is accepted the score is a probability near the reply's likelihood. */
  lemma AcceptedReplyScores(lib: Lib, keyOrder: map<string, Json> -> seq<string>, text: string)
    requires BuildResponse(lib, keyOrder, text).Ok?
    ensures
      var r := BuildResponse(lib, keyOrder, text).value;
      r.likelihood.Fin? && 0.0 <= Score(r.likelihood.r, r.sentiment) <= 1.0
      && -0.08 <= Score(r.likelihood.r, r.sentiment) - r.likelihood.r <= 0.08
  {
    ParsedIsAccepted(lib, keyOrder, text);
    var r := BuildResponse(lib, keyOrder, text).value;
    ScoreBounds(r.likelihood.r, r.likelihood.r, r.sentiment);
  }
}
