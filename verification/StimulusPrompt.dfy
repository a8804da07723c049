/** Marketing stimuli and the prompt text they are formatted to. */
module StimulusPrompt {
  import opened Prelude
  import R = ReplyParsing

  datatype Stimulus =
    | AdCopy(stimulusId: string, createdAt: int, headline: string, bodyCopy: string, cta: string,
             productName: Option<string>, image: Option<string>)
    | PriceChange(stimulusId: string, createdAt: int, product: string, originalPrice: real, newPrice: real, currency: string)
    | Promo(stimulusId: string, createdAt: int, code: string, value: real, percent: bool,
            minimum: Option<real>, expiryDays: Option<int>, categories: seq<string>)

  /** What the validators let pass. */
  predicate ValidStimulus(s: Stimulus) {
    match s
    case AdCopy(_, _, h, b, c, _, _) => 1 <= |h| <= 200 && 1 <= |b| <= 1000 && 1 <= |c| <= 100
    case PriceChange(_, _, _, o, n, _) => o > 0.0 && n > 0.0 && o != n
    case Promo(_, _, _, v, percent, m, e, _) =>
      v > 0.0 && (percent ==> v <= 100.0) && (m.Some? ==> m.value >= 0.0) && (e.Some? ==> e.value >= 1)
  }

  /** How numbers are printed: to a fixed number of decimals, and integers. */
  datatype Printer = Printer(fixed: (real, nat) -> string, whole: int -> string)

  predicate Truthy(t: Option<string>) { t.Some? && t.value != "" }

  function DiscountPct(s: Stimulus): real
    requires s.PriceChange? && s.originalPrice != 0.0
  {
    (s.originalPrice - s.newPrice) / s.originalPrice * 100.0
  }

  function AbsReal(x: real): real { if x < 0.0 then -x else x }

  function CommaJoin(xs: seq<string>): string {
    if xs == [] then "" else if |xs| == 1 then xs[0] else xs[0] + ", " + CommaJoin(xs[1..])
  }

  /** The two stimuli differ in their id and creation time at most. */
  predicate SameContent(a: Stimulus, b: Stimulus) {
    a == b.(stimulusId := a.stimulusId, createdAt := a.createdAt)
  }

  // ------------------------------------------------------- what a prompt shows

  /** What of a stimulus its prompt shows; optional parts are absent when not shown. */
  datatype Shown =
    | ShownAd(headline: string, body: string, cta: string, productName: Option<string>, image: Option<string>)
    | ShownPrice(product: string, original: string, changed: string, change: string)
    | ShownPromo(code: string, discount: string, minimum: Option<string>, expiry: Option<string>, categories: Option<string>)

  function Show(p: Printer, s: Stimulus): Shown
    requires ValidStimulus(s)
  {
    match s
    case AdCopy(_, _, h, b, c, product, image) =>
      ShownAd(h, b, c, if Truthy(product) then product else None, if Truthy(image) then image else None)
    case PriceChange(_, _, product, o, n, currency) =>
      ShownPrice(product, currency + p.fixed(o, 2), currency + p.fixed(n, 2),
                 p.fixed(AbsReal(DiscountPct(s)), 1) + "% " + if n < o then "discount" else "price increase")
    case Promo(_, _, code, v, percent, minimum, expiry, categories) =>
      ShownPromo(code, if percent then p.fixed(v, 0) + "% off" else "$" + p.fixed(v, 2) + " off",
                 if minimum.Some? && minimum.value != 0.0 then Some(p.fixed(minimum.value, 2)) else None,
                 if expiry.Some? && expiry.value != 0 then Some(p.whole(expiry.value) + " days") else None,
                 if categories != [] then Some(CommaJoin(categories)) else None)
  }

  const AD_TITLE := "## Marketing Stimulus \U{2014} Ad Copy"
  const PRICE_TITLE := "## Marketing Stimulus \U{2014} Price Change"
  const PROMO_TITLE := "## Marketing Stimulus \U{2014} Promotional Offer"

  /** An optional line: its heading and its text. */
  function Line(head: string, t: Option<string>): (line: Option<string>)
    ensures line.Some? <==> t.Some?
  {
    if t.Some? then Some(head + t.value) else None
  }

  function Optional(line: Option<string>): seq<string> { if line.Some? then [line.value] else [] }

  function Lines(x: Shown): (lines: seq<string>)
    ensures |lines| >= 3
  {
    match x
    case ShownAd(h, b, c, product, image) =>
      [AD_TITLE, "**Headline:** " + h, "**Body:** " + b, "**Call to Action:** " + c]
        + (Optional(Line("**Product:** ", product)) + Optional(Line("**Visual:** ", image)))
    case ShownPrice(product, original, changed, change) =>
      [PRICE_TITLE, "**Product:** " + product, "**Original price:** " + original, "**New price:** " + changed,
       "**Change:** " + change]
    case ShownPromo(code, discount, minimum, expiry, categories) =>
      [PROMO_TITLE, "**Promo code:** " + code, "**Discount:** " + discount]
        + (Optional(Line("**Minimum purchase:** $", minimum))
           + (Optional(Line("**Expires in:** ", expiry)) + Optional(Line("**Valid for:** ", categories))))
  }

  function Prompt(x: Shown): string { R.Join(Lines(x)) }

  predicate OneLine(t: string) { '\n' !in t }

  predicate MaybeOneLine(t: Option<string>) { t.Some? ==> OneLine(t.value) }

  /** No shown text has a newline of its own. */
  predicate OneLineEach(x: Shown) {
    match x
    case ShownAd(h, b, c, product, image) => OneLine(h) && OneLine(b) && OneLine(c) && MaybeOneLine(product) && MaybeOneLine(image)
    case ShownPrice(product, original, changed, change) =>
      OneLine(product) && OneLine(original) && OneLine(changed) && OneLine(change)
    case ShownPromo(code, discount, minimum, expiry, categories) =>
      OneLine(code) && OneLine(discount) && MaybeOneLine(minimum) && MaybeOneLine(expiry) && MaybeOneLine(categories)
  }

  // ------------------------------------------------------ the prompts, word for word

  lemma JoinThree(a: string, b: string, c: string, rest: seq<string>)
    ensures R.Join([a, b, c] + rest) == a + "\n" + b + "\n" + c + (if rest == [] then "" else "\n" + R.Join(rest))
  {
    assert ([a, b, c] + rest)[1..] == [b, c] + rest && ([b, c] + rest)[1..] == [c] + rest && ([c] + rest)[1..] == rest;
    var tail := if rest == [] then "" else "\n" + R.Join(rest);
    assert R.Join([c] + rest) == c + tail;
    assert R.Join([b, c] + rest) == b + "\n" + (c + tail);
    assert a + "\n" + (b + "\n" + (c + tail)) == a + "\n" + b + "\n" + c + tail;
  }

  lemma JoinTwoMore(x: string, y: string)
    ensures R.Join([x]) == x && R.Join([x, y]) == x + "\n" + y
  {
    assert [x, y][1..] == [y];
  }

  /** The original price before the new one, the change in percent of the original, and its direction. */
  lemma PricePrompt(p: Printer, s: Stimulus)
    requires s.PriceChange? && ValidStimulus(s)
    ensures
      var change := (s.originalPrice - s.newPrice) / s.originalPrice * 100.0;
      Prompt(Show(p, s)) ==
        "## Marketing Stimulus \U{2014} Price Change"
        + "\n" + ("**Product:** " + s.product)
        + "\n" + ("**Original price:** " + (s.currency + p.fixed(s.originalPrice, 2)))
        + ("\n" + (("**New price:** " + (s.currency + p.fixed(s.newPrice, 2)))
        + "\n" + ("**Change:** " + (p.fixed(if change < 0.0 then -change else change, 1) + "% "
                                    + if s.newPrice < s.originalPrice then "discount" else "price increase"))))
  {
    var x := Show(p, s);
    var rest := ["**New price:** " + x.changed, "**Change:** " + x.change];
    assert Lines(x) == [PRICE_TITLE, "**Product:** " + x.product, "**Original price:** " + x.original] + rest;
    JoinThree(PRICE_TITLE, "**Product:** " + x.product, "**Original price:** " + x.original, rest);
    JoinTwoMore(rest[0], rest[1]);
  }

  lemma AdLines(p: Printer, s: Stimulus)
    requires s.AdCopy? && ValidStimulus(s)
    ensures Lines(Show(p, s)) ==
      ["## Marketing Stimulus \U{2014} Ad Copy", "**Headline:** " + s.headline, "**Body:** " + s.bodyCopy,
       "**Call to Action:** " + s.cta]
      + (if s.productName.Some? && s.productName.value != "" then ["**Product:** " + s.productName.value] else [])
      + (if s.image.Some? && s.image.value != "" then ["**Visual:** " + s.image.value] else [])
  {
    var a := if s.productName.Some? && s.productName.value != "" then ["**Product:** " + s.productName.value] else [];
    var b := if s.image.Some? && s.image.value != "" then ["**Visual:** " + s.image.value] else [];
    assert Optional(Line("**Product:** ", Show(p, s).productName)) == a && Optional(Line("**Visual:** ", Show(p, s).image)) == b;
    Regrouped(["## Marketing Stimulus \U{2014} Ad Copy", "**Headline:** " + s.headline, "**Body:** " + s.bodyCopy,
               "**Call to Action:** " + s.cta], a, b);
  }

  lemma Regrouped(x: seq<string>, y: seq<string>, z: seq<string>)
    ensures x + (y + z) == x + y + z
  {
  }

  lemma PromoLines(p: Printer, s: Stimulus)
    requires s.Promo? && ValidStimulus(s)
    ensures Lines(Show(p, s)) ==
      ["## Marketing Stimulus \U{2014} Promotional Offer", "**Promo code:** " + s.code,
       "**Discount:** " + if s.percent then p.fixed(s.value, 0) + "% off" else "$" + p.fixed(s.value, 2) + " off"]
      + (if s.minimum.Some? && s.minimum.value != 0.0 then ["**Minimum purchase:** $" + p.fixed(s.minimum.value, 2)] else [])
      + (if s.expiryDays.Some? && s.expiryDays.value != 0 then ["**Expires in:** " + (p.whole(s.expiryDays.value) + " days")] else [])
      + (if s.categories != [] then ["**Valid for:** " + CommaJoin(s.categories)] else [])
  {
    var three := ["## Marketing Stimulus \U{2014} Promotional Offer", "**Promo code:** " + s.code,
      "**Discount:** " + if s.percent then p.fixed(s.value, 0) + "% off" else "$" + p.fixed(s.value, 2) + " off"];
    var a := if s.minimum.Some? && s.minimum.value != 0.0 then ["**Minimum purchase:** $" + p.fixed(s.minimum.value, 2)] else [];
    var b := if s.expiryDays.Some? && s.expiryDays.value != 0 then ["**Expires in:** " + (p.whole(s.expiryDays.value) + " days")] else [];
    var c := if s.categories != [] then ["**Valid for:** " + CommaJoin(s.categories)] else [];
    Regrouped(three, a, b + c);
    Regrouped(three + a, b, c);
  }

  /** An ad's prompt: the optional lines when there is text for them. */
  lemma AdPrompt(p: Printer, s: Stimulus)
    requires s.AdCopy? && ValidStimulus(s)
    ensures Prompt(Show(p, s)) == R.Join(
      ["## Marketing Stimulus \U{2014} Ad Copy", "**Headline:** " + s.headline, "**Body:** " + s.bodyCopy,
       "**Call to Action:** " + s.cta]
      + (if s.productName.Some? && s.productName.value != "" then ["**Product:** " + s.productName.value] else [])
      + (if s.image.Some? && s.image.value != "" then ["**Visual:** " + s.image.value] else []))
  {
    AdLines(p, s);
  }

  /** An offer's prompt: percent or dollars, and the optional lines when they say something. */
  lemma PromoPrompt(p: Printer, s: Stimulus)
    requires s.Promo? && ValidStimulus(s)
    ensures Prompt(Show(p, s)) == R.Join(
      ["## Marketing Stimulus \U{2014} Promotional Offer", "**Promo code:** " + s.code,
       "**Discount:** " + if s.percent then p.fixed(s.value, 0) + "% off" else "$" + p.fixed(s.value, 2) + " off"]
      + (if s.minimum.Some? && s.minimum.value != 0.0 then ["**Minimum purchase:** $" + p.fixed(s.minimum.value, 2)] else [])
      + (if s.expiryDays.Some? && s.expiryDays.value != 0 then ["**Expires in:** " + (p.whole(s.expiryDays.value) + " days")] else [])
      + (if s.categories != [] then ["**Valid for:** " + CommaJoin(s.categories)] else []))
  {
    PromoLines(p, s);
  }

  // --------------------------------------------------- joined lines tell the lines

  predicate AllOneLine(lines: seq<string>) { forall i :: 0 <= i < |lines| ==> OneLine(lines[i]) }

  lemma JoinHead(a: seq<string>)
    requires |a| > 1
    ensures |R.Join(a)| > |a[0]| && R.Join(a)[..|a[0]|] == a[0] && R.Join(a)[|a[0]|] == '\n'
    ensures R.Join(a)[|a[0]| + 1..] == R.Join(a[1..])
  {
    assert R.Join(a) == a[0] + "\n" + R.Join(a[1..]);
  }

  lemma JoinStarts(a: seq<string>)
    requires a != []
    ensures a[0] <= R.Join(a) && (|a| == 1 ==> R.Join(a) == a[0])
  {
  }

  /** The first line ends at the first newline. */
  lemma HeadNotLonger(a: seq<string>, b: seq<string>)
    requires a != [] && |b| > 1 && AllOneLine(a) && R.Join(a) == R.Join(b)
    ensures |a| > 1 && |a[0]| <= |b[0]|
  {
    JoinHead(b);
    JoinStarts(a);
    assert R.Join(a)[|b[0]|] == '\n';
    assert forall i :: 0 <= i < |a[0]| ==> R.Join(a)[i] == a[0][i];
  }

  lemma {:induction false} JoinTellsLines(a: seq<string>, b: seq<string>)
    requires a != [] && b != [] && AllOneLine(a) && AllOneLine(b) && R.Join(a) == R.Join(b)
    ensures a == b
    decreases |a|
  {
    if |b| > 1 { HeadNotLonger(a, b); }
    if |a| > 1 { HeadNotLonger(b, a); }
    if |a| == 1 {
      assert a == [a[0]] && b == [b[0]];
    } else {
      JoinHead(a);
      JoinHead(b);
      JoinTellsLines(a[1..], b[1..]);
      assert a == [a[0]] + a[1..] && b == [b[0]] + b[1..];
    }
  }

  // -------------------------------------------------- the lines tell what is shown

  lemma SameRest(head: string, x: string, y: string)
    requires head + x == head + y
    ensures x == y
  {
    assert x == (head + x)[|head|..] && y == (head + y)[|head|..];
  }

  lemma SameOption(head: string, x: Option<string>, y: Option<string>)
    requires Line(head, x) == Line(head, y)
    ensures x == y
  {
    if x.Some? { SameRest(head, x.value, y.value); }
  }

  predicate Marked(line: string, mark: char) { |line| > 2 && line[2] == mark }

  predicate NoneMarked(lines: seq<string>, mark: char) { forall i :: 0 <= i < |lines| ==> !Marked(lines[i], mark) }

  /** An optional line that its heading sets apart from all that follow. */
  lemma SameOptional(x: Option<string>, y: Option<string>, m: seq<string>, n: seq<string>, mark: char)
    requires (x.Some? ==> Marked(x.value, mark)) && (y.Some? ==> Marked(y.value, mark))
    requires NoneMarked(m, mark) && NoneMarked(n, mark)
    requires Optional(x) + m == Optional(y) + n
    ensures x == y && m == n
  {
    var p, q := Optional(x) + m, Optional(y) + n;
    assert x.Some? ==> p[0] == x.value && p[1..] == m;
    assert y.Some? ==> q[0] == y.value && q[1..] == n;
    assert x.None? ==> p == m;
    assert y.None? ==> q == n;
  }

  lemma AdTells(a: Shown, b: Shown)
    requires a.ShownAd? && b.ShownAd? && Lines(a) == Lines(b)
    ensures a == b
  {
    var m, n := Lines(a), Lines(b);
    assert m[1] == n[1] && m[2] == n[2] && m[3] == n[3];
    SameRest("**Headline:** ", a.headline, b.headline);
    SameRest("**Body:** ", a.body, b.body);
    SameRest("**Call to Action:** ", a.cta, b.cta);
    var pa, pb := Line("**Product:** ", a.productName), Line("**Product:** ", b.productName);
    var va, vb := Line("**Visual:** ", a.image), Line("**Visual:** ", b.image);
    assert m[4..] == Optional(pa) + Optional(va) && n[4..] == Optional(pb) + Optional(vb);
    SameOptional(pa, pb, Optional(va), Optional(vb), 'P');
    assert Optional(va) + [] == Optional(va) && Optional(vb) + [] == Optional(vb);
    SameOptional(va, vb, [], [], 'V');
    SameOption("**Product:** ", a.productName, b.productName);
    SameOption("**Visual:** ", a.image, b.image);
  }

  lemma PriceTells(a: Shown, b: Shown)
    requires a.ShownPrice? && b.ShownPrice? && Lines(a) == Lines(b)
    ensures a == b
  {
    var m, n := Lines(a), Lines(b);
    assert m[1] == n[1] && m[2] == n[2] && m[3] == n[3] && m[4] == n[4];
    SameRest("**Product:** ", a.product, b.product);
    SameRest("**Original price:** ", a.original, b.original);
    SameRest("**New price:** ", a.changed, b.changed);
    SameRest("**Change:** ", a.change, b.change);
  }

  lemma SameThree(ma: Option<string>, ea: Option<string>, va: Option<string>,
                  mb: Option<string>, eb: Option<string>, vb: Option<string>)
    requires (ma.Some? ==> Marked(ma.value, 'M')) && (ea.Some? ==> Marked(ea.value, 'E')) && (va.Some? ==> Marked(va.value, 'V'))
    requires (mb.Some? ==> Marked(mb.value, 'M')) && (eb.Some? ==> Marked(eb.value, 'E')) && (vb.Some? ==> Marked(vb.value, 'V'))
    requires Optional(ma) + (Optional(ea) + Optional(va)) == Optional(mb) + (Optional(eb) + Optional(vb))
    ensures ma == mb && ea == eb && va == vb
  {
    SameOptional(ma, mb, Optional(ea) + Optional(va), Optional(eb) + Optional(vb), 'M');
    SameOptional(ea, eb, Optional(va), Optional(vb), 'E');
    assert Optional(va) + [] == Optional(va) && Optional(vb) + [] == Optional(vb);
    SameOptional(va, vb, [], [], 'V');
  }

  lemma PromoTells(a: Shown, b: Shown)
    requires a.ShownPromo? && b.ShownPromo? && Lines(a) == Lines(b)
    ensures a == b
  {
    var m, n := Lines(a), Lines(b);
    assert m[1] == n[1] && m[2] == n[2];
    SameRest("**Promo code:** ", a.code, b.code);
    SameRest("**Discount:** ", a.discount, b.discount);
    var ma, mb := Line("**Minimum purchase:** $", a.minimum), Line("**Minimum purchase:** $", b.minimum);
    var ea, eb := Line("**Expires in:** ", a.expiry), Line("**Expires in:** ", b.expiry);
    var va, vb := Line("**Valid for:** ", a.categories), Line("**Valid for:** ", b.categories);
    assert m[3..] == Optional(ma) + (Optional(ea) + Optional(va)) && n[3..] == Optional(mb) + (Optional(eb) + Optional(vb));
    SameThree(ma, ea, va, mb, eb, vb);
    SameOption("**Minimum purchase:** $", a.minimum, b.minimum);
    SameOption("**Expires in:** ", a.expiry, b.expiry);
    SameOption("**Valid for:** ", a.categories, b.categories);
  }

  lemma LinesTell(a: Shown, b: Shown)
    requires Lines(a) == Lines(b)
    ensures a == b
  {
    assert Lines(a)[0] == Lines(b)[0];
    assert AD_TITLE[24] == 'A' && PRICE_TITLE[25] == 'r' && PROMO_TITLE[25] == 'r';
    assert PRICE_TITLE[26] == 'i' && PROMO_TITLE[26] == 'o';
    match a
    case ShownAd(_, _, _, _, _) => AdTells(a, b);
    case ShownPrice(_, _, _, _) => PriceTells(a, b);
    case ShownPromo(_, _, _, _, _) => PromoTells(a, b);
  }

  lemma LinesAreLines(x: Shown)
    requires OneLineEach(x)
    ensures AllOneLine(Lines(x))
  {
    match x
    case ShownAd(_, _, _, product, image) =>
      AllOneLineJoin(Optional(Line("**Product:** ", product)), Optional(Line("**Visual:** ", image)));
    case ShownPrice(_, _, _, _) =>
    case ShownPromo(_, _, _, _, _) => PromoLinesAreLines(x);
  }

  lemma PromoLinesAreLines(x: Shown)
    requires x.ShownPromo? && OneLineEach(x)
    ensures AllOneLine(Lines(x))
  {
    var m := Optional(Line("**Minimum purchase:** $", x.minimum));
    var e, v := Optional(Line("**Expires in:** ", x.expiry)), Optional(Line("**Valid for:** ", x.categories));
    AllOneLineJoin(e, v);
    AllOneLineJoin(m, e + v);
    AllOneLineJoin([PROMO_TITLE, "**Promo code:** " + x.code, "**Discount:** " + x.discount], m + (e + v));
  }

  lemma AllOneLineJoin(a: seq<string>, b: seq<string>)
    requires AllOneLine(a) && AllOneLine(b)
    ensures AllOneLine(a + b)
  {
  }

  /** While no shown text has a newline, a prompt tells all that it shows: two prompts are equal exactly when they
      show the same, whatever the kinds of the stimuli and whichever optional parts they have. */
  lemma PromptTellsContent(a: Shown, b: Shown)
    requires OneLineEach(a) && OneLineEach(b)
    ensures Prompt(a) == Prompt(b) <==> a == b
  {
    if Prompt(a) == Prompt(b) {
      LinesAreLines(a);
      LinesAreLines(b);
      JoinTellsLines(Lines(a), Lines(b));
      LinesTell(a, b);
    }
  }

  /** A newline inside a text can forge a line: an ad without a product reads like one with it. */
  lemma NewlineForgesLine(h: string, b: string, c: string, product: string)
    ensures
      var forged := ShownAd(h, b, c + "\n" + ("**Product:** " + product), None, None);
      var plain := ShownAd(h, b, c, Some(product), None);
      forged != plain && Prompt(forged) == Prompt(plain)
  {
    var x, y := "**Call to Action:** " + c, "**Product:** " + product;
    var z := x + "\n" + y;
    assert "**Call to Action:** " + (c + "\n" + y) == z;
    var first := [AD_TITLE, "**Headline:** " + h, "**Body:** " + b];
    assert Lines(ShownAd(h, b, c + "\n" + y, None, None)) == first + [z];
    assert Lines(ShownAd(h, b, c, Some(product), None)) == first + [x, y];
    JoinSplitsLast(first, x, y);
  }

  /** Two valid ads that differ and have the same prompt, for every headline, body, call to action and product that fit. */
  lemma AdsCollide(p: Printer, id: string, at: int, h: string, b: string, c: string, product: string)
    requires 1 <= |h| <= 200 && 1 <= |b| <= 1000 && 1 <= |c| && product != "" && |c| + |product| <= 86
    ensures
      var forged := AdCopy(id, at, h, b, c + "\n" + ("**Product:** " + product), None, None);
      var plain := AdCopy(id, at, h, b, c, Some(product), None);
      && ValidStimulus(forged) && ValidStimulus(plain) && !SameContent(forged, plain)
      && Prompt(Show(p, forged)) == Prompt(Show(p, plain))
  {
    assert |"**Product:** "| == 13;
    NewlineForgesLine(h, b, c, product);
  }

  lemma {:induction false} JoinSplitsLast(first: seq<string>, x: string, y: string)
    ensures R.Join(first + [x + "\n" + y]) == R.Join(first + [x, y])
  {
    if first == [] {
      assert [x, y][1..] == [y];
      assert first + [x, y] == [x, y] && first + [x + "\n" + y] == [x + "\n" + y];
    } else {
      JoinSplitsLast(first[1..], x, y);
      assert (first + [x, y])[1..] == first[1..] + [x, y];
      assert (first + [x + "\n" + y])[1..] == first[1..] + [x + "\n" + y];
    }
  }

  lemma SameContentShowsSame(p: Printer, a: Stimulus, b: Stimulus)
    requires ValidStimulus(a) && ValidStimulus(b) && SameContent(b, a)
    ensures Show(p, a) == Show(p, b)
  {
  }

  /** The formatter, appending to a list of lines: its result tells apart whatever is shown differently. */
  method FormatStimulusPrompt(p: Printer, s: Stimulus) returns (prompt: string)
    requires ValidStimulus(s)
    ensures prompt == Prompt(Show(p, s))
    ensures OneLineEach(Show(p, s)) ==> forall x: Shown :: OneLineEach(x) && Prompt(x) == prompt ==> x == Show(p, s)
  {
    var lines: seq<string>;
    match s {
      case AdCopy(_, _, h, b, c, product, image) =>
        lines := [AD_TITLE, "**Headline:** " + h, "**Body:** " + b, "**Call to Action:** " + c];
        ghost var l0 := lines;
        if Truthy(product) { lines := lines + ["**Product:** " + product.value]; }
        ghost var l1 := lines;
        assert l1 == l0 + if Truthy(product) then ["**Product:** " + product.value] else [];
        if Truthy(image) { lines := lines + ["**Visual:** " + image.value]; }
        assert lines == l1 + if Truthy(image) then ["**Visual:** " + image.value] else [];
        AdLines(p, s);
        assert lines == Lines(Show(p, s));
      case PriceChange(_, _, product, o, n, currency) =>
        var direction := if n < o then "discount" else "price increase";
        lines := [PRICE_TITLE, "**Product:** " + product,
                  "**Original price:** " + (currency + p.fixed(o, 2)), "**New price:** " + (currency + p.fixed(n, 2)),
                  "**Change:** " + (p.fixed(AbsReal(DiscountPct(s)), 1) + "% " + direction)];
      case Promo(_, _, code, v, percent, minimum, expiry, categories) =>
        var value := if percent then p.fixed(v, 0) + "% off" else "$" + p.fixed(v, 2) + " off";
        lines := [PROMO_TITLE, "**Promo code:** " + code, "**Discount:** " + value];
        ghost var l0 := lines;
        if minimum.Some? && minimum.value != 0.0 { lines := lines + ["**Minimum purchase:** $" + p.fixed(minimum.value, 2)]; }
        ghost var l1 := lines;
        assert l1 == l0 + if minimum.Some? && minimum.value != 0.0 then ["**Minimum purchase:** $" + p.fixed(minimum.value, 2)] else [];
        if expiry.Some? && expiry.value != 0 { lines := lines + ["**Expires in:** " + (p.whole(expiry.value) + " days")]; }
        ghost var l2 := lines;
        assert l2 == l1 + if expiry.Some? && expiry.value != 0 then ["**Expires in:** " + (p.whole(expiry.value) + " days")] else [];
        if categories != [] { lines := lines + ["**Valid for:** " + CommaJoin(categories)]; }
        assert lines == l2 + if categories != [] then ["**Valid for:** " + CommaJoin(categories)] else [];
        PromoLines(p, s);
        assert lines == Lines(Show(p, s));
    }
    prompt := R.Join(lines);
    ToldApart(Show(p, s));
  }

  lemma ToldApart(shown: Shown)
    ensures OneLineEach(shown) ==> forall x: Shown :: OneLineEach(x) && Prompt(x) == Prompt(shown) ==> x == shown
  {
    forall x: Shown | OneLineEach(shown) && OneLineEach(x) && Prompt(x) == Prompt(shown) ensures x == shown {
      PromptTellsContent(x, shown);
    }
  }
}
