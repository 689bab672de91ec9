/**
 * The cashier's free-text order: one good per line, written
 * "name price грн [quantity]". The whole message is accepted only when
 * every line is a good; prices become kopiykas (×100) and quantities
 * thousandths (×1000).
 */
module GoodsParser {
  import opened Wrappers
  import opened Text

  const Unit: string := "грн"

  /** One parsed good: name, price ×100, quantity ×1000 and the receipt code. */
  datatype Item = Item(name: string, price: nat, quantity: nat, code: string)

  // ---------------------------------------------------------------------
  // Numbers: `\d+(?:[.,]\d{0,k})?`

  /** The index of the first '.' or ',' in tok, or |tok|. */
  function PointAt(tok: string): (d: nat)
    ensures d <= |tok|
    ensures forall i | 0 <= i < d :: tok[i] != '.' && tok[i] != ','
    ensures d < |tok| ==> tok[d] == '.' || tok[d] == ','
  {
    if tok == [] || tok[0] == '.' || tok[0] == ',' then 0 else 1 + PointAt(tok[1..])
  }

  /** tok is, in full, digits with an optional '.' or ',' and at most k more digits. */
  predicate IsNumber(tok: string, k: nat) {
    var d := PointAt(tok);
    0 < d && AllDigits(tok[..d]) && (d == |tok| || (AllDigits(tok[d + 1..]) && |tok| - d - 1 <= k))
  }

  /** The number tok spells, times 10^k, computed exactly. */
  function Scaled(tok: string, k: nat): nat
    requires IsNumber(tok, k)
  {
    var d := PointAt(tok);
    DigitsValue(tok[..d]) * Pow10(k)
      + (if d == |tok| then 0 else DigitsValue(tok[d + 1..]) * Pow10(k - (|tok| - d - 1)))
  }

  /** A quantity in thousandths, written with three decimals. */
  function FormatMilli(q: nat): string {
    NatToString(q / 1000) + "." + Pad3(q % 1000)
  }

  lemma PointAtDigits(w: string, rest: string)
    requires AllDigits(w) && rest != [] && (rest[0] == '.' || rest[0] == ',')
    ensures PointAt(w + rest) == |w|
  {
    var t := w + rest;
    var d := PointAt(t);
    assert t[|w|] == rest[0];
    assert forall j | 0 <= j < |w| :: t[j] == w[j] && IsDigit(t[j]);
  }

  /**
   * Digits, a point or a comma, and at most k digits: both separators read
   * alike, as whole units times 10^k plus the fraction scaled to k places.
   */
  lemma PointOrComma(w: string, f: string, k: nat)
    requires w != [] && AllDigits(w) && AllDigits(f) && |f| <= k
    ensures IsNumber(w + "." + f, k) && IsNumber(w + "," + f, k)
    ensures Scaled(w + "." + f, k) == Scaled(w + "," + f, k)
            == DigitsValue(w) * Pow10(k) + DigitsValue(f) * Pow10(k - |f|)
  {
    assert w + "." + f == w + ("." + f);
    assert w + "," + f == w + ("," + f);
    SeparatedNumber(w, '.', f, k);
    SeparatedNumber(w, ',', f, k);
  }

  lemma SeparatedNumber(w: string, c: char, f: string, k: nat)
    requires w != [] && AllDigits(w) && AllDigits(f) && |f| <= k && (c == '.' || c == ',')
    ensures IsNumber(w + ([c] + f), k)
    ensures Scaled(w + ([c] + f), k) == DigitsValue(w) * Pow10(k) + DigitsValue(f) * Pow10(k - |f|)
  {
    var t := w + ([c] + f);
    PointAtDigits(w, [c] + f);
    assert t[..|w|] == w && t[|w| + 1..] == f;
  }

  /** A price printed with two decimals reads back as the same number of kopiykas. */
  lemma ScaledCents(p: nat)
    ensures IsNumber(FormatCents(p), 2) && Scaled(FormatCents(p), 2) == p
    ensures NoSpace(FormatCents(p)) && IsDigit(FormatCents(p)[0])
  {
    var w := NatToString(p / 100);
    var f := FormatCents(p);
    assert f == w + ("." + Pad2(p % 100));
    PointAtDigits(w, "." + Pad2(p % 100));
    assert f[..|w|] == w && f[|w| + 1..] == Pad2(p % 100);
    NatToStringValue(p / 100);
    assert Pow10(2) == 100 && Pow10(0) == 1;
    assert f[0] == w[0];
    forall i | 0 <= i < |f| ensures !IsSpace(f[i]) {
      if i < |w| { assert f[i] == w[i]; }
      else if i > |w| { assert f[i] == Pad2(p % 100)[i - |w| - 1]; }
    }
  }

  /** A quantity printed with three decimals reads back as the same number of thousandths. */
  lemma ScaledMilli(q: nat)
    ensures IsNumber(FormatMilli(q), 3) && Scaled(FormatMilli(q), 3) == q
    ensures NoSpace(FormatMilli(q)) && |FormatMilli(q)| > 0
  {
    var w := NatToString(q / 1000);
    var f := FormatMilli(q);
    assert f == w + ("." + Pad3(q % 1000));
    PointAtDigits(w, "." + Pad3(q % 1000));
    assert f[..|w|] == w && f[|w| + 1..] == Pad3(q % 1000);
    NatToStringValue(q / 1000);
    assert Pow10(3) == 1000 && Pow10(0) == 1;
    forall i | 0 <= i < |f| ensures !IsSpace(f[i]) {
      if i < |w| { assert f[i] == w[i]; }
      else if i > |w| { assert f[i] == Pad3(q % 1000)[i - |w| - 1]; }
    }
  }

  // ---------------------------------------------------------------------
  // One line: `^\s*(.+?)\s+(PRICE)\s+грн(?:\s+(QTY))?\s*$`

  /** "грн" starts at index c of t. */
  predicate UnitAt(t: string, c: nat) {
    c + 3 <= |t| && t[c..c + 3] == Unit
  }

  /**
   * The part of the pattern after the name, matched against t[e..]: it
   * yields the price token and the quantity token ("" when absent).
   */
  function Tail(t: string, e: nat): (r: Option<(string, string)>)
    requires e <= |t|
    ensures r.Some? ==> IsNumber(r.value.0, 2) && (r.value.1 == [] || IsNumber(r.value.1, 3))
  {
    var a := SkipSpace(t, e);
    var b := TokenEnd(t, a);
    if a == e || b == |t| || !IsNumber(t[a..b], 2) then None
    else match AfterPrice(t, b)
      case None => None
      case Some(qty) => Some((t[a..b], qty))
  }

  /** `\s+грн(?:\s+(QTY))?\s*$` against t[b..]: the quantity token, or "". */
  function AfterPrice(t: string, b: nat): (r: Option<string>)
    requires b <= |t|
    ensures r.Some? ==> r.value == [] || IsNumber(r.value, 3)
  {
    var c := SkipSpace(t, b);
    if c == b || !UnitAt(t, c) then None else Quantity(t, c + 3)
  }

  /** `(?:\s+(QTY))?\s*$` against t[r..]: the quantity token, or "". */
  function Quantity(t: string, r: nat): (res: Option<string>)
    requires r <= |t|
    ensures res.Some? ==> res.value == [] || IsNumber(res.value, 3)
  {
    if AllSpace(t[r..]) then Some("")
    else
      var q0 := SkipSpace(t, r);
      var q1 := TokenEnd(t, q0);
      if q0 == r || !IsNumber(t[q0..q1], 3) || !AllSpace(t[q1..]) then None
      else Some(t[q0..q1])
  }

  /** The tail fits after a name that ends at e. */
  predicate Fits(t: string, e: nat) {
    e <= |t| && Tail(t, e).Some?
  }

  /** No name that starts at s fits: every end after s fails the tail. */
  predicate NoEnd(t: string, s: nat) {
    forall e | s < e <= |t| :: !Fits(t, e)
  }

  /** `.+?`: the first name end at or after e where the tail fits. */
  function FirstEnd(t: string, e: nat): (r: Option<nat>)
    requires e <= |t| + 1
    ensures r.Some? ==> e <= r.value <= |t|
    decreases |t| + 1 - e
  {
    if e > |t| then None
    else if Fits(t, e) then Some(e)
    else FirstEnd(t, e + 1)
  }

  /**
   * `^\s*` backtracking one character at a time from the longest run of
   * leading whitespace: the start and end of the name that matches.
   */
  function TryStarts(t: string, s: nat): (r: Option<(nat, nat)>)
    requires s <= |t|
    ensures r.Some? ==> r.value.0 <= s && r.value.0 < r.value.1 <= |t|
    decreases s
  {
    match FirstEnd(t, s + 1)
    case Some(e) => Some((s, e))
    case None => if s == 0 then None else TryStarts(t, s - 1)
  }

  /** Where the name of a matching line starts and ends. */
  function NameSpan(t: string): (r: Option<(nat, nat)>)
    ensures r.Some? ==> r.value.0 < r.value.1 <= |t|
  {
    TryStarts(t, SkipSpace(t, 0))
  }

  function MakeItem(name: string, price: string, qty: string): Item
    requires IsNumber(price, 2) && (qty == [] || IsNumber(qty, 3))
  {
    var p := Scaled(price, 2);
    Item(name, p, if qty == [] then 1000 else Scaled(qty, 3), name + " " + FormatCents(p))
  }

  /** The good one line describes, if it matches the pattern. */
  function ParseLine(t: string): (r: Option<Item>)
    ensures r.Some? ==> r.value.code == r.value.name + " " + FormatCents(r.value.price)
  {
    match NameSpan(t)
    case None => None
    case Some((s, e)) =>
      match Tail(t, e)
      case None => None
      case Some((price, qty)) => Some(MakeItem(t[s..e], price, qty))
  }

  /** No end from lo up to, but not including, hi fits. */
  predicate NoFitBetween(t: string, lo: nat, hi: nat) {
    forall e' | lo <= e' < hi :: !Fits(t, e')
  }

  lemma NoFitExtend(t: string, e: nat, hi: nat)
    requires e < hi && !Fits(t, e) && NoFitBetween(t, e + 1, hi)
    ensures NoFitBetween(t, e, hi)
  {
    forall e' | e <= e' < hi ensures !Fits(t, e') {
      if e' > e { assert e + 1 <= e' < hi; }
    }
  }

  /** FirstEnd finds the least end at or after e where the tail fits. */
  lemma {:induction false} FirstEndIsFirst(t: string, e: nat)
    requires e <= |t| + 1
    ensures var r := FirstEnd(t, e);
            && (r.Some? ==> Fits(t, r.value) && NoFitBetween(t, e, r.value))
            && (r.None? ==> NoFitBetween(t, e, |t| + 1))
    decreases |t| + 1 - e
  {
    if e <= |t| && !Fits(t, e) {
      FirstEndIsFirst(t, e + 1);
      var r := FirstEnd(t, e + 1);
      assert FirstEnd(t, e) == r;
      NoFitExtend(t, e, if r.Some? then r.value else |t| + 1);
    }
  }

  /**
   * TryStarts finds the longest run of leading whitespace (at most s) that
   * leaves a name, and the shortest name after it.
   */
  lemma {:induction false} TryStartsIsLeftmost(t: string, s: nat)
    requires s <= |t|
    ensures var r := TryStarts(t, s);
            && (r.Some? ==> var (s0, e) := r.value;
                  && Fits(t, e)
                  && (forall e' | s0 < e' < e :: !Fits(t, e'))
                  && (forall s' | s0 < s' <= s :: NoEnd(t, s')))
            && (r.None? ==> forall s' | 0 <= s' <= s :: NoEnd(t, s'))
    decreases s
  {
    FirstEndIsFirst(t, s + 1);
    if FirstEnd(t, s + 1).None? && s > 0 {
      TryStartsIsLeftmost(t, s - 1);
    }
  }

  /**
   * The regex semantics of one line: the name starts after leading
   * whitespace (all of it, unless no name then fits), it is the shortest
   * name after which the rest of the pattern matches, and a line matches
   * at all only if some such name exists.
   */
  lemma NameSpanIsLeftmostShortest(t: string)
    ensures var r := NameSpan(t);
            && (r.Some? ==> var (s, e) := r.value;
                  && s <= SkipSpace(t, 0) && AllSpace(t[..s]) && Fits(t, e)
                  && (forall e' | s < e' < e :: !Fits(t, e'))
                  && (forall s' | s < s' <= SkipSpace(t, 0) :: NoEnd(t, s')))
            && (r.None? ==> forall s' | 0 <= s' <= SkipSpace(t, 0) :: NoEnd(t, s'))
  {
    TryStartsIsLeftmost(t, SkipSpace(t, 0));
    SkipSpaceSpec(t, 0);
    var r := NameSpan(t);
    if r.Some? {
      assert t[..r.value.0] == t[0..SkipSpace(t, 0)][..r.value.0];
    }
  }

  /** A line matches exactly when some name end fits, and then it gives that good. */
  lemma ParseLineMatches(t: string)
    ensures ParseLine(t).Some? <==> exists e | 0 < e <= |t| :: Fits(t, e)
    ensures ParseLine(t).Some? <==> NameSpan(t).Some?
    ensures NameSpan(t).Some? ==> Fits(t, NameSpan(t).value.1)
    ensures NameSpan(t).Some? ==> var (s, e) := NameSpan(t).value;
              ParseLine(t) == Some(MakeItem(t[s..e], Tail(t, e).value.0, Tail(t, e).value.1))
  {
    NameSpanIsLeftmostShortest(t);
    if ParseLine(t).None? {
      assert NameSpan(t).None?;
      forall e | 0 < e <= |t| ensures !Fits(t, e) {
        assert NoEnd(t, 0);
      }
    }
  }

  // ---------------------------------------------------------------------
  // The whole message

  predicate IsLineBreak(c: char) {
    c == '\n' || c == '\r' || c == '\U{0B}' || c == '\U{0C}' || '\U{1C}' <= c <= '\U{1E}'
    || c == '\U{85}' || c == '\U{2028}' || c == '\U{2029}'
  }

  /** The index of the first line break at or after i, or |s|. */
  function BreakAt(s: string, i: nat): (k: nat)
    requires i <= |s|
    ensures i <= k <= |s| && (k < |s| ==> IsLineBreak(s[k]))
    ensures forall j | i <= j < k :: !IsLineBreak(s[j])
    decreases |s| - i
  {
    if i == |s| || IsLineBreak(s[i]) then i else BreakAt(s, i + 1)
  }

  /** str.splitlines(): "\r\n" is one break, and a final break opens no line. */
  function SplitLines(s: string): seq<string>
    decreases |s|
  {
    var k := BreakAt(s, 0);
    if k == |s| then (if s == [] then [] else [s])
    else
      var w := if s[k] == '\r' && k + 1 < |s| && s[k + 1] == '\n' then 2 else 1;
      [s[..k]] + SplitLines(s[k + w..])
  }

  /**
   * The lines that `^` and `$` see under re.MULTILINE: the text between
   * '\n' characters, the empty piece after a final '\n' not counted.
   */
  function Lines(text: string): seq<string> {
    var parts := Split(text, '\n');
    if parts[|parts| - 1] == [] then parts[..|parts| - 1] else parts
  }

  /** All lines parsed, or None as soon as one does not match. */
  function ParseAll(lines: seq<string>): (r: Option<seq<Item>>)
    ensures r.Some? <==> forall i | 0 <= i < |lines| :: ParseLine(lines[i]).Some?
    ensures r.Some? ==> |r.value| == |lines|
                        && forall i | 0 <= i < |lines| :: ParseLine(lines[i]) == Some(r.value[i])
  {
    var xs := seq(|lines|, i requires 0 <= i < |lines| => ParseLine(lines[i]));
    assert forall i | 0 <= i < |lines| :: xs[i] == ParseLine(lines[i]);
    AllSome(xs)
  }

  /** The values of xs when none is missing. */
  function AllSome<T>(xs: seq<Option<T>>): (r: Option<seq<T>>)
    ensures r.Some? <==> forall i | 0 <= i < |xs| :: xs[i].Some?
    ensures r.Some? ==> |r.value| == |xs| && forall i | 0 <= i < |xs| :: xs[i] == Some(r.value[i])
  {
    if xs == [] then Some([])
    else match (xs[0], AllSome(xs[1..]))
      case (Some(g), Some(gs)) => Some([g] + gs)
      case _ => None
  }

  /**
   * text_to_goods: None unless str.splitlines() counts as many lines as the
   * pattern matches, which holds exactly when every line matches on its own
   * and the text has no line break other than '\n' (a "\r\n" counts as one).
   */
  function TextToGoods(text: string): (r: Option<seq<Item>>)
    ensures r.Some? <==> |SplitLines(text)| == |Lines(text)|
                         && forall i | 0 <= i < |Lines(text)| :: ParseLine(Lines(text)[i]).Some?
    ensures r.Some? ==> |r.value| == |Lines(text)|
                        && forall i | 0 <= i < |r.value| :: ParseLine(Lines(text)[i]) == Some(r.value[i])
  {
    if |SplitLines(text)| != |Lines(text)| then None else ParseAll(Lines(text))
  }


  lemma EmptyText()
    ensures TextToGoods("") == Some([])
  {
    assert Split("", '\n') == [""];
  }

  // ---------------------------------------------------------------------
  // Reading back what the bot writes

  /** A good written as a line: name, price with two decimals, "грн", and the quantity if given. */
  function FormatLine(name: string, p: nat, q: Option<nat>): string {
    name + " " + FormatCents(p) + " " + Unit + QuantityText(q)
  }

  /** The quantity part of a written line: a space and three decimals, or nothing. */
  function QuantityText(q: Option<nat>): string {
    if q.Some? then " " + FormatMilli(q.value) else ""
  }

  /** The good that line should give. */
  function Expected(name: string, p: nat, q: Option<nat>): Item {
    Item(name, p, if q.Some? then q.value else 1000, name + " " + FormatCents(p))
  }

  predicate NoUnit(s: string) {
    forall i | 0 <= i < |s| :: !UnitAt(s, i)
  }

  /**
   * A name the pattern gives back unchanged: not empty, no whitespace at
   * either end, and no "грн" inside (which could end the name early).
   */
  predicate PlainName(name: string) {
    name != [] && !IsSpace(name[0]) && !IsSpace(name[|name| - 1]) && NoUnit(name)
  }

  /** t holds, from position n, ' ', f, ' ', "грн" and then qs to the end. */
  predicate LaidOut(t: string, n: nat, f: string, qs: string) {
    var m := n + 1 + |f|;
    |t| == m + 4 + |qs| && t[n] == ' ' && t[n + 1..m] == f
    && t[m] == ' ' && t[m + 1..m + 4] == Unit && t[m + 4..] == qs
  }

  /** Where the pieces of FormatLine sit. */
  lemma Layout(name: string, p: nat, q: Option<nat>)
    ensures var t := FormatLine(name, p, q);
            t[..|name|] == name && LaidOut(t, |name|, FormatCents(p), QuantityText(q))
  {
    Pieces(name, FormatCents(p), QuantityText(q));
  }

  lemma Pieces(name: string, f: string, qs: string)
    ensures var t := name + " " + f + " " + Unit + qs;
            t[..|name|] == name && LaidOut(t, |name|, f, qs)
  {
    var t := name + " " + f + " " + Unit + qs;
    var n := |name|;
    var m := n + 1 + |f|;
    assert t == name + ([' '] + (f + ([' '] + (Unit + qs))));
    assert t[n + 1..] == f + ([' '] + (Unit + qs));
    assert t[m..] == [' '] + (Unit + qs);
  }

  /** A written quantity, one space and a token, reads back as that token. */
  lemma QuantityToken(t: string, r: nat, g: string)
    requires r <= |t| && t[r..] == [' '] + g && g != [] && NoSpace(g) && IsNumber(g, 3)
    ensures Quantity(t, r) == Some(g)
  {
    assert t[r + 1] == t[r..][1] == g[0];
    assert !IsSpace(t[r..][1]);
    assert t[r] == ' ' && t[r..r + 1] == [' '];
    assert t[|t|..] == [];
    SkipSpaceIs(t, r, r + 1);
    assert t[r + 1..] == g;
    TokenEndIs(t, r + 1, |t|);
    assert !AllSpace(t[r..]);
    assert t[r + 1..|t|] == g;
    assert AllSpace(t[|t|..]);
  }

  /**
   * After the name of a line laid out as name, ' ', f, ' ', "грн", rest,
   * the tail reads f as the price and what Quantity reads from rest.
   */
  lemma TailAt(t: string, n: nat, m: nat, f: string, g: string)
    requires m == n + 1 + |f| && m + 4 <= |t| && f != [] && NoSpace(f) && IsNumber(f, 2)
    requires t[n] == ' ' && t[n + 1..m] == f && t[m] == ' ' && t[m + 1..m + 4] == Unit
    requires Quantity(t, m + 4) == Some(g)
    ensures Tail(t, n) == Some((f, g))
  {
    PriceAt(t, n, m, f);
    UnitAfter(t, m);
    TailIs(t, n, n + 1, m);
  }

  /** One space and then the price token f, ending at m. */
  lemma PriceAt(t: string, n: nat, m: nat, f: string)
    requires m == n + 1 + |f| && m < |t| && f != [] && NoSpace(f)
    requires t[n] == ' ' && t[n + 1..m] == f && t[m] == ' '
    ensures SkipSpace(t, n) == n + 1 && TokenEnd(t, n + 1) == m
  {
    assert t[n + 1] == t[n + 1..m][0];
    assert t[n..n + 1] == [' '];
    SkipSpaceIs(t, n, n + 1);
    TokenEndIs(t, n + 1, m);
  }

  /** One space and then the unit: the quantity is read after it. */
  lemma UnitAfter(t: string, m: nat)
    requires m + 4 <= |t| && t[m] == ' ' && t[m + 1..m + 4] == Unit
    ensures AfterPrice(t, m) == Quantity(t, m + 4)
  {
    assert t[m..m + 1] == [' '] && t[m + 1] == Unit[0];
    SkipSpaceIs(t, m, m + 1);
    assert UnitAt(t, m + 1);
  }

  /** Tail, once the whitespace and the price token after the name are located. */
  lemma TailIs(t: string, e: nat, a: nat, b: nat)
    requires e < a <= b < |t| && SkipSpace(t, e) == a && TokenEnd(t, a) == b
    requires IsNumber(t[a..b], 2) && AfterPrice(t, b).Some?
    ensures Tail(t, e) == Some((t[a..b], AfterPrice(t, b).value))
  {
  }

  /** Nothing after the unit: no quantity. */
  lemma QuantityAtEnd(t: string, r: nat)
    requires r == |t|
    ensures Quantity(t, r) == Some("")
  {
    assert t[|t|..] == [];
  }

  /** After the whole name the tail fits, with the printed price and quantity. */
  lemma TailAfterName(name: string, p: nat, q: Option<nat>)
    ensures Tail(FormatLine(name, p, q), |name|)
            == Some((FormatCents(p), if q.Some? then FormatMilli(q.value) else ""))
  {
    Layout(name, p, q);
    ScaledCents(p);
    if q.Some? {
      ScaledMilli(q.value);
      TailWithQuantity(FormatLine(name, p, q), |name|, FormatCents(p), FormatMilli(q.value));
    } else {
      TailWithoutQuantity(FormatLine(name, p, q), |name|, FormatCents(p));
    }
  }

  lemma TailWithQuantity(t: string, n: nat, f: string, g: string)
    requires f != [] && NoSpace(f) && IsNumber(f, 2) && g != [] && NoSpace(g) && IsNumber(g, 3)
    requires LaidOut(t, n, f, " " + g)
    ensures Tail(t, n) == Some((f, g))
  {
    var m := n + 1 + |f|;
    QuantityToken(t, m + 4, g);
    TailAt(t, n, m, f, g);
  }

  lemma TailWithoutQuantity(t: string, n: nat, f: string)
    requires f != [] && NoSpace(f) && IsNumber(f, 2)
    requires LaidOut(t, n, f, "")
    ensures Tail(t, n) == Some((f, ""))
  {
    var m := n + 1 + |f|;
    QuantityAtEnd(t, m + 4);
    TailAt(t, n, m, f, "");
  }

  /** No shorter name fits: the first "грн" of the line is the one after the price. */
  lemma NoEarlierFit(name: string, p: nat, q: Option<nat>, e: nat)
    requires PlainName(name) && 0 < e < |name|
    ensures !Fits(FormatLine(name, p, q), e)
  {
    Layout(name, p, q);
    ScaledCents(p);
    var t := FormatLine(name, p, q);
    assert t[|name| + 1] == t[|name| + 1..|name| + 1 + |FormatCents(p)|][0];
    NoFitInside(t, name, FormatCents(p), e);
  }

  lemma NoFitInside(t: string, name: string, f: string, e: nat)
    requires PlainName(name) && 0 < e < |name| && f != [] && IsDigit(f[0])
    requires |name| + 1 < |t| && t[..|name|] == name && t[|name|] == ' ' && t[|name| + 1] == f[0]
    ensures !Fits(t, e)
  {
    var n := |name|;
    var a := SkipSpace(t, e);
    SkipSpaceSpec(t, e);
    if a != e {
      assert forall j | e <= j < a :: IsSpace(t[j]) by {
        forall j | e <= j < a ensures IsSpace(t[j]) { assert t[e..a][j - e] == t[j]; }
      }
      assert t[n - 1] == t[..n][n - 1] == name[n - 1];
      assert a < n;
      var b := TokenEnd(t, a);
      TokenEndSpec(t, a);
      assert forall j | a <= j < b :: !IsSpace(t[j]) by {
        forall j | a <= j < b ensures !IsSpace(t[j]) { assert t[a..b][j - a] == t[j]; }
      }
      assert b <= n;
      NoUnitAfter(t, name, f, b);
    }
  }

  /** In a written line, no "грн" follows the whitespace after a point inside the name. */
  lemma NoUnitAfter(t: string, name: string, f: string, b: nat)
    requires NoUnit(name) && f != [] && IsDigit(f[0])
    requires |name| + 1 < |t| && t[..|name|] == name && t[|name|] == ' ' && t[|name| + 1] == f[0]
    requires b <= |name|
    ensures AfterPrice(t, b).None?
  {
    var n := |name|;
    var c := SkipSpace(t, b);
    SkipSpaceSpec(t, b);
    assert forall j | b <= j < c :: IsSpace(t[j]) by {
      forall j | b <= j < c ensures IsSpace(t[j]) { assert t[b..c][j - b] == t[j]; }
    }
    assert c <= n + 1;
    if c + 3 <= n {
      assert name[c..c + 3] == t[..n][c..c + 3];
      assert !UnitAt(name, c);
    } else if c <= n && c + 3 <= |t| {
      assert t[c..c + 3][n - c] == t[n];
    } else if c + 3 <= |t| {
      assert t[c..c + 3][0] == t[c];
    }
  }

  /** A plainly named good, written as the bot writes it, reads back as that good. */
  lemma ParseFormatted(name: string, p: nat, q: Option<nat>)
    requires PlainName(name)
    ensures ParseLine(FormatLine(name, p, q)) == Some(Expected(name, p, q))
  {
    var t, n := FormatLine(name, p, q), |name|;
    Layout(name, p, q);
    TailAfterName(name, p, q);
    ScaledCents(p);
    if q.Some? { ScaledMilli(q.value); }
    assert t[0] == t[..n][0];
    forall e | 0 < e < n ensures !Fits(t, e) { NoEarlierFit(name, p, q, e); }
    SpanAtStart(t, n);
  }

  /**
   * A line that starts with no whitespace, whose tail first fits after n
   * characters, has the first n characters for its name.
   */
  lemma SpanAtStart(t: string, n: nat)
    requires 0 < n <= |t| && !IsSpace(t[0]) && Fits(t, n)
    requires forall e | 0 < e < n :: !Fits(t, e)
    ensures NameSpan(t) == Some((0, n))
  {
    assert t[0..0] == [];
    SkipSpaceIs(t, 0, 0);
    NameSpanIsLeftmostShortest(t);
    var r := NameSpan(t);
    assert NoEnd(t, 0) ==> !Fits(t, n);
    assert r.Some? ==> r.value.0 == 0;
  }

  /** Lines free of line breaks, joined by '\n', are what splitlines() gives back. */
  lemma {:induction false} SplitLinesJoin(ls: seq<string>)
    requires |ls| > 0
    requires forall k | 0 <= k < |ls| :: ls[k] != [] && forall j | 0 <= j < |ls[k]| :: !IsLineBreak(ls[k][j])
    ensures SplitLines(Join(ls, '\n')) == ls
  {
    var s := Join(ls, '\n');
    var h := ls[0];
    if |ls| == 1 {
      assert forall j | 0 <= j < |s| :: !IsLineBreak(s[j]);
      assert BreakAt(s, 0) == |s|;
    } else {
      var rest := Join(ls[1..], '\n');
      assert s == h + ['\n'] + rest;
      assert forall j | 0 <= j < |h| :: s[j] == h[j];
      assert s[|h|] == '\n';
      BreakAtIs(s, 0, |h|);
      assert s[..|h|] == h && s[|h| + 1..] == rest;
      SplitLinesJoin(ls[1..]);
    }
  }

  lemma BreakAtIs(s: string, i: nat, j: nat)
    requires i <= j <= |s| && (forall m | i <= m < j :: !IsLineBreak(s[m])) && (j < |s| ==> IsLineBreak(s[j]))
    ensures BreakAt(s, i) == j
  {
  }

  predicate OneLine(s: string) {
    forall j | 0 <= j < |s| :: !IsLineBreak(s[j])
  }

  lemma FormatLineOneLine(name: string, p: nat, q: Option<nat>)
    requires OneLine(name)
    ensures OneLine(FormatLine(name, p, q)) && Excludes(FormatLine(name, p, q), '\n')
    ensures FormatLine(name, p, q) != []
  {
    var f := FormatCents(p);
    var qs := QuantityText(q);
    ScaledCents(p);
    NoSpaceOneLine(f);
    if q.Some? {
      ScaledMilli(q.value);
      NoSpaceOneLine(FormatMilli(q.value));
      OneLineConcat(" ", FormatMilli(q.value));
    }
    OneLineConcat(name, " ");
    OneLineConcat(name + " ", f);
    OneLineConcat(name + " " + f, " ");
    OneLineConcat(name + " " + f + " ", Unit);
    OneLineConcat(name + " " + f + " " + Unit, qs);
    var t := FormatLine(name, p, q);
    assert |t| > 0;
    forall j | 0 <= j < |t| ensures t[j] != '\n' {
      assert !IsLineBreak(t[j]);
    }
  }

  lemma OneLineConcat(a: string, b: string)
    requires OneLine(a) && OneLine(b)
    ensures OneLine(a + b)
  {
    forall j | 0 <= j < |a + b| ensures !IsLineBreak((a + b)[j]) {
      if j < |a| { assert (a + b)[j] == a[j]; } else { assert (a + b)[j] == b[j - |a|]; }
    }
  }

  /** Every line break is whitespace. */
  lemma NoSpaceOneLine(s: string)
    requires NoSpace(s)
    ensures OneLine(s)
  {
    forall j | 0 <= j < |s| ensures !IsLineBreak(s[j]) {
      assert !IsSpace(s[j]);
    }
  }

  /** The text of a whole order: one written line per good. */
  function FormatOrder(goods: seq<(string, nat, Option<nat>)>): string {
    Join(seq(|goods|, k requires 0 <= k < |goods| => FormatLine(goods[k].0, goods[k].1, goods[k].2)), '\n')
  }

  /** Lines without '\n', joined by '\n', are the lines that the pattern sees. */
  lemma LinesOfJoin(ls: seq<string>)
    requires |ls| > 0 && forall k | 0 <= k < |ls| :: ls[k] != [] && Excludes(ls[k], '\n')
    ensures Lines(Join(ls, '\n')) == ls
  {
    SplitJoin(ls, '\n');
  }

  lemma ParseAllLines(ls: seq<string>, items: seq<Item>)
    requires |items| == |ls|
    requires forall k | 0 <= k < |ls| :: ParseLine(ls[k]) == Some(items[k])
    ensures ParseAll(ls) == Some(items)
  {
    var r := ParseAll(ls);
    assert forall k | 0 <= k < |ls| :: ParseLine(ls[k]).Some?;
    assert r.Some?;
    assert forall k | 0 <= k < |ls| :: Some(r.value[k]) == ParseLine(ls[k]) == Some(items[k]);
    assert r.value == items;
  }

  /** Lines that each parse, joined by '\n', give their goods in order. */
  lemma TextOfLines(ls: seq<string>, items: seq<Item>)
    requires |ls| > 0 && |items| == |ls|
    requires forall k | 0 <= k < |ls| :: ls[k] != [] && Excludes(ls[k], '\n') && OneLine(ls[k])
    requires forall k | 0 <= k < |ls| :: ParseLine(ls[k]) == Some(items[k])
    ensures TextToGoods(Join(ls, '\n')) == Some(items)
  {
    SplitLinesJoin(ls);
    LinesOfJoin(ls);
    ParseAllLines(ls, items);
  }

  /**
   * An order of plainly named goods, written one per line, is read back as
   * exactly those goods, in order.
   */
  lemma OrderRoundTrip(goods: seq<(string, nat, Option<nat>)>)
    requires |goods| > 0
    requires forall k | 0 <= k < |goods| :: PlainName(goods[k].0) && OneLine(goods[k].0)
    ensures TextToGoods(FormatOrder(goods)) ==
            Some(seq(|goods|, k requires 0 <= k < |goods| => Expected(goods[k].0, goods[k].1, goods[k].2)))
  {
    var ls := seq(|goods|, k requires 0 <= k < |goods| => FormatLine(goods[k].0, goods[k].1, goods[k].2));
    var items := seq(|goods|, k requires 0 <= k < |goods| => Expected(goods[k].0, goods[k].1, goods[k].2));
    forall k | 0 <= k < |ls|
      ensures ls[k] != [] && OneLine(ls[k]) && Excludes(ls[k], '\n') && ParseLine(ls[k]) == Some(items[k])
    {
      FormatLineOneLine(goods[k].0, goods[k].1, goods[k].2);
      ParseFormatted(goods[k].0, goods[k].1, goods[k].2);
    }
    TextOfLines(ls, items);
  }

}
