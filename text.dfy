/**
 * String helpers with Python's semantics: whitespace, strip, split and join,
 * decimal rendering of integers and of amounts in minor units, and the case
 * mapping that str.title() needs.
 */
module Text {

  /** Python's whitespace: the characters str.isspace() accepts, which `\s` matches in a str pattern. */
  predicate IsSpace(c: char) {
    if c <= ' ' then c == ' ' || '\t' <= c <= '\r' || '\U{1C}' <= c
    else '\U{85}' <= c && WideSpace(c)
  }

  /** The whitespace characters above U+0084. */
  predicate WideSpace(c: char) {
    || c == '\U{85}' || c == '\U{A0}' || c == '\U{1680}'
    || '\U{2000}' <= c <= '\U{200A}' || c == '\U{2028}' || c == '\U{2029}'
    || c == '\U{202F}' || c == '\U{205F}' || c == '\U{3000}'
  }

  predicate IsDigit(c: char) { '0' <= c <= '9' }

  predicate AllDigits(s: string) { forall i | 0 <= i < |s| :: IsDigit(s[i]) }

  predicate NoSpace(s: string) { forall i | 0 <= i < |s| :: !IsSpace(s[i]) }

  predicate AllSpace(s: string) { forall i | 0 <= i < |s| :: IsSpace(s[i]) }

  predicate Excludes(s: string, c: char) { forall i | 0 <= i < |s| :: s[i] != c }

  // ---------------------------------------------------------------------
  // Decimal digits

  function DigitValue(c: char): nat requires IsDigit(c) { (c as int - '0' as int) as nat }

  /** The number a string of decimal digits spells. */
  function DigitsValue(s: string): nat
    requires AllDigits(s)
  {
    if s == [] then 0 else DigitsValue(s[..|s| - 1]) * 10 + DigitValue(s[|s| - 1])
  }

  function Pow10(k: nat): nat { if k == 0 then 1 else 10 * Pow10(k - 1) }

  function DigitChar(d: nat): char requires d < 10 { ('0' as int + d) as char }

  /** str(n) for a natural number: no leading zero, "0" for zero. */
  function NatToString(n: nat): (r: string)
    ensures |r| > 0 && AllDigits(r)
  {
    if n < 10 then [DigitChar(n)] else NatToString(n / 10) + [DigitChar(n % 10)]
  }

  lemma {:induction false} NatToStringValue(n: nat)
    ensures DigitsValue(NatToString(n)) == n
  {
    if n >= 10 {
      var s := NatToString(n);
      assert s[..|s| - 1] == NatToString(n / 10);
      NatToStringValue(n / 10);
    }
  }

  /** str(n) for an integer. */
  function IntToString(n: int): string {
    if n < 0 then "-" + NatToString(-n) else NatToString(n)
  }

  /** Two decimal digits, with a leading zero when needed. */
  function Pad2(n: nat): (r: string)
    requires n < 100
    ensures |r| == 2 && AllDigits(r) && DigitsValue(r) == n
  {
    var r := [DigitChar(n / 10), DigitChar(n % 10)];
    assert r[..1] == [DigitChar(n / 10)] && r[..1][..0] == [];
    assert DigitsValue(r[..1]) == n / 10;
    r
  }

  /** Three decimal digits, with leading zeros when needed. */
  function Pad3(n: nat): (r: string)
    requires n < 1000
    ensures |r| == 3 && AllDigits(r) && DigitsValue(r) == n
  {
    var r := Pad2(n / 10) + [DigitChar(n % 10)];
    assert r[..2] == Pad2(n / 10);
    r
  }

  /**
   * f"{p / 100:.2f}" for an amount p in minor units, computed exactly:
   * the sign, the whole units, a point and two digits of minor units.
   */
  function FormatCents(p: int): string {
    var a := if p < 0 then -p else p;
    (if p < 0 then "-" else "") + NatToString(a / 100) + "." + Pad2(a % 100)
  }

  // ---------------------------------------------------------------------
  // Strip, split, join

  /** The first index at or after i that holds no whitespace, or |s|. */
  function SkipSpace(s: string, i: nat): (j: nat)
    requires i <= |s|
    ensures i <= j <= |s|
    decreases |s| - i
  {
    if i == |s| || !IsSpace(s[i]) then i else SkipSpace(s, i + 1)
  }

  lemma {:induction false} SkipSpaceSpec(s: string, i: nat)
    requires i <= |s|
    ensures var j := SkipSpace(s, i); AllSpace(s[i..j]) && (j < |s| ==> !IsSpace(s[j]))
    decreases |s| - i
  {
    if i < |s| && IsSpace(s[i]) {
      SkipSpaceSpec(s, i + 1);
      var j := SkipSpace(s, i);
      forall k | 0 <= k < j - i ensures IsSpace(s[i..j][k]) {
        if k > 0 { assert s[i..j][k] == s[i + 1..j][k - 1]; }
      }
    }
  }

  /** The end of the run of non-whitespace that starts at i (`\S*`). */
  function TokenEnd(s: string, i: nat): (j: nat)
    requires i <= |s|
    ensures i <= j <= |s|
    decreases |s| - i
  {
    if i == |s| || IsSpace(s[i]) then i else TokenEnd(s, i + 1)
  }

  lemma {:induction false} TokenEndSpec(s: string, i: nat)
    requires i <= |s|
    ensures var j := TokenEnd(s, i); NoSpace(s[i..j]) && (j < |s| ==> IsSpace(s[j]))
    decreases |s| - i
  {
    if i < |s| && !IsSpace(s[i]) {
      TokenEndSpec(s, i + 1);
      var j := TokenEnd(s, i);
      forall k | 0 <= k < j - i ensures !IsSpace(s[i..j][k]) {
        if k > 0 { assert s[i..j][k] == s[i + 1..j][k - 1]; }
      }
    }
  }

  /** SkipSpace(s, i) is the j that ends the whitespace run from i. */
  lemma SkipSpaceIs(s: string, i: nat, j: nat)
    requires i <= j <= |s| && AllSpace(s[i..j]) && (j < |s| ==> !IsSpace(s[j]))
    ensures SkipSpace(s, i) == j
  {
    var k := SkipSpace(s, i);
    SkipSpaceSpec(s, i);
    assert forall m | i <= m < j :: IsSpace(s[m]) by {
      forall m | i <= m < j ensures IsSpace(s[m]) { assert s[i..j][m - i] == s[m]; }
    }
    assert forall m | i <= m < k :: IsSpace(s[m]) by {
      forall m | i <= m < k ensures IsSpace(s[m]) { assert s[i..k][m - i] == s[m]; }
    }
  }

  /** TokenEnd(s, i) is the j that ends the non-whitespace run from i. */
  lemma TokenEndIs(s: string, i: nat, j: nat)
    requires i <= j <= |s| && NoSpace(s[i..j]) && (j < |s| ==> IsSpace(s[j]))
    ensures TokenEnd(s, i) == j
  {
    var k := TokenEnd(s, i);
    TokenEndSpec(s, i);
    assert forall m | i <= m < j :: !IsSpace(s[m]) by {
      forall m | i <= m < j ensures !IsSpace(s[m]) { assert s[i..j][m - i] == s[m]; }
    }
    assert forall m | i <= m < k :: !IsSpace(s[m]) by {
      forall m | i <= m < k ensures !IsSpace(s[m]) { assert s[i..k][m - i] == s[m]; }
    }
  }

  /** str.lstrip(): drop leading whitespace. */
  function LStrip(s: string): (r: string)
    ensures |r| <= |s| && r == s[|s| - |r|..]
    ensures AllSpace(s[..|s| - |r|])
    ensures r == [] || !IsSpace(r[0])
  {
    if s != [] && IsSpace(s[0]) then LStrip(s[1..]) else s
  }

  /** str.rstrip(): drop trailing whitespace. */
  function RStrip(s: string): (r: string)
    ensures |r| <= |s| && r == s[..|r|]
    ensures AllSpace(s[|r|..])
    ensures r == [] || !IsSpace(r[|r| - 1])
  {
    if s != [] && IsSpace(s[|s| - 1]) then RStrip(s[..|s| - 1]) else s
  }

  /** str.strip(). */
  function Strip(s: string): string { RStrip(LStrip(s)) }

  /** str.lstrip(c) for one character c: drop every leading c. */
  function LStripChar(s: string, c: char): (r: string)
    ensures |r| <= |s| && r == s[|s| - |r|..]
    ensures forall i | 0 <= i < |s| - |r| :: s[i] == c
    ensures r == [] || r[0] != c
  {
    if s != [] && s[0] == c then LStripChar(s[1..], c) else s
  }

  /** The index of the first c in s at or after i, or |s|. */
  function Find(s: string, c: char, i: nat): (k: nat)
    requires i <= |s|
    ensures i <= k <= |s|
    ensures forall j | i <= j < k :: s[j] != c
    ensures k < |s| ==> s[k] == c
    decreases |s| - i
  {
    if i == |s| || s[i] == c then i else Find(s, c, i + 1)
  }

  /** str.split(sep) for a one-character separator. */
  function Split(s: string, sep: char): (parts: seq<string>)
    ensures |parts| > 0
    ensures forall k | 0 <= k < |parts| :: Excludes(parts[k], sep)
    decreases |s|
  {
    var k := Find(s, sep, 0);
    if k == |s| then [s] else [s[..k]] + Split(s[k + 1..], sep)
  }

  /** sep.join(parts) for a one-character separator. */
  function Join(parts: seq<string>, sep: char): string {
    if parts == [] then ""
    else if |parts| == 1 then parts[0]
    else parts[0] + [sep] + Join(parts[1..], sep)
  }

  /** Splitting and joining on the same separator gives the text back. */
  lemma {:induction false} JoinSplit(s: string, sep: char)
    ensures Join(Split(s, sep), sep) == s
    decreases |s|
  {
    var k := Find(s, sep, 0);
    if k < |s| {
      JoinSplit(s[k + 1..], sep);
      var rest := Split(s[k + 1..], sep);
      assert Split(s, sep) == [s[..k]] + rest;
      assert s == s[..k] + [sep] + s[k + 1..];
    }
  }

  /** Joining parts free of the separator and splitting again gives the parts back. */
  lemma {:induction false} SplitJoin(parts: seq<string>, sep: char)
    requires |parts| > 0
    requires forall k | 0 <= k < |parts| :: Excludes(parts[k], sep)
    ensures Split(Join(parts, sep), sep) == parts
  {
    var s := Join(parts, sep);
    if |parts| == 1 {
      assert Find(s, sep, 0) == |s|;
    } else {
      var head, tail := parts[0], Join(parts[1..], sep);
      assert s == head + [sep] + tail;
      FindPast(head, sep, tail);
      assert Find(s, sep, 0) == |head|;
      assert s[..|head|] == head && s[|head| + 1..] == tail;
      SplitJoin(parts[1..], sep);
    }
  }

  lemma FindPast(head: string, sep: char, tail: string)
    requires Excludes(head, sep)
    ensures Find(head + [sep] + tail, sep, 0) == |head|
  {
    var s := head + [sep] + tail;
    assert s[|head|] == sep;
    assert forall j | 0 <= j < |head| :: s[j] == head[j];
  }

  /** The entries that are not empty, in order (a filter on truthiness). */
  function NonEmpty(parts: seq<string>): (r: seq<string>)
    ensures forall k | 0 <= k < |r| :: r[k] != []
    ensures forall x :: x in r <==> x in parts && x != []
  {
    if parts == [] then []
    else (if parts[0] != [] then [parts[0]] else []) + NonEmpty(parts[1..])
  }

  /**
   * `[x for x in s.split(",") if x]`: a comma-separated list with its empty
   * entries dropped.
   */
  function CommaList(s: string): seq<string> { NonEmpty(Split(s, ',')) }

  /** A list of non-empty, comma-free entries survives being written out and read back. */
  lemma CommaListRoundTrip(xs: seq<string>)
    requires |xs| > 0
    requires forall k | 0 <= k < |xs| :: xs[k] != [] && Excludes(xs[k], ',')
    ensures CommaList(Join(xs, ',')) == xs
  {
    SplitJoin(xs, ',');
    NonEmptyKeeps(xs);
  }

  lemma {:induction false} NonEmptyKeeps(xs: seq<string>)
    requires forall k | 0 <= k < |xs| :: xs[k] != []
    ensures NonEmpty(xs) == xs
  {
    if xs != [] { NonEmptyKeeps(xs[1..]); }
  }

  // ---------------------------------------------------------------------
  // Case mapping for str.title(): ASCII letters and the Cyrillic block that
  // Ukrainian uses (U+0400..U+045F and U+0490/U+0491).

  predicate IsUpper(c: char) {
    'A' <= c <= 'Z' || '\U{400}' <= c <= '\U{42F}' || c == '\U{490}'
  }

  predicate IsLower(c: char) {
    'a' <= c <= 'z' || '\U{430}' <= c <= '\U{45F}' || c == '\U{491}'
  }

  predicate IsCased(c: char) { IsUpper(c) || IsLower(c) }

  function ToUpper(c: char): (u: char)
    ensures IsLower(c) ==> IsUpper(u)
    ensures !IsLower(c) ==> u == c
  {
    if 'a' <= c <= 'z' then (c as int - 32) as char
    else if '\U{430}' <= c <= '\U{44F}' then (c as int - 32) as char
    else if '\U{450}' <= c <= '\U{45F}' then (c as int - 80) as char
    else if c == '\U{491}' then '\U{490}'
    else c
  }

  function ToLower(c: char): (l: char)
    ensures IsUpper(c) ==> IsLower(l)
    ensures !IsUpper(c) ==> l == c
  {
    if 'A' <= c <= 'Z' then (c as int + 32) as char
    else if '\U{410}' <= c <= '\U{42F}' then (c as int + 32) as char
    else if '\U{400}' <= c <= '\U{40F}' then (c as int + 80) as char
    else if c == '\U{490}' then '\U{491}'
    else c
  }

  /** A lower-cased character is left alone by a second lower-casing. */
  lemma ToLowerIdempotent(c: char)
    ensures ToLower(ToLower(c)) == ToLower(c)
  {
  }

  /** str.lower(), over the letters ToLower maps. */
  function Lower(s: string): (r: string)
    ensures |r| == |s| && forall i | 0 <= i < |s| :: r[i] == ToLower(s[i])
  {
    seq(|s|, i requires 0 <= i < |s| => ToLower(s[i]))
  }

  /** Lower-casing twice is lower-casing once. */
  lemma LowerIdempotent(s: string)
    ensures Lower(Lower(s)) == Lower(s)
  {
    forall i | 0 <= i < |s| ensures Lower(Lower(s))[i] == Lower(s)[i] {
      ToLowerIdempotent(s[i]);
    }
  }

  /**
   * str.title(): a cased character that follows a cased character becomes
   * lower case, any other cased character upper case; the rest is kept.
   */
  function Title(s: string): (r: string)
    ensures |r| == |s|
  {
    TitleFrom(s, false)
  }

  function TitleFrom(s: string, previousCased: bool): (r: string)
    ensures |r| == |s|
  {
    if s == [] then []
    else
      var c := s[0];
      [if previousCased then ToLower(c) else ToUpper(c)] + TitleFrom(s[1..], IsCased(c))
  }

  /** Each character of Title(s) is decided by its predecessor being cased. */
  lemma {:induction false} TitleAt(s: string, previousCased: bool, i: nat)
    requires i < |s|
    ensures var before := if i == 0 then previousCased else IsCased(s[i - 1]);
            TitleFrom(s, previousCased)[i] == if before then ToLower(s[i]) else ToUpper(s[i])
  {
    if i > 0 {
      TitleAt(s[1..], IsCased(s[0]), i - 1);
    }
  }

  /** Changing the case of a character keeps it cased or uncased. */
  lemma CaseKeepsCased(c: char)
    ensures IsCased(ToUpper(c)) == IsCased(c) && IsCased(ToLower(c)) == IsCased(c)
    ensures ToUpper(ToUpper(c)) == ToUpper(c) && ToLower(ToLower(c)) == ToLower(c)
  {
  }

  lemma {:induction false} TitleFromIdempotent(s: string, previousCased: bool)
    ensures TitleFrom(TitleFrom(s, previousCased), previousCased) == TitleFrom(s, previousCased)
  {
    if s != [] {
      var c := s[0];
      var t := TitleFrom(s, previousCased);
      CaseKeepsCased(c);
      assert t[0] == (if previousCased then ToLower(c) else ToUpper(c));
      assert t[1..] == TitleFrom(s[1..], IsCased(c));
      TitleFromIdempotent(s[1..], IsCased(c));
    }
  }

  /** A title-cased text is its own title case. */
  lemma TitleIdempotent(s: string)
    ensures Title(Title(s)) == Title(s)
  {
    TitleFromIdempotent(s, false);
  }

  /** Title() leaves whitespace where it was, so the word structure is kept. */
  lemma TitleKeepsSpaces(s: string, i: nat)
    requires i < |s|
    ensures IsSpace(Title(s)[i]) <==> IsSpace(s[i])
  {
    TitleAt(s, false, i);
  }

  /** Sequence concatenation regrouped, for proofs where the solver would search for it. */
  lemma AppendAssoc<T>(a: seq<T>, b: seq<T>, c: seq<T>)
    ensures a + b + c == a + (b + c)
  {
  }

  lemma JoinTwo(a: string, b: string)
    ensures Join([a, b], ' ') == a + " " + b
  {
    assert [a, b][1..] == [b];
  }

  lemma JoinThree(a: string, b: string, c: string)
    ensures Join([a, b, c], ' ') == a + " " + b + " " + c
  {
    assert [a, b, c][1..] == [b, c];
    JoinTwo(b, c);
    AppendAssoc(a + " ", b + " ", c);
    AppendAssoc(a + " ", b, " ");
    AppendAssoc(a + " " + b, " ", c);
  }

  /** Appending the parts of a text one by one gives the same as appending it whole. */
  lemma AppendTwo(x: string, a: string, b: string)
    ensures x + (a + " " + b) + "" == x + a + " " + b
  {
    AppendAssoc(x, a + " ", b);
    AppendAssoc(x, a, " ");
  }

  lemma AppendThree(x: string, a: string, b: string, c: string)
    ensures x + (a + " " + b + " " + c) + "" == x + a + " " + b + " " + c
  {
    AppendAssoc(x, a + " " + b + " ", c);
    AppendAssoc(x, a + " " + b, " ");
    AppendTwo(x, a, b);
  }

}
