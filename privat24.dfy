/**
 * PrivatBank business statements: the sender extracted from a payment's
 * narrative, the normalisation of a statement record into a transaction,
 * which transactions deserve a receipt, and the followId pagination of the
 * statement API.
 */
module Privat24 {
  import opened Wrappers
  import opened Text
  import opened OrderedDict
  import opened Json
  import opened SenderPattern
  import opened Transactions

  // ---------------------------------------------------------------------
  // sender_pat: ^.+(?:,\s*|Переказ(?:и:)?\s+вiд\s+|Вiд\s+)(\S+\s+\S+(?:\s+\S+)?)\s*$
  // (the "i" of "вiд" and "Вiд" is the Latin letter)

  /** Where a separator may begin: a comma, "Переказ" or "Вiд". */
  predicate SepStart(s: string, p: nat) {
    (p < |s| && s[p] == ',') || HasAt(s, p, "Переказ") || HasAt(s, p, "Вiд")
  }

  /** The separator alternatives tried at p; the result is where the group starts. */
  function SepEnd(s: string, p: nat): (q: Option<nat>)
    ensures q.Some? ==> p < q.value <= |s|
  {
    if p >= |s| then None
    else if s[p] == ',' then Some(SkipSpace(s, p + 1))
    else if HasAt(s, p, "Переказ") then
      var r := if HasAt(s, p + 7, "и:") then p + 9 else p + 7;
      var a := SkipSpace(s, r);
      if a == r || !HasAt(s, a, "вiд") then None
      else
        var b := SkipSpace(s, a + 3);
        if b == a + 3 then None else Some(b)
    else if HasAt(s, p, "Вiд") then
      var b := SkipSpace(s, p + 3);
      if b == p + 3 then None else Some(b)
    else None
  }

  /** A separator is recognised only where one may begin. */
  lemma SepEndStart(s: string, p: nat)
    ensures SepEnd(s, p).Some? ==> SepStart(s, p)
  {
  }

  /**
   * The rest of the pattern with the separator at p: three words if there
   * are three, else two. The result is the span of the group.
   */
  function MatchAt(s: string, p: nat): (r: Option<(nat, nat)>)
    ensures r.Some? ==> r.value.0 < r.value.1 <= |s|
  {
    match SepEnd(s, p)
    case None => None
    case Some(q) =>
      match Group(s, q, 3)
      case Some(e) => Some((q, e))
      case None =>
        match Group(s, q, 2)
        case Some(e) => Some((q, e))
        case None => None
  }

  /** The positions at which the separator and the rest of the pattern match. */
  function Matches(s: string): nat -> bool {
    (p: nat) => MatchAt(s, p).Some?
  }

  /**
   * `sender_pat.match(osnd).group(1)`, or None when there is no match: the
   * group after the rightmost separator in the first line at which the rest
   * of the pattern matches.
   */
  function Sender(osnd: string): Option<string> {
    var p := LastMatch(Matches(osnd), Limit(osnd));
    if p == 0 then None else GroupText(osnd, MatchAt(osnd, p))
  }

  /**
   * There is a sender exactly when the rest of the pattern matches after
   * some separator in the first line, and it is the group after the
   * rightmost such separator.
   */
  lemma SenderSpec(osnd: string)
    ensures Sender(osnd).Some? <==> exists p | 1 <= p <= Limit(osnd) :: MatchAt(osnd, p).Some?
    ensures Sender(osnd).Some? ==> exists p | 1 <= p <= Limit(osnd) ::
              GroupText(osnd, MatchAt(osnd, p)) == Sender(osnd)
              && forall p' | p < p' <= Limit(osnd) :: MatchAt(osnd, p').None?
  {
    var m, hi := Matches(osnd), Limit(osnd);
    LastMatchSpec(m, hi);
    var p := LastMatch(m, hi);
    forall p' | p < p' <= hi ensures MatchAt(osnd, p').None? {
      assert !m(p');
    }
    if p > 0 {
      assert m(p);
      assert GroupText(osnd, MatchAt(osnd, p)) == Sender(osnd);
    }
    if exists p' | 1 <= p' <= hi :: MatchAt(osnd, p').Some? {
      var p' :| 1 <= p' <= hi && MatchAt(osnd, p').Some?;
      assert m(p');
    }
  }

  /** A separator begins with ',', 'П' or 'В'. */
  lemma SepStartChar(s: string, p: nat)
    ensures SepStart(s, p) ==> p < |s| && (s[p] == ',' || s[p] == 'П' || s[p] == 'В')
  {
    if HasAt(s, p, "Переказ") { assert s[p + 0] == "Переказ"[0]; }
    if HasAt(s, p, "Вiд") { assert s[p + 0] == "Вiд"[0]; }
  }

  /** No character of x could begin a separator. */
  predicate Clean(x: string) {
    ',' !in x && 'П' !in x && 'В' !in x
  }

  /** No character from position `from` on could begin a separator. */
  predicate CleanFrom(s: string, from: nat) {
    from <= |s| && forall i | from <= i < |s| :: s[i] != ',' && s[i] != 'П' && s[i] != 'В'
  }

  /** No separator begins in a clean tail. */
  lemma CleanAt(s: string, from: nat, p: nat)
    requires CleanFrom(s, from) && from <= p
    ensures !SepStart(s, p) && SepEnd(s, p).None?
  {
    SepEndStart(s, p);
    SepStartChar(s, p);
  }

  /** A narrative with no separator after its first character has no sender. */
  lemma NoSeparatorNoSender(osnd: string)
    requires CleanFrom(osnd, 1)
    ensures Sender(osnd) == None
  {
    forall p | 1 <= p <= Limit(osnd) ensures !Matches(osnd)(p) {
      CleanAt(osnd, 1, p);
    }
    LastMatchNone(Matches(osnd), Limit(osnd));
  }

  /** The separators as written: `,\s*`, `Переказ(?:и:)?\s+вiд\s+` and `Вiд\s+`. */
  datatype Separator =
    | Comma(spaces: string)
    | Transfer(plural: bool, spaces1: string, spaces2: string)
    | From(spaces: string)

  predicate WellFormed(sep: Separator) {
    match sep
    case Comma(sp) => AllSpace(sp)
    case Transfer(_, sp1, sp2) => AllSpace(sp1) && AllSpace(sp2) && sp1 != [] && sp2 != []
    case From(sp) => AllSpace(sp) && sp != []
  }

  function Keyword(plural: bool): string { if plural then "Перекази:" else "Переказ" }

  function SepText(sep: Separator): string {
    match sep
    case Comma(sp) => "," + sp
    case Transfer(plural, sp1, sp2) => Keyword(plural) + sp1 + "вiд" + sp2
    case From(sp) => "Вiд" + sp
  }

  lemma SpacesClean(sp: string)
    requires AllSpace(sp)
    ensures Clean(sp)
  {
    assert forall i | 0 <= i < |sp| :: IsSpace(sp[i]);
  }

  lemma CleanAppend(x: string, y: string)
    requires Clean(x) && Clean(y)
    ensures Clean(x + y)
  {
  }

  /** Only the first character of a separator could begin one. */
  lemma SepTextClean(sep: Separator)
    requires WellFormed(sep)
    ensures |SepText(sep)| >= 1 && Clean(SepText(sep)[1..])
  {
    match sep
    case Comma(sp) => CommaTextClean(sp);
    case Transfer(plural, sp1, sp2) => TransferTextClean(plural, sp1, sp2);
    case From(sp) => FromTextClean(sp);
  }

  lemma CommaTextClean(sp: string)
    requires AllSpace(sp)
    ensures Clean(SepText(Comma(sp))[1..])
  {
    assert SepText(Comma(sp))[1..] == sp;
    SpacesClean(sp);
  }

  lemma FromTextClean(sp: string)
    requires AllSpace(sp)
    ensures Clean(SepText(From(sp))[1..])
  {
    assert SepText(From(sp))[1..] == "iд" + sp;
    SpacesClean(sp);
    CleanAppend("iд", sp);
  }

  lemma KeywordTailClean(plural: bool)
    ensures |Keyword(plural)| >= 1 && Clean(Keyword(plural)[1..])
  {
    if plural {
      assert Keyword(plural)[1..] == "ерекази:";
    } else {
      assert Keyword(plural)[1..] == "ереказ";
    }
  }

  lemma TransferTextClean(plural: bool, sp1: string, sp2: string)
    requires AllSpace(sp1) && AllSpace(sp2)
    ensures Clean(SepText(Transfer(plural, sp1, sp2))[1..])
  {
    var k := Keyword(plural);
    KeywordTailClean(plural);
    assert SepText(Transfer(plural, sp1, sp2))[1..] == k[1..] + sp1 + "вiд" + sp2;
    SpacesClean(sp1);
    SpacesClean(sp2);
    CleanAppend(k[1..], sp1);
    CleanAppend(k[1..] + sp1, "вiд");
    CleanAppend(k[1..] + sp1 + "вiд", sp2);
  }

  /** The separator, placed at p and followed by a non-space, ends where its trailing whitespace ends. */
  lemma SepEndOf(s: string, p: nat, sep: Separator)
    requires WellFormed(sep) && HasAt(s, p, SepText(sep))
    requires p + |SepText(sep)| < |s| && !IsSpace(s[p + |SepText(sep)|])
    ensures SepEnd(s, p) == Some(p + |SepText(sep)|)
  {
    match sep
    case Comma(sp) => CommaSepEnd(s, p, sp);
    case Transfer(plural, sp1, sp2) => TransferSepEnd(s, p, plural, sp1, sp2);
    case From(sp) => FromSepEnd(s, p, sp);
  }

  lemma CommaSepEnd(s: string, p: nat, sp: string)
    requires AllSpace(sp) && HasAt(s, p, "," + sp)
    requires p + 1 + |sp| < |s| && !IsSpace(s[p + 1 + |sp|])
    ensures SepEnd(s, p) == Some(p + 1 + |sp|)
  {
    HasAtSplit(s, p, ",", sp);
    CommaEnd(s, p, sp);
  }

  lemma TransferSepEnd(s: string, p: nat, plural: bool, sp1: string, sp2: string)
    requires WellFormed(Transfer(plural, sp1, sp2)) && HasAt(s, p, SepText(Transfer(plural, sp1, sp2)))
    requires p + |SepText(Transfer(plural, sp1, sp2))| < |s|
    requires !IsSpace(s[p + |SepText(Transfer(plural, sp1, sp2))|])
    ensures SepEnd(s, p) == Some(p + |SepText(Transfer(plural, sp1, sp2))|)
  {
    TransferAt(s, p, plural, sp1, sp2);
    TransferEnd(s, p, plural, sp1, sp2);
  }

  lemma FromSepEnd(s: string, p: nat, sp: string)
    requires AllSpace(sp) && sp != [] && HasAt(s, p, "Вiд" + sp)
    requires p + 3 + |sp| < |s| && !IsSpace(s[p + 3 + |sp|])
    ensures SepEnd(s, p) == Some(p + 3 + |sp|)
  {
    HasAtSplit(s, p, "Вiд", sp);
    FromEnd(s, p, sp);
  }

  lemma CommaEnd(s: string, p: nat, sp: string)
    requires AllSpace(sp) && HasAt(s, p, ",") && HasAt(s, p + 1, sp)
    requires p + 1 + |sp| < |s| && !IsSpace(s[p + 1 + |sp|])
    ensures SepEnd(s, p) == Some(p + 1 + |sp|)
  {
    assert s[p + 0] == ","[0];
    SkipAt(s, p + 1, sp);
  }

  lemma FromEnd(s: string, p: nat, sp: string)
    requires AllSpace(sp) && sp != [] && HasAt(s, p, "Вiд") && HasAt(s, p + 3, sp)
    requires p + 3 + |sp| < |s| && !IsSpace(s[p + 3 + |sp|])
    ensures SepEnd(s, p) == Some(p + 3 + |sp|)
  {
    assert s[p + 0] == "Вiд"[0];
    SkipAt(s, p + 3, sp);
    FromSteps(s, p, p + 3 + |sp|);
  }

  /** A text does not start where a different character stands. */
  lemma NotHasAt(s: string, p: nat, t: string)
    requires |t| > 0 && p < |s| && s[p] != t[0]
    ensures !HasAt(s, p, t)
  {
  }

  /** SepEnd's "Вiд" branch. */
  lemma FromSteps(s: string, p: nat, b: nat)
    requires p < |s| && s[p] == 'В' && HasAt(s, p, "Вiд")
    requires SkipSpace(s, p + 3) == b && b != p + 3
    ensures SepEnd(s, p) == Some(b)
  {
    NotHasAt(s, p, "Переказ");
  }

  /** The pieces of a transfer separator placed at p, each where it starts. */
  lemma TransferAt(s: string, p: nat, plural: bool, sp1: string, sp2: string)
    requires HasAt(s, p, SepText(Transfer(plural, sp1, sp2)))
    ensures HasAt(s, p, Keyword(plural)) && HasAt(s, p + |Keyword(plural)|, sp1)
    ensures HasAt(s, p + |Keyword(plural)| + |sp1|, "вiд")
    ensures HasAt(s, p + |Keyword(plural)| + |sp1| + 3, sp2)
  {
    var k := Keyword(plural);
    HasAtSplit(s, p, k + sp1 + "вiд", sp2);
    HasAtSplit(s, p, k + sp1, "вiд");
    HasAtSplit(s, p, k, sp1);
  }

  /** "Переказ" or "Перекази:" placed at p and followed by whitespace. */
  lemma KeywordAt(s: string, p: nat, plural: bool)
    requires HasAt(s, p, Keyword(plural))
    requires p + |Keyword(plural)| < |s| && IsSpace(s[p + |Keyword(plural)|])
    ensures s[p] == 'П' && HasAt(s, p, "Переказ")
    ensures HasAt(s, p + 7, "и:") <==> plural
  {
    assert s[p + 0] == Keyword(plural)[0];
    if plural {
      assert Keyword(plural) == "Переказ" + "и:";
      HasAtSplit(s, p, "Переказ", "и:");
    } else {
      NotHasAt(s, p + 7, "и:");
    }
  }

  /** SepEnd's "Переказ" branch, step by step. */
  lemma TransferSteps(s: string, p: nat, r: nat, a: nat, b: nat)
    requires p < |s| && s[p] == 'П' && HasAt(s, p, "Переказ")
    requires r == (if HasAt(s, p + 7, "и:") then p + 9 else p + 7) && r <= |s|
    requires SkipSpace(s, r) == a && a != r && HasAt(s, a, "вiд")
    requires SkipSpace(s, a + 3) == b && b != a + 3
    ensures SepEnd(s, p) == Some(b)
  {
  }

  lemma TransferEnd(s: string, p: nat, plural: bool, sp1: string, sp2: string)
    requires AllSpace(sp1) && AllSpace(sp2) && sp1 != [] && sp2 != []
    requires HasAt(s, p, Keyword(plural)) && HasAt(s, p + |Keyword(plural)|, sp1)
    requires HasAt(s, p + |Keyword(plural)| + |sp1|, "вiд")
    requires HasAt(s, p + |Keyword(plural)| + |sp1| + 3, sp2)
    requires p + |Keyword(plural)| + |sp1| + 3 + |sp2| < |s|
    requires !IsSpace(s[p + |Keyword(plural)| + |sp1| + 3 + |sp2|])
    ensures SepEnd(s, p) == Some(p + |Keyword(plural)| + |sp1| + 3 + |sp2|)
  {
    var r := p + |Keyword(plural)|;
    var a := r + |sp1|;
    var b := a + 3 + |sp2|;
    assert s[r + 0] == sp1[0];
    KeywordAt(s, p, plural);
    assert s[a + 0] == "вiд"[0];
    SkipAt(s, r, sp1);
    SkipAt(s, a + 3, sp2);
    TransferSteps(s, p, r, a, b);
  }

  /** The separator is followed at q by the words and trailing whitespace that end s. */
  predicate Layout(s: string, p: nat, sep: Separator, words: seq<string>, trail: string) {
    && HasAt(s, p, SepText(sep))
    && HasAt(s, p + |SepText(sep)|, Join(words, ' ') + trail)
    && p + |SepText(sep)| + |Join(words, ' ')| + |trail| == |s|
  }

  /** The rest of the pattern matches at p with the group running from q to e. */
  lemma MatchAtGroup(s: string, p: nat, q: nat, k: nat, e: nat)
    requires SepEnd(s, p) == Some(q) && 2 <= k <= 3 && Group(s, q, k) == Some(e)
    ensures MatchAt(s, p) == Some((q, e))
  {
    if k == 2 {
      GroupExclusive(s, q, 2);
    }
  }

  /**
   * With the separator at p followed by a group from q to e, no separator
   * possible after p and no line break before it, the sender is that group.
   */
  lemma SenderAtGroup(s: string, p: nat, q: nat, k: nat, e: nat)
    requires SepEnd(s, p) == Some(q) && 2 <= k <= 3 && Group(s, q, k) == Some(e)
    requires 1 <= p && CleanFrom(s, p + 1)
    requires forall i | 0 <= i < p :: s[i] != '\n'
    ensures Sender(s) == Some(s[q..e])
  {
    MatchAtGroup(s, p, q, k, e);
    forall p' | p < p' <= Limit(s) ensures !Matches(s)(p') {
      CleanAt(s, p + 1, p');
    }
    var n := Find(s, '\n', 0);
    assert n >= p;
    LastMatchIs(Matches(s), Limit(s), p);
  }

  /** A narrative written as text before the separator, the separator, the words and trailing whitespace. */
  lemma NarrativeLayout(pre: string, sep: Separator, words: seq<string>, trail: string)
    ensures Layout(pre + SepText(sep) + Join(words, ' ') + trail, |pre|, sep, words, trail)
    ensures HasAt(pre + SepText(sep) + Join(words, ' ') + trail, 0, pre)
  {
    var t, g := SepText(sep), Join(words, ' ');
    var s := pre + t + g + trail;
    forall k | 0 <= k < |pre| ensures s[0 + k] == pre[k] { }
    forall k | 0 <= k < |t| ensures s[|pre| + k] == t[k] { }
    forall k | 0 <= k < |g + trail| ensures s[|pre| + |t| + k] == (g + trail)[k] { }
  }

  /** Where the separator of a narrative written from its pieces ends, and what follows it. */
  lemma NarrativeGroup(pre: string, sep: Separator, words: seq<string>, trail: string)
    requires WellFormed(sep) && 2 <= |words| <= 3 && Words(words)
    ensures SepEnd(pre + SepText(sep) + Join(words, ' ') + trail, |pre|) == Some(|pre| + |SepText(sep)|)
    ensures HasAt(pre + SepText(sep) + Join(words, ' ') + trail, |pre| + |SepText(sep)|, Join(words, ' ') + trail)
  {
    NarrativeLayout(pre, sep, words, trail);
    LayoutSepEnd(pre + SepText(sep) + Join(words, ' ') + trail, pre, sep, words, trail);
  }

  /** Only the characters after the separator's first can follow it, and none of them is a separator's first. */
  lemma CleanTail(pre: string, t: string, g: string, trail: string)
    requires |t| >= 1 && Clean(t[1..]) && Clean(g + trail)
    ensures CleanFrom(pre + t + g + trail, |pre| + 1)
  {
    var s := pre + t + g + trail;
    forall i | |pre| + 1 <= i < |s| ensures s[i] != ',' && s[i] != 'П' && s[i] != 'В' {
      if i < |pre| + |t| {
        assert s[i] == t[1..][i - |pre| - 1];
      } else {
        assert s[i] == (g + trail)[i - |pre| - |t|];
      }
    }
  }

  /**
   * A separator at p whose group starts at q, followed by the words and
   * trailing whitespace that end s, with no separator possible after p and
   * no line break before it: the sender is the words.
   */
  lemma SenderOfGroup(s: string, p: nat, q: nat, words: seq<string>, trail: string)
    requires SepEnd(s, p) == Some(q)
    requires 2 <= |words| <= 3 && Words(words) && AllSpace(trail)
    requires HasAt(s, q, Join(words, ' ') + trail) && q + |Join(words, ' ')| + |trail| == |s|
    requires 1 <= p && CleanFrom(s, p + 1)
    requires forall i | 0 <= i < p :: s[i] != '\n'
    ensures Sender(s) == Some(Join(words, ' '))
  {
    GroupReads(s, q, words, trail);
    SenderAtGroup(s, p, q, |words|, q + |Join(words, ' ')|);
  }

  /** Where the separator of a layout that follows `pre` ends. */
  lemma LayoutSepEnd(s: string, pre: string, sep: Separator, words: seq<string>, trail: string)
    requires WellFormed(sep) && 2 <= |words| <= 3 && Words(words)
    requires Layout(s, |pre|, sep, words, trail)
    ensures SepEnd(s, |pre|) == Some(|pre| + |SepText(sep)|)
    ensures HasAt(s, |pre| + |SepText(sep)|, Join(words, ' ') + trail)
    ensures |pre| + |SepText(sep)| + |Join(words, ' ')| + |trail| == |s|
  {
    var q := |pre| + |SepText(sep)|;
    JoinFirst(words);
    assert s[q + 0] == (Join(words, ' ') + trail)[0];
    SepEndOf(s, |pre|, sep);
  }

  /** What SenderOfGroup needs, for a narrative written from its pieces. */
  lemma NarrativeReady(s: string, pre: string, sep: Separator, words: seq<string>, trail: string)
    requires s == pre + SepText(sep) + Join(words, ' ') + trail
    requires pre != [] && Excludes(pre, '\n') && WellFormed(sep)
    requires 2 <= |words| <= 3 && Words(words) && AllSpace(trail)
    requires Clean(Join(words, ' ') + trail)
    ensures SepEnd(s, |pre|) == Some(|pre| + |SepText(sep)|)
    ensures HasAt(s, |pre| + |SepText(sep)|, Join(words, ' ') + trail)
    ensures |pre| + |SepText(sep)| + |Join(words, ' ')| + |trail| == |s|
    ensures CleanFrom(s, |pre| + 1)
    ensures forall i | 0 <= i < |pre| :: s[i] != '\n'
  {
    NarrativeGroup(pre, sep, words, trail);
    SepTextClean(sep);
    CleanTail(pre, SepText(sep), Join(words, ' '), trail);
    forall i | 0 <= i < |pre| ensures s[i] != '\n' {
      assert s[i] == pre[i];
    }
  }

  /** The sender of a narrative with those facts established. */
  lemma SenderOfReady(s: string, pre: string, sep: Separator, words: seq<string>, trail: string)
    requires pre != [] && WellFormed(sep)
    requires 2 <= |words| <= 3 && Words(words) && AllSpace(trail)
    requires SepEnd(s, |pre|) == Some(|pre| + |SepText(sep)|)
    requires HasAt(s, |pre| + |SepText(sep)|, Join(words, ' ') + trail)
    requires |pre| + |SepText(sep)| + |Join(words, ' ')| + |trail| == |s|
    requires CleanFrom(s, |pre| + 1)
    requires forall i | 0 <= i < |pre| :: s[i] != '\n'
    ensures Sender(s) == Some(Join(words, ' '))
  {
    SenderOfGroup(s, |pre|, |pre| + |SepText(sep)|, words, trail);
  }

  /**
   * The sender is the two or three words after the last separator: for a
   * narrative `pre + separator + words + trailing whitespace` in which no
   * separator can begin after `pre`, the group is the words.
   */
  lemma SenderAfterLastSeparator(pre: string, sep: Separator, words: seq<string>, trail: string)
    requires pre != [] && Excludes(pre, '\n') && WellFormed(sep)
    requires 2 <= |words| <= 3 && Words(words) && AllSpace(trail)
    requires Clean(Join(words, ' ') + trail)
    ensures Sender(pre + SepText(sep) + Join(words, ' ') + trail) == Some(Join(words, ' '))
  {
    var s := pre + SepText(sep) + Join(words, ' ') + trail;
    NarrativeReady(s, pre, sep, words, trail);
    SenderOfReady(s, pre, sep, words, trail);
  }

  lemma ExcludesAppend(x: string, y: string, c: char)
    requires Excludes(x, c) && Excludes(y, c)
    ensures Excludes(x + y, c)
  {
  }

  /** A sender of two words after the last separator. */
  lemma SenderOfTwoWords(pre: string, sep: Separator, a: string, b: string)
    requires pre != [] && Excludes(pre, '\n') && WellFormed(sep)
    requires a != [] && b != [] && NoSpace(a) && NoSpace(b) && Clean(a) && Clean(b)
    ensures Sender(pre + SepText(sep) + a + " " + b) == Some(a + " " + b)
  {
    var words := [a, b];
    JoinTwo(a, b);
    assert Words(words);
    CleanAppend(a, " ");
    CleanAppend(a + " ", b);
    SenderAfterLastSeparator(pre, sep, words, "");
    AppendTwo(pre + SepText(sep), a, b);
  }

  /** A sender of three words after the last separator. */
  lemma SenderOfThreeWords(pre: string, sep: Separator, a: string, b: string, c: string)
    requires pre != [] && Excludes(pre, '\n') && WellFormed(sep)
    requires a != [] && b != [] && c != [] && NoSpace(a) && NoSpace(b) && NoSpace(c)
    requires Clean(a) && Clean(b) && Clean(c)
    ensures Sender(pre + SepText(sep) + a + " " + b + " " + c) == Some(a + " " + b + " " + c)
  {
    var words := [a, b, c];
    JoinThree(a, b, c);
    assert Words(words);
    CleanAppend(a, " ");
    CleanAppend(a + " ", b);
    CleanAppend(a + " " + b, " ");
    CleanAppend(a + " " + b + " ", c);
    SenderAfterLastSeparator(pre, sep, words, "");
    AppendThree(pre + SepText(sep), a, b, c);
  }

  // The narratives the test suite pins down, each given as its pieces.

  lemma SenderAfterComma(pre: string, a: string, b: string, c: string)
    requires pre == "Плата за послуги" && a == "Шевченко" && b == "Тарас" && c == "Григорович"
    ensures Sender(pre + ", " + a + " " + b + " " + c) == Some(a + " " + b + " " + c)
  {
    assert Excludes(pre, '\n');
    assert NoSpace(a) && NoSpace(b) && NoSpace(c);
    assert Clean(a) && Clean(b) && Clean(c);
    assert SepText(Comma(" ")) == ", ";
    SenderOfThreeWords(pre, Comma(" "), a, b, c);
  }

  lemma SenderAfterTransfer(card: string, time: string, a: string, b: string)
    requires card == "1234 **** **** 5678 " && time == "24.01.2019 12:34:56 "
    requires a == "JANE" && b == "DOE"
    ensures Sender(card + time + "Переказ вiд " + a + " " + b) == Some(a + " " + b)
  {
    assert Excludes(card, '\n') && Excludes(time, '\n');
    ExcludesAppend(card, time, '\n');
    assert NoSpace(a) && NoSpace(b) && Clean(a) && Clean(b);
    assert SepText(Transfer(false, " ", " ")) == "Переказ вiд ";
    SenderOfTwoWords(card + time, Transfer(false, " ", " "), a, b);
  }

  lemma SenderAfterFrom(card: string, time: string, a: string, b: string)
    requires card == "1234 **** **** 5678 " && time == "24.01.2019 12:34:56 "
    requires a == "JANE" && b == "DOE"
    ensures Sender(card + time + "Вiд " + a + " " + b) == Some(a + " " + b)
  {
    assert Excludes(card, '\n') && Excludes(time, '\n');
    ExcludesAppend(card, time, '\n');
    assert NoSpace(a) && NoSpace(b) && Clean(a) && Clean(b);
    assert SepText(From(" ")) == "Вiд ";
    SenderOfTwoWords(card + time, From(" "), a, b);
  }

  /** Past its first character, a narrative made of a head and a clean rest is clean. */
  lemma CleanAfterHead(h: string, x: string)
    requires |h| == 1 && Clean(x)
    ensures CleanFrom(h + x, 1)
  {
    var s := h + x;
    forall i | 1 <= i < |s| ensures s[i] != ',' && s[i] != 'П' && s[i] != 'В' {
      assert s[i] == x[i - 1];
    }
  }

  /** No separator after the first character of a narrative: no sender. */
  lemma NoSenderAfterHead(h: string, x: string)
    requires |h| == 1 && Clean(x)
    ensures Sender(h + x) == None
  {
    CleanAfterHead(h, x);
    NoSeparatorNoSender(h + x);
  }

  /** Clean texts put together stay clean. */
  lemma CleanAppend3(a: string, b: string, c: string)
    requires Clean(a) && Clean(b) && Clean(c)
    ensures Clean(a + b + c)
  {
    CleanAppend(a, b);
    CleanAppend(a + b, c);
  }

  lemma CleanAppend5(a: string, b: string, c: string, d: string, e: string)
    requires Clean(a) && Clean(b) && Clean(c) && Clean(d) && Clean(e)
    ensures Clean(a + b + c + d + e)
  {
    CleanAppend3(a, b, c);
    CleanAppend3(a + b + c, d, e);
  }

  lemma CleanPart(part: string) requires part == "(Кредитна частина) " ensures Clean(part) { }
  lemma CleanDate(date: string) requires date == "01.02.2018 00:00:00 " ensures Clean(date) { }
  lemma CleanVia(via: string) requires via == "по картці " ensures Clean(via) { }
  lemma CleanCard(card: string) requires card == "1234567890123456" ensures Clean(card) { }

  lemma CardCreditPieces(kind: string, part: string, date: string, via: string, card: string)
    requires kind == "Переказ " && part == "(Кредитна частина) " && date == "01.02.2018 00:00:00 "
    requires via == "по картці " && card == "1234567890123456"
    ensures kind == "П" + "ереказ " && Clean("ереказ " + part + date + via + card)
  {
    CleanPart(part);
    CleanDate(date);
    CleanVia(via);
    CleanCard(card);
    assert Clean("ереказ ");
    CleanAppend5("ереказ ", part, date, via, card);
  }

  lemma NoSenderForCardCredit(kind: string, part: string, date: string, via: string, card: string)
    requires kind == "Переказ " && part == "(Кредитна частина) " && date == "01.02.2018 00:00:00 "
    requires via == "по картці " && card == "1234567890123456"
    ensures Sender(kind + part + date + via + card) == None
  {
    var r := "ереказ ";
    CardCreditPieces(kind, part, date, via, card);
    NoSenderAfterHead("П", r + part + date + via + card);
    AppendAssoc("П", r, part);
    AppendAssoc("П", r + part, date);
    AppendAssoc("П", r + part + date, via);
    AppendAssoc("П", r + part + date + via, card);
  }

  lemma CleanCardTail(tail: string) requires tail == "234 **** **** 5678 " ensures Clean(tail) { }
  lemma CleanWhat(what: string) requires what == "Зарахування переказу" ensures Clean(what) { }
  lemma CleanWhere(where: string) requires where == " на картку" ensures Clean(where) { }

  lemma TopUpPieces(card: string, what: string, where: string)
    requires card == "1234 **** **** 5678 " && what == "Зарахування переказу" && where == " на картку"
    ensures card == "1" + "234 **** **** 5678 " && Clean("234 **** **** 5678 " + what + where)
  {
    CleanCardTail("234 **** **** 5678 ");
    CleanWhat(what);
    CleanWhere(where);
    CleanAppend3("234 **** **** 5678 ", what, where);
  }

  lemma NoSenderForTopUp(card: string, what: string, where: string)
    requires card == "1234 **** **** 5678 " && what == "Зарахування переказу" && where == " на картку"
    ensures Sender(card + what + where) == None
  {
    var r := "234 **** **** 5678 ";
    TopUpPieces(card, what, where);
    NoSenderAfterHead("1", r + what + where);
    AppendAssoc("1", r, what);
    AppendAssoc("1", r + what, where);
  }

  // ---------------------------------------------------------------------
  // Privat24Transaction: normalising a statement record

  /** The pairs of a record with their keys lower-cased, in order. */
  function Lowered(rec: Record): (ps: seq<(string, Json)>)
    ensures |ps| == |rec| && forall i | 0 <= i < |rec| :: ps[i] == (Lower(rec[i].0), rec[i].1)
  {
    seq(|rec|, i requires 0 <= i < |rec| => (Lower(rec[i].0), rec[i].1))
  }

  /** The `keys` validator: `{k.lower(): v for k, v in values.items()}`. */
  function LowerKeys(rec: Record): Record {
    FromPairs(Lowered(rec))
  }

  /** The value the validators see under a (lower-case) key. */
  function Field(rec: Record, key: string): Option<Json> {
    Get(LowerKeys(rec), key)
  }

  /**
   * A key of the normalised record holds the value of the last original
   * key that lower-cases to it; a key that no original key lower-cases to
   * is absent.
   */
  lemma LowerKeysGet(rec: Record, k: string)
    ensures (forall i | 0 <= i < |rec| :: Lower(rec[i].0) != k) ==> Field(rec, k) == None
    ensures forall i | 0 <= i < |rec| && Lower(rec[i].0) == k && (forall j | i < j < |rec| :: Lower(rec[j].0) != k) ::
              Field(rec, k) == Some(rec[i].1)
  {
    var ps := Lowered(rec);
    FromPairsGet(ps, k);
    LastValueSome(ps, k);
    if k in Keys(ps) {
      var i :| 0 <= i < |ps| && Keys(ps)[i] == k;
      assert Lower(rec[i].0) == k;
    }
    forall i | 0 <= i < |rec| && Lower(rec[i].0) == k && (forall j | i < j < |rec| :: Lower(rec[j].0) != k)
      ensures Field(rec, k) == Some(rec[i].1)
    {
      LastValueAt(ps, k, i);
    }
  }

  /** Lower-casing the keys of a normalised record changes nothing. */
  lemma LowerKeysIdempotent(rec: Record)
    ensures LowerKeys(LowerKeys(rec)) == LowerKeys(rec)
  {
    var ps := Lowered(rec);
    var d := LowerKeys(rec);
    FromPairsKeys(ps);
    forall i | 0 <= i < |d| ensures Lower(d[i].0) == d[i].0 {
      assert Keys(d)[i] == d[i].0;
      DedupIn(Keys(ps), d[i].0);
      var j :| 0 <= j < |ps| && Keys(ps)[j] == d[i].0;
      LowerIdempotent(rec[j].0);
    }
    assert Lowered(d) == d;
    FromPairsUnique(d);
  }

  /** The sender field: the pattern's group when it matches, else the record's own "sender", else "". */
  function SenderField(rec: Record, osnd: string): Option<string> {
    match Sender(osnd)
    case Some(x) => Some(x)
    case None =>
      match Field(rec, "sender")
      case None => Some("")
      case Some(j) => AsStr(j)
  }

  /** The key whose value in the original record identifies a transaction. */
  const IdKey := "TECHNICAL_TRANSACTION_ID"

  /**
   * Privat24Transaction.parse_obj(rec): the `keys` validator, the `values`
   * validator, then the fields. goodName is the configured
   * good_name_default when it is a string, and parseTs stands for
   * dateutil's parse with dayfirst. A lookup of a missing key is a KeyError;
   * whatever the validators or the fields reject is a ValidationError.
   */
  function Parse(rec: Record, goodName: Option<string>, parseTs: string -> Option<Timestamp>): (r: Result<Transaction>)
    ensures Field(rec, "osnd").None? ==> r == Err(KeyError)
    ensures Field(rec, "osnd").Some? && !Field(rec, "osnd").value.JStr? ==> r == Err(Validation)
    ensures r == Err(KeyError) <==>
              Field(rec, "osnd").None?
              || (Field(rec, "osnd").value.JStr? && Field(rec, "date_time_dat_od_tim_p").None?)
              || (Field(rec, "osnd").value.JStr? && Field(rec, "date_time_dat_od_tim_p").value.JStr?
                  && parseTs(Field(rec, "date_time_dat_od_tim_p").value.s).Some?
                  && Field(rec, "sum_e").None?)
    ensures r.Err? ==> r.error == KeyError || r.error == Validation
    ensures r.Ok? ==>
              var t := r.value;
              goodName == Some(t.name)
              && t.code == t.name + " " + t.sum
              && Field(rec, "sum_e").Some? && AsStr(Field(rec, "sum_e").value) == Some(t.sum)
              && Field(rec, "osnd").Some? && Field(rec, "osnd").value.JStr?
              && SenderField(rec, Field(rec, "osnd").value.s) == Some(t.sender)
              && Field(rec, "date_time_dat_od_tim_p").Some? && Field(rec, "date_time_dat_od_tim_p").value.JStr?
              && parseTs(Field(rec, "date_time_dat_od_tim_p").value.s) == Some(t.ts)
              && t.details.Privat24?
              && Field(rec, "aut_my_acc").Some? && AsStr(Field(rec, "aut_my_acc").value) == Some(t.details.account)
              && (t.details.credit <==> Field(rec, "trantype") == Some(JStr("C")))
              && t.id == Get(rec, IdKey)
              && t.orig == rec
  {
    var osnd := Field(rec, "osnd");
    if osnd.None? then Err(KeyError)
    else if !osnd.value.JStr? then Err(Validation)
    else
      var dt := Field(rec, "date_time_dat_od_tim_p");
      if dt.None? then Err(KeyError)
      else
        var ts := if dt.value.JStr? then parseTs(dt.value.s) else None;
        if ts.None? then Err(Validation)
        else
          var sumE := Field(rec, "sum_e");
          if sumE.None? then Err(KeyError)
          else
            var sender := SenderField(rec, osnd.value.s);
            var sum := AsStr(sumE.value);
            var account := Field(rec, "aut_my_acc");
            var tranType := Field(rec, "trantype");
            if goodName.None? || sum.None? || sender.None? || account.None? || AsStr(account.value).None?
               || tranType.None? || tranType.value.JNull?
            then Err(Validation)
            else
              var id := Get(rec, IdKey);
              Ok(Transaction(
                   id, ts.value,
                   goodName.value + " " + sum.value, goodName.value, sender.value, sum.value,
                   Privat24(AsStr(account.value).value, tranType.value == JStr("C")), rec))
  }

  /** A narrative the pattern matches gives the sender; one it does not match, with no "sender" key, gives "". */
  lemma ParseSender(rec: Record, goodName: Option<string>, parseTs: string -> Option<Timestamp>)
    requires Parse(rec, goodName, parseTs).Ok?
    ensures var osnd := Field(rec, "osnd").value.s;
            (Sender(osnd).Some? ==> Parse(rec, goodName, parseTs).value.sender == Sender(osnd).value)
            && (Sender(osnd).None? && Field(rec, "sender").None? ==> Parse(rec, goodName, parseTs).value.sender == "")
  {
  }

  /**
   * Parsing is insensitive to the case of the keys: the record with its keys
   * lower-cased parses the same, up to the original record kept and the id
   * read from it.
   */
  lemma ParseCaseInsensitive(rec: Record, goodName: Option<string>, parseTs: string -> Option<Timestamp>)
    ensures var a, b := Parse(rec, goodName, parseTs), Parse(LowerKeys(rec), goodName, parseTs);
            a.Ok? == b.Ok?
            && (a.Err? ==> a.error == b.error)
            && (a.Ok? ==> b.value == a.value.(id := Get(LowerKeys(rec), IdKey), orig := LowerKeys(rec)))
  {
    LowerKeysIdempotent(rec);
    var low := LowerKeys(rec);
    assert forall k :: Field(low, k) == Field(rec, k);
    assert forall osnd :: SenderField(low, osnd) == SenderField(rec, osnd);
    var a, b := Parse(rec, goodName, parseTs), Parse(low, goodName, parseTs);
    if a.Ok? {
      assert b.Ok?;
    } else {
      assert b.Err?;
    }
  }

  // ---------------------------------------------------------------------
  // Which transactions get a receipt

  /**
   * accounts(): the truthy entries of the configured privat24.accounts; a
   * missing or falsy setting is the default empty tuple.
   */
  function Accounts(configured: Json): (r: Result<seq<Json>>)
    ensures !Truthy(configured) ==> r == Ok([])
    ensures Truthy(configured) ==> (r.Ok? <==> Iterate(configured).Ok?)
    ensures r.Ok? ==> forall x | x in r.value :: Truthy(x)
    ensures Truthy(configured) && r.Ok? ==> forall x :: x in r.value <==> x in Iterate(configured).value && Truthy(x)
  {
    if !Truthy(configured) then Ok([])
    else match Iterate(configured)
      case Err(e) => Err(e)
      case Ok(items) => Ok(TruthyItems(items))
  }

  function Strs(xs: seq<string>): (js: seq<Json>)
    ensures |js| == |xs| && forall i | 0 <= i < |xs| :: js[i] == JStr(xs[i])
  {
    seq(|xs|, i requires 0 <= i < |xs| => JStr(xs[i]))
  }

  /** A configured list of account numbers gives its non-empty ones, in order. */
  lemma AccountsOfStrings(xs: seq<string>)
    ensures Accounts(JArr(Strs(xs))) == Ok(Strs(NonEmpty(xs)))
  {
    TruthyStrs(xs);
  }

  lemma {:induction false} TruthyStrs(xs: seq<string>)
    ensures TruthyItems(Strs(xs)) == Strs(NonEmpty(xs))
  {
    if xs != [] {
      assert Strs(xs)[1..] == Strs(xs[1..]);
      TruthyStrs(xs[1..]);
      assert Strs(xs) == [JStr(xs[0])] + Strs(xs[1..]);
      if xs[0] != [] {
        assert Strs(NonEmpty(xs)) == [JStr(xs[0])] + Strs(NonEmpty(xs[1..]));
      } else {
        assert NonEmpty(xs) == NonEmpty(xs[1..]);
      }
    }
  }

  /**
   * Privat24Transaction.check_receipt: a credit (trantype "C"; TranType
   * maps every other value to "(ignored)"), to a tracked account when any
   * are configured.
   */
  predicate CheckReceipt(t: Transaction, accounts: seq<Json>) {
    t.details.Privat24? && t.details.credit && (accounts == [] || JStr(t.details.account) in accounts)
  }

  /** check_receipt as the predicate the processing loop takes. */
  function Receipted(accounts: seq<Json>): Transaction -> bool {
    t => CheckReceipt(t, accounts)
  }

  /** For a parsed record: a receipt is due iff its trantype is "C" and its account is tracked (or none are). */
  lemma ParsedCheckReceipt(rec: Record, goodName: Option<string>, parseTs: string -> Option<Timestamp>, accounts: seq<Json>)
    requires Parse(rec, goodName, parseTs).Ok?
    ensures CheckReceipt(Parse(rec, goodName, parseTs).value, accounts) <==>
              Field(rec, "trantype") == Some(JStr("C"))
              && (accounts == [] || JStr(AsStr(Field(rec, "aut_my_acc").value).value) in accounts)
  {
  }

  /**
   * As written, the shared loop classifies with TransactionBase.check, which
   * accepts everything: a debit is stored (and then notified and sold) like
   * a credit, though check_receipt rejects it.
   */
  lemma DebitStoredAsWritten(t: Transaction, accounts: seq<Json>)
    requires t.details.Privat24? && !t.details.credit
    ensures !CheckReceipt(t, accounts)
    ensures Rows([t], 1, BaseCheck) == [Row(t)]
  {
    BaseCheckStoresAll([t], 1);
  }

  /** Classifying with check_receipt, as intended: every stored row is that of a credit to a tracked account. */
  lemma OnlyCreditsStored(txs: seq<Transaction>, n: nat, accounts: seq<Json>)
    requires n <= |txs|
    ensures forall row | row in Rows(txs, n, Receipted(accounts)) ::
              exists i | 0 <= i < n ::
                row == Row(txs[i]) && txs[i].details.Privat24? && txs[i].details.credit
                && (accounts == [] || JStr(txs[i].details.account) in accounts)
  {
    RowsAccepted(txs, n, Receipted(accounts));
  }

  // ---------------------------------------------------------------------
  // get_transactions: followId pagination

  /**
   * One statement page: a failed request, or the body's transactions and,
   * when exist_next_page is set, the next_page_id to follow.
   */
  function PageOf(reply: Result<Json>): (r: Result<(seq<Json>, Option<Json>)>)
    ensures reply.Err? ==> r == Err(reply.error)
    ensures r.Ok? ==> reply.Ok? && Subscript(reply.value, "transactions").Ok?
                      && Iterate(Subscript(reply.value, "transactions").value) == Ok(r.value.0)
    ensures r.Ok? ==> Subscript(reply.value, "exist_next_page").Ok?
                      && (r.value.1.Some? <==> Truthy(Subscript(reply.value, "exist_next_page").value))
    ensures r.Ok? && r.value.1.Some? ==> Subscript(reply.value, "next_page_id") == Ok(r.value.1.value)
  {
    if reply.Err? then Err(reply.error)
    else
      var body := reply.value;
      match Subscript(body, "transactions")
      case Err(e) => Err(e)
      case Ok(page) =>
        match Iterate(page)
        case Err(e) => Err(e)
        case Ok(items) =>
          match Subscript(body, "exist_next_page")
          case Err(e) => Err(e)
          case Ok(more) =>
            if !Truthy(more) then Ok((items, None))
            else
              match Subscript(body, "next_page_id")
              case Err(e) => Err(e)
              case Ok(next) => Ok((items, Some(next)))
  }

  /**
   * The fetch from the request with followId `follow` on, the replies
   * coming in turn from `replies` (running out of them is a failed
   * connection): the transactions, and the followIds sent, in order.
   */
  function Paginate(replies: seq<Result<Json>>, follow: Json): (r: (Result<seq<Json>>, seq<Json>))
    ensures 1 <= |r.1| <= |replies| + 1 && r.1[0] == follow
    decreases |replies|
  {
    if replies == [] then (Err(Connection), [follow])
    else match PageOf(replies[0])
      case Err(e) => (Err(e), [follow])
      case Ok((items, None)) => (Ok(items), [follow])
      case Ok((items, Some(next))) =>
        var rest := Paginate(replies[1..], next);
        (if rest.0.Ok? then Ok(items + rest.0.value) else rest.0, [follow] + rest.1)
  }

  /** The transactions of the first n pages, in page order. */
  function Items(replies: seq<Result<Json>>, n: nat): seq<Json>
    requires n <= |replies| && forall i | 0 <= i < n :: PageOf(replies[i]).Ok?
  {
    if n == 0 then [] else PageOf(replies[0]).value.0 + Items(replies[1..], n - 1)
  }

  /**
   * Pagination: each request after the first carries the next_page_id of
   * the page before it, which had exist_next_page set; a complete fetch
   * ends at a page without it and is the pages' transactions in order; a
   * failed one fails at the last request sent, or for want of a reply.
   */
  lemma {:induction false} PaginateSpec(replies: seq<Result<Json>>, follow: Json)
    ensures var (r, fs) := Paginate(replies, follow);
            (forall i | 0 <= i < |fs| - 1 :: i < |replies| && PageOf(replies[i]).Ok? && PageOf(replies[i]).value.1 == Some(fs[i + 1]))
            && (r.Ok? ==> |fs| <= |replies| && (forall i | 0 <= i < |fs| :: PageOf(replies[i]).Ok?)
                          && PageOf(replies[|fs| - 1]).value.1.None? && r.value == Items(replies, |fs|))
            && (r.Err? ==> (|fs| == |replies| + 1 && r.error == Connection)
                           || (|fs| <= |replies| && PageOf(replies[|fs| - 1]) == Err(r.error)))
    decreases |replies|
  {
    if replies != [] && PageOf(replies[0]).Ok? && PageOf(replies[0]).value.1.Some? {
      var next := PageOf(replies[0]).value.1.value;
      var tail := replies[1..];
      PaginateSpec(tail, next);
      var (r, fs) := Paginate(replies, follow);
      var (r', fs') := Paginate(tail, next);
      assert fs == [follow] + fs';
      forall i | 0 <= i < |fs| - 1
        ensures i < |replies| && PageOf(replies[i]).Ok? && PageOf(replies[i]).value.1 == Some(fs[i + 1])
      {
        if i > 0 { assert replies[i] == tail[i - 1]; }
      }
      if r.Ok? {
        forall i | 0 <= i < |fs| ensures PageOf(replies[i]).Ok? {
          if i > 0 { assert replies[i] == tail[i - 1]; }
        }
        assert replies[|fs| - 1] == tail[|fs'| - 1];
      } else if |fs'| <= |tail| {
        assert replies[|fs| - 1] == tail[|fs'| - 1];
      }
    }
  }

  /** The followIds and results of a fetch, once some pages are in hand. */
  function After(items: seq<Json>, follows: seq<Json>, rest: (Result<seq<Json>>, seq<Json>)): (Result<seq<Json>>, seq<Json>) {
    (if rest.0.Ok? then Ok(items + rest.0.value) else rest.0, follows + rest.1)
  }

  lemma AfterNothing(rest: (Result<seq<Json>>, seq<Json>))
    ensures After([], [], rest) == rest
  {
    assert [] + rest.1 == rest.1;
    if rest.0.Ok? {
      assert [] + rest.0.value == rest.0.value;
    }
  }

  lemma AfterAfter(a: seq<Json>, fa: seq<Json>, b: seq<Json>, fb: seq<Json>, rest: (Result<seq<Json>>, seq<Json>))
    ensures After(a, fa, After(b, fb, rest)) == After(a + b, fa + fb, rest)
  {
    AppendAssoc(fa, fb, rest.1);
    if rest.0.Ok? {
      AppendAssoc(a, b, rest.0.value);
    }
  }

  /**
   * get_transactions: starting with an empty followId, fetch a page, add
   * its transactions, and follow next_page_id while exist_next_page is set.
   * Each request takes the next of `replies`; follows are the followIds sent.
   */
  method GetTransactions(replies: seq<Result<Json>>) returns (r: Result<seq<Json>>, follows: seq<Json>)
    ensures r == Paginate(replies, JStr("")).0 && follows == Paginate(replies, JStr("")).1
  {
    var transactions: seq<Json> := [];
    var existNextPage := true;
    var nextPageId := JStr("");
    var i := 0;
    follows := [];
    assert replies[i..] == replies;
    AfterNothing(Paginate(replies, nextPageId));
    while existNextPage
      invariant i <= |replies|
      invariant existNextPage ==> Paginate(replies, JStr("")) == After(transactions, follows, Paginate(replies[i..], nextPageId))
      invariant !existNextPage ==> Paginate(replies, JStr("")) == (Ok(transactions), follows)
      decreases |replies| - i, existNextPage
    {
      ghost var before := Paginate(replies[i..], nextPageId);
      ghost var sent := follows;
      follows := follows + [nextPageId];
      if i == |replies| {
        assert before == (Err(Connection), [nextPageId]);
        return Err(Connection), follows;
      }
      assert replies[i..][0] == replies[i] && replies[i..][1..] == replies[i + 1..];
      var page := PageOf(replies[i]);
      if page.Err? {
        assert before == (Err(page.error), [nextPageId]);
        return Err(page.error), follows;
      }
      ghost var got := transactions;
      transactions := transactions + page.value.0;
      existNextPage := page.value.1.Some?;
      if existNextPage {
        ghost var f := nextPageId;
        nextPageId := page.value.1.value;
        assert before == After(page.value.0, [f], Paginate(replies[i + 1..], nextPageId));
        AfterAfter(got, sent, page.value.0, [f], Paginate(replies[i + 1..], nextPageId));
      } else {
        assert before == (Ok(page.value.0), [nextPageId]);
      }
      i := i + 1;
    }
    return Ok(transactions), follows;
  }

}
