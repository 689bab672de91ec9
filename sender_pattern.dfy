/**
 * The shape both sender patterns share: `re.match` of
 * `^.+SEPARATOR(WORD\s+WORD...)\s*$`, where `.+` is greedy. The match found
 * is the one whose separator starts furthest to the right (but within the
 * first line, since `.` stops at a newline), and the group is a fixed number
 * of whitespace-separated words running to the end of the text.
 */
module SenderPattern {
  import opened Wrappers
  import opened Text

  /**
   * `\S+(?:\s+\S+){k-1}\s*$` from position q: k words and nothing but
   * whitespace after them. The result is where the last word ends.
   */
  function Group(s: string, q: nat, k: nat): (e: Option<nat>)
    requires q <= |s| && k >= 1
    ensures e.Some? ==> q < e.value <= |s|
    decreases k
  {
    var e := TokenEnd(s, q);
    if e == q then None
    else if k == 1 then (if SkipSpace(s, e) == |s| then Some(e) else None)
    else
      var a := SkipSpace(s, e);
      if a == e then None
      else match Group(s, a, k - 1)
        case None => None
        case Some(f) => Some(f)
  }

  /** The last separator position `.+` can stop at: within the first line, before the last character. */
  function Limit(s: string): (hi: nat)
    ensures hi < |s| || hi == 0
    ensures forall i | 0 <= i < hi :: s[i] != '\n'
  {
    if s == [] then 0
    else
      var n := Find(s, '\n', 0);
      if n < |s| - 1 then n else |s| - 1
  }

  /**
   * Greedy `.+` before the separator: positions are tried from hi down to
   * 1, and the first at which m holds is the one taken (0 when none is).
   */
  function LastMatch(m: nat -> bool, hi: nat): (p: nat)
    ensures p <= hi
  {
    if hi == 0 then 0
    else if m(hi) then hi
    else LastMatch(m, hi - 1)
  }

  /** The search finds the rightmost position up to hi at which m holds, if there is one. */
  lemma {:induction false} LastMatchSpec(m: nat -> bool, hi: nat)
    ensures LastMatch(m, hi) > 0 ==> m(LastMatch(m, hi))
    ensures forall p | LastMatch(m, hi) < p <= hi :: !m(p)
  {
    if hi > 0 && !m(hi) {
      LastMatchSpec(m, hi - 1);
    }
  }

  /** The search stops at a position where m holds and nothing after it up to hi does. */
  lemma {:induction false} LastMatchIs(m: nat -> bool, hi: nat, p: nat)
    requires 1 <= p <= hi && m(p)
    requires forall p' | p < p' <= hi :: !m(p')
    ensures LastMatch(m, hi) == p
  {
    if hi > p {
      LastMatchIs(m, hi - 1, p);
    }
  }

  /** Where m holds nowhere up to hi, the search comes back empty. */
  lemma {:induction false} LastMatchNone(m: nat -> bool, hi: nat)
    requires forall p | 1 <= p <= hi :: !m(p)
    ensures LastMatch(m, hi) == 0
  {
    if hi > 0 {
      LastMatchNone(m, hi - 1);
    }
  }

  /** The text of a group span. */
  function GroupText(s: string, span: Option<(nat, nat)>): Option<string>
    requires span.Some? ==> span.value.0 <= span.value.1 <= |s|
  {
    match span
    case None => None
    case Some((q, e)) => Some(s[q..e])
  }

  /** The words, each non-empty and free of whitespace. */
  predicate Words(words: seq<string>) {
    forall i | 0 <= i < |words| :: words[i] != [] && NoSpace(words[i])
  }

  /** Two or more words: the first, a space, and the rest joined. */
  lemma JoinHead(words: seq<string>)
    requires |words| >= 2 && Words(words)
    ensures Join(words, ' ') == words[0] + [' '] + Join(words[1..], ' ')
    ensures words[0] != [] && NoSpace(words[0]) && Words(words[1..])
  {
    assert forall i | 0 <= i < |words| - 1 :: words[1..][i] == words[i + 1];
  }

  /** s holds t at position p: `s.startswith(t, p)`. */
  predicate HasAt(s: string, p: nat, t: string) {
    p + |t| <= |s| && forall k | 0 <= k < |t| :: s[p + k] == t[k]
  }

  /** A text that ends s is placed where it starts. */
  lemma HasAtSuffix(pre: string, t: string)
    ensures HasAt(pre + t, |pre|, t)
  {
    forall k | 0 <= k < |t| ensures (pre + t)[|pre| + k] == t[k] { }
  }

  lemma HasAtSplit(s: string, p: nat, x: string, y: string)
    requires HasAt(s, p, x + y)
    ensures HasAt(s, p, x) && HasAt(s, p + |x|, y)
  {
    forall k | 0 <= k < |x| ensures s[p + k] == x[k] {
      assert (x + y)[k] == x[k];
    }
    forall k | 0 <= k < |y| ensures s[p + |x| + k] == y[k] {
      assert (x + y)[|x| + k] == y[k];
    }
  }

  /** The slice of s at a text it holds is that text. */
  lemma SliceAt(s: string, p: nat, w: string)
    requires HasAt(s, p, w)
    ensures s[p..p + |w|] == w
  {
    forall k | 0 <= k < |w| ensures s[p..p + |w|][k] == w[k] { }
  }

  /** HasAt whitespace followed by a non-space, or by the end, is skipped in full. */
  lemma SkipAt(s: string, p: nat, sp: string)
    requires HasAt(s, p, sp) && AllSpace(sp)
    requires p + |sp| < |s| ==> !IsSpace(s[p + |sp|])
    ensures SkipSpace(s, p) == p + |sp|
  {
    SkipAtFrom(s, p, sp, 0);
  }

  lemma {:induction false} SkipAtFrom(s: string, p: nat, sp: string, i: nat)
    requires HasAt(s, p, sp) && AllSpace(sp) && i <= |sp|
    requires p + |sp| < |s| ==> !IsSpace(s[p + |sp|])
    ensures SkipSpace(s, p + i) == p + |sp|
    decreases |sp| - i
  {
    if i < |sp| {
      assert s[p + i] == sp[i];
      SkipAtFrom(s, p, sp, i + 1);
    }
  }

  /** A placed word followed by whitespace, or by the end, is one token. */
  lemma TokenAt(s: string, p: nat, w: string)
    requires HasAt(s, p, w) && NoSpace(w)
    requires p + |w| < |s| ==> IsSpace(s[p + |w|])
    ensures TokenEnd(s, p) == p + |w|
  {
    TokenAtFrom(s, p, w, 0);
  }

  lemma {:induction false} TokenAtFrom(s: string, p: nat, w: string, i: nat)
    requires HasAt(s, p, w) && NoSpace(w) && i <= |w|
    requires p + |w| < |s| ==> IsSpace(s[p + |w|])
    ensures TokenEnd(s, p + i) == p + |w|
    decreases |w| - i
  {
    if i < |w| {
      assert s[p + i] == w[i];
      TokenAtFrom(s, p, w, i + 1);
    }
  }

  /** The last word of a group, with only whitespace after it. */
  lemma GroupLast(s: string, q: nat, e: nat)
    requires q < e <= |s| && TokenEnd(s, q) == e && SkipSpace(s, e) == |s|
    ensures Group(s, q, 1) == Some(e)
  {
  }

  /** A word, whitespace, and a group of k - 1 words after it. */
  lemma GroupNext(s: string, q: nat, k: nat, e: nat, a: nat, f: nat)
    requires q < e < a <= |s| && k >= 2
    requires TokenEnd(s, q) == e
    requires SkipSpace(s, e) == a
    requires Group(s, a, k - 1) == Some(f)
    ensures Group(s, q, k) == Some(f)
  {
  }

  /** One word and the trailing whitespace that ends s. */
  lemma GroupOfOneWord(s: string, q: nat, w: string, trail: string)
    requires w != [] && NoSpace(w) && AllSpace(trail)
    requires HasAt(s, q, w + trail) && q + |w| + |trail| == |s|
    ensures Group(s, q, 1) == Some(q + |w|)
  {
    HasAtSplit(s, q, w, trail);
    if trail != [] {
      assert s[q + |w| + 0] == trail[0];
    }
    TokenAt(s, q, w);
    SkipAt(s, q + |w|, trail);
    GroupLast(s, q, q + |w|);
  }

  /** A word, one space, and a non-space after it. */
  lemma WordThenSpace(s: string, q: nat, w: string)
    requires HasAt(s, q, w) && NoSpace(w)
    requires q + |w| + 1 < |s| && s[q + |w|] == ' ' && !IsSpace(s[q + |w| + 1])
    ensures TokenEnd(s, q) == q + |w| && SkipSpace(s, q + |w|) == q + |w| + 1
  {
    TokenAt(s, q, w);
    assert SkipSpace(s, q + |w| + 1) == q + |w| + 1;
  }

  /** Joined words start with the first character of the first word. */
  lemma JoinFirst(words: seq<string>)
    requires |words| >= 1 && words[0] != []
    ensures Join(words, ' ') != [] && Join(words, ' ')[0] == words[0][0]
  {
  }

  /** The first of several words ends at its length, and the rest is placed after one space. */
  lemma FirstWordOfGroup(s: string, q: nat, words: seq<string>, trail: string)
    requires |words| >= 2 && Words(words)
    requires HasAt(s, q, Join(words, ' ') + trail)
    ensures TokenEnd(s, q) == q + |words[0]| && SkipSpace(s, q + |words[0]|) == q + |words[0]| + 1
    ensures |Join(words, ' ')| == |words[0]| + 1 + |Join(words[1..], ' ')|
    ensures HasAt(s, q + |words[0]| + 1, Join(words[1..], ' ') + trail) && Words(words[1..])
  {
    var w, rest := words[0], Join(words[1..], ' ');
    JoinHead(words);
    AppendAssoc(w + [' '], rest, trail);
    HasAtSplit(s, q, w + [' '], rest + trail);
    HasAtSplit(s, q, w, [' ']);
    JoinFirst(words[1..]);
    assert s[q + |w| + 0] == [' '][0];
    assert s[q + |w| + 1 + 0] == (rest + trail)[0];
    WordThenSpace(s, q, w);
  }

  /** k words written with single spaces, and whitespace to the end, form the group. */
  lemma {:induction false} GroupOfWords(s: string, q: nat, words: seq<string>, trail: string)
    requires |words| >= 1 && Words(words) && AllSpace(trail)
    requires HasAt(s, q, Join(words, ' ') + trail) && q + |Join(words, ' ')| + |trail| == |s|
    ensures Group(s, q, |words|) == Some(q + |Join(words, ' ')|)
    decreases |words|
  {
    if |words| == 1 {
      assert Join(words, ' ') == words[0];
      GroupOfOneWord(s, q, words[0], trail);
    } else {
      var w := words[0];
      var e := q + |w|;
      var rest := Join(words[1..], ' ');
      FirstWordOfGroup(s, q, words, trail);
      GroupOfWords(s, e + 1, words[1..], trail);
      GroupNext(s, q, |words|, e, e + 1, e + 1 + |rest|);
    }
  }

  /** The same, with the text of the group: it reads as the words. */
  lemma GroupReads(s: string, q: nat, words: seq<string>, trail: string)
    requires |words| >= 1 && Words(words) && AllSpace(trail)
    requires HasAt(s, q, Join(words, ' ') + trail) && q + |Join(words, ' ')| + |trail| == |s|
    ensures Group(s, q, |words|) == Some(q + |Join(words, ' ')|)
    ensures s[q..q + |Join(words, ' ')|] == Join(words, ' ')
  {
    GroupOfWords(s, q, words, trail);
    HasAtSplit(s, q, Join(words, ' '), trail);
    SliceAt(s, q, Join(words, ' '));
  }

  /** A group of k words and one of k + 1 words cannot both follow the same position. */
  lemma {:induction false} GroupExclusive(s: string, q: nat, k: nat)
    requires q <= |s| && k >= 1
    ensures Group(s, q, k).Some? ==> Group(s, q, k + 1).None?
    decreases k
  {
    var e := TokenEnd(s, q);
    if e != q {
      var a := SkipSpace(s, e);
      if k == 1 {
        if a == |s| {
          assert TokenEnd(s, a) == a;
        }
      } else if a != e {
        GroupExclusive(s, a, k - 1);
      }
    }
  }

}
