/**
 * The first, standalone PrivatBank-to-spreadsheet poller: the sender read
 * from the narrative after its last comma, the statement record parsed with
 * pydantic validators, the whole-record difference between two fetches, and
 * the polling cycle that stores, snapshots and notifies.
 */
module Pb2Gsheet {
  import opened Wrappers
  import opened Text
  import opened OrderedDict
  import opened Json
  import opened Sorting
  import opened SetDiff
  import opened SenderPattern
  import Transactions
  import Privat24

  type Record = Transactions.Record
  type Timestamp = Transactions.Timestamp

  // ---------------------------------------------------------------------
  // sender_pat: ^.+,\s*(\S+\s+\S+\s+\S+)\s*$

  /**
   * The rest of the pattern with the comma at p: whitespace, then three
   * words and nothing but whitespace to the end. The result is the span of
   * the group.
   */
  function CommaMatch(s: string, p: nat): (r: Option<(nat, nat)>)
    ensures r.Some? ==> p < |s| && s[p] == ',' && r.value.0 == SkipSpace(s, p + 1)
    ensures r.Some? ==> r.value.0 < r.value.1 <= |s| && Group(s, r.value.0, 3) == Some(r.value.1)
  {
    if p < |s| && s[p] == ',' then
      var q := SkipSpace(s, p + 1);
      match Group(s, q, 3)
      case Some(e) => Some((q, e))
      case None => None
    else None
  }

  /** The positions at which the comma and the rest of the pattern match. */
  function Matches(s: string): nat -> bool {
    (p: nat) => CommaMatch(s, p).Some?
  }

  /**
   * `sender_pat.match(osnd).group(1)`, or None when there is no match: the
   * three words after the rightmost comma in the first line after which the
   * rest of the pattern matches.
   */
  function Sender(osnd: string): Option<string> {
    var p := LastMatch(Matches(osnd), Limit(osnd));
    if p == 0 then None else GroupText(osnd, CommaMatch(osnd, p))
  }

  /**
   * There is a sender exactly when the rest of the pattern matches after
   * some comma in the first line past its first character, and it is the
   * group after the rightmost such comma.
   */
  lemma SenderSpec(osnd: string)
    ensures Sender(osnd).Some? <==> exists p | 1 <= p <= Limit(osnd) :: CommaMatch(osnd, p).Some?
    ensures Sender(osnd).Some? ==> exists p | 1 <= p <= Limit(osnd) ::
              osnd[p] == ',' && GroupText(osnd, CommaMatch(osnd, p)) == Sender(osnd)
              && forall p' | p < p' <= Limit(osnd) :: CommaMatch(osnd, p').None?
  {
    var m, hi := Matches(osnd), Limit(osnd);
    LastMatchSpec(m, hi);
    var p := LastMatch(m, hi);
    forall p' | p < p' <= hi ensures CommaMatch(osnd, p').None? {
      assert !m(p');
    }
    if p > 0 {
      assert m(p);
      assert GroupText(osnd, CommaMatch(osnd, p)) == Sender(osnd);
    }
    if exists p' | 1 <= p' <= hi :: CommaMatch(osnd, p').Some? {
      var p' :| 1 <= p' <= hi && CommaMatch(osnd, p').Some?;
      assert m(p');
    }
  }

  /** A narrative without a comma has no sender. */
  lemma NoCommaNoSender(osnd: string)
    requires Excludes(osnd, ',')
    ensures Sender(osnd) == None
  {
    forall p | 1 <= p <= Limit(osnd) ensures !Matches(osnd)(p) { }
    LastMatchNone(Matches(osnd), Limit(osnd));
  }

  /**
   * A comma at p after which the group runs from q to the end, no comma
   * after it and no line break before it: the sender is the group.
   */
  lemma SenderAtComma(s: string, p: nat, q: nat, words: seq<string>, trail: string)
    requires 1 <= p < |s| && s[p] == ',' && SkipSpace(s, p + 1) == q
    requires |words| == 3 && Words(words) && AllSpace(trail)
    requires HasAt(s, q, Join(words, ' ') + trail) && q + |Join(words, ' ')| + |trail| == |s|
    requires Excludes(s[p + 1..], ',')
    requires forall i | 0 <= i < p :: s[i] != '\n'
    ensures Sender(s) == Some(Join(words, ' '))
  {
    GroupReads(s, q, words, trail);
    CommaMatchAt(s, p, q, q + |Join(words, ' ')|);
    NoMatchAfter(s, p);
    WithinFirstLine(s, p);
    LastMatchIs(Matches(s), Limit(s), p);
  }

  lemma CommaMatchAt(s: string, p: nat, q: nat, e: nat)
    requires p < |s| && s[p] == ',' && SkipSpace(s, p + 1) == q && Group(s, q, 3) == Some(e)
    ensures Matches(s)(p) && CommaMatch(s, p) == Some((q, e))
  {
  }

  /** No comma after p: the pattern cannot match later. */
  lemma NoMatchAfter(s: string, p: nat)
    requires p < |s| && Excludes(s[p + 1..], ',')
    ensures forall p' | p < p' <= Limit(s) :: !Matches(s)(p')
  {
    forall p' | p < p' <= Limit(s) ensures !Matches(s)(p') {
      assert s[p'] == s[p + 1..][p' - p - 1];
    }
  }

  /** A position of s with no line break before it is one `.+` can stop at. */
  lemma WithinFirstLine(s: string, p: nat)
    requires p < |s|
    requires forall i | 0 <= i < p :: s[i] != '\n'
    ensures p <= Limit(s)
  {
    var n := Find(s, '\n', 0);
    assert n >= p;
  }

  /** A narrative written as text before the comma, the comma, whitespace and the rest. */
  lemma NarrativeLayout(pre: string, sp: string, g: string)
    requires Excludes(pre, '\n')
    ensures var s := pre + "," + sp + g;
            |pre| < |s| && s[|pre|] == ','
            && HasAt(s, |pre| + 1, sp) && HasAt(s, |pre| + 1 + |sp|, g)
            && |pre| + 1 + |sp| + |g| == |s|
            && s[|pre| + 1..] == sp + g
            && forall i | 0 <= i < |pre| :: s[i] != '\n'
  {
    var s := pre + "," + sp + g;
    forall k | 0 <= k < |sp| ensures s[|pre| + 1 + k] == sp[k] { }
    forall k | 0 <= k < |g| ensures s[|pre| + 1 + |sp| + k] == g[k] { }
    assert s[|pre| + 1..] == sp + g;
    forall i | 0 <= i < |pre| ensures s[i] != '\n' {
      assert s[i] == pre[i];
    }
  }

  /** Whitespace placed before the words is skipped up to the first word. */
  lemma SkipToWords(s: string, r: nat, sp: string, words: seq<string>, trail: string)
    requires AllSpace(sp) && |words| >= 1 && Words(words)
    requires HasAt(s, r, sp) && HasAt(s, r + |sp|, Join(words, ' ') + trail)
    ensures SkipSpace(s, r) == r + |sp|
  {
    JoinFirst(words);
    assert s[r + |sp| + 0] == (Join(words, ' ') + trail)[0];
    SkipAt(s, r, sp);
  }

  /** Whitespace and comma-free text hold no comma together. */
  lemma NoCommaAfter(sp: string, g: string)
    requires AllSpace(sp) && Excludes(g, ',')
    ensures Excludes(sp + g, ',')
  {
    assert forall i | 0 <= i < |sp| :: IsSpace(sp[i]);
  }

  /**
   * The sender is the three words after the last comma: for a narrative
   * `pre + "," + whitespace + words + trailing whitespace` with no comma
   * after `pre` and no line break in it, the group is the words.
   */
  lemma SenderAfterLastComma(pre: string, sp: string, words: seq<string>, trail: string)
    requires pre != [] && Excludes(pre, '\n') && AllSpace(sp)
    requires |words| == 3 && Words(words) && AllSpace(trail)
    requires Excludes(Join(words, ' ') + trail, ',')
    ensures Sender(pre + "," + sp + (Join(words, ' ') + trail)) == Some(Join(words, ' '))
  {
    var g := Join(words, ' ') + trail;
    var s := pre + "," + sp + g;
    NarrativeLayout(pre, sp, g);
    SkipToWords(s, |pre| + 1, sp, words, trail);
    NoCommaAfter(sp, g);
    SenderAtComma(s, |pre|, |pre| + 1 + |sp|, words, trail);
  }

  lemma ExcludesAppend(x: string, y: string, c: char)
    requires Excludes(x, c) && Excludes(y, c)
    ensures Excludes(x + y, c)
  {
  }

  /** Three comma-free words, the last ending the narrative, make the sender. */
  lemma SenderOfThreeWords(pre: string, a: string, b: string, c: string)
    requires pre != [] && Excludes(pre, '\n')
    requires a != [] && b != [] && c != [] && NoSpace(a) && NoSpace(b) && NoSpace(c)
    requires Excludes(a, ',') && Excludes(b, ',') && Excludes(c, ',')
    ensures Sender(pre + ", " + a + " " + b + " " + c) == Some(a + " " + b + " " + c)
  {
    var words := [a, b, c];
    var j := a + " " + b + " " + c;
    JoinThree(a, b, c);
    assert Words(words);
    assert Excludes(" ", ',');
    ExcludesAppend(a, " ", ',');
    ExcludesAppend(a + " ", b, ',');
    ExcludesAppend(a + " " + b, " ", ',');
    ExcludesAppend(a + " " + b + " ", c, ',');
    assert j + "" == j;
    SenderAfterLastComma(pre, " ", words, "");
    assert pre + "," + " " + (j + "") == pre + ", " + a + " " + b + " " + c by {
      AppendAssoc(pre, ",", " ");
      AppendThree(pre + ", ", a, b, c);
    }
  }

  // The narratives the test suite pins down, each given as its pieces.

  lemma SenderAfterComma(pre: string, a: string, b: string, c: string)
    requires pre == "Плата за послуги" && a == "Шевченко" && b == "Тарас" && c == "Григорович"
    ensures Sender(pre + ", " + a + " " + b + " " + c) == Some(a + " " + b + " " + c)
  {
    assert Excludes(pre, '\n');
    assert NoSpace(a) && NoSpace(b) && NoSpace(c);
    assert Excludes(a, ',') && Excludes(b, ',') && Excludes(c, ',');
    SenderOfThreeWords(pre, a, b, c);
  }

  /** A cleaned text, in the sense of the newer pattern, holds no comma. */
  lemma CleanNoComma(x: string)
    requires Privat24.Clean(x)
    ensures Excludes(x, ',')
  {
  }

  lemma NoCommaForCardCredit(kind: string, part: string, date: string, via: string, card: string)
    requires kind == "Переказ " && part == "(Кредитна частина) " && date == "01.02.2018 00:00:00 "
    requires via == "по картці " && card == "1234567890123456"
    ensures Sender(kind + part + date + via + card) == None
  {
    var r := "ереказ ";
    Privat24.CardCreditPieces(kind, part, date, via, card);
    CleanNoComma(r + part + date + via + card);
    ExcludesAppend("П", r + part + date + via + card, ',');
    AppendAssoc("П", r, part);
    AppendAssoc("П", r + part, date);
    AppendAssoc("П", r + part + date, via);
    AppendAssoc("П", r + part + date + via, card);
    NoCommaNoSender(kind + part + date + via + card);
  }

  lemma NoCommaForTopUp(card: string, what: string, where: string)
    requires card == "1234 **** **** 5678 " && what == "Зарахування переказу" && where == " на картку"
    ensures Sender(card + what + where) == None
  {
    var r := "234 **** **** 5678 ";
    Privat24.TopUpPieces(card, what, where);
    CleanNoComma(r + what + where);
    ExcludesAppend("1", r + what + where, ',');
    AppendAssoc("1", r, what);
    AppendAssoc("1", r + what, where);
    NoCommaNoSender(card + what + where);
  }

  /**
   * The "Переказ вiд" narrative has no comma, so this pattern does not
   * match it, though the test suite expects the group "JANE DOE".
   */
  lemma NoSenderForTransfer(card: string, time: string, via: string, a: string, b: string)
    requires card == "1234 **** **** 5678 " && time == "24.01.2019 12:34:56 " && via == "Переказ вiд "
    requires a == "JANE" && b == "DOE"
    ensures Sender(card + time + via + a + " " + b) == None
  {
    assert Excludes(card, ',') && Excludes(time, ',') && Excludes(via, ',');
    assert Excludes(a, ',') && Excludes(" ", ',') && Excludes(b, ',');
    ExcludesAppend(card, time, ',');
    ExcludesAppend(card + time, via, ',');
    ExcludesAppend(card + time + via, a, ',');
    ExcludesAppend(card + time + via + a, " ", ',');
    ExcludesAppend(card + time + via + a + " ", b, ',');
    NoCommaNoSender(card + time + via + a + " " + b);
  }

  /** The same for the "Вiд" narrative. */
  lemma NoSenderForFrom(card: string, time: string, via: string, a: string, b: string)
    requires card == "1234 **** **** 5678 " && time == "24.01.2019 12:34:56 " && via == "Вiд "
    requires a == "JANE" && b == "DOE"
    ensures Sender(card + time + via + a + " " + b) == None
  {
    assert Excludes(card, ',') && Excludes(time, ',') && Excludes(via, ',');
    assert Excludes(a, ',') && Excludes(" ", ',') && Excludes(b, ',');
    ExcludesAppend(card, time, ',');
    ExcludesAppend(card + time, via, ',');
    ExcludesAppend(card + time + via, a, ',');
    ExcludesAppend(card + time + via + a, " ", ',');
    ExcludesAppend(card + time + via + a + " ", b, ',');
    NoCommaNoSender(card + time + via + a + " " + b);
  }

  // ---------------------------------------------------------------------
  // Transaction: the pydantic model of a statement

  /** A parsed statement; `at` is date_time_dat_od_tim_p, `day` the normalised dat_od. */
  datatype Statement = Statement(
    account: string, day: string, at: Timestamp, sender: string, sum: string, credit: bool, orig: Record)

  /** The sender field: the title-cased group when the pattern matches, else the record's own "sender", else "". */
  function SenderField(rec: Record, osnd: string): Option<string> {
    match Sender(osnd)
    case Some(g) => Some(Title(g))
    case None =>
      match Privat24.Field(rec, "sender")
      case None => Some("")
      case Some(j) => AsStr(j)
  }

  /** A string field run through dateutil's parse with dayfirst (parseTs); anything else fails. */
  function DateField(rec: Record, key: string, parseTs: string -> Option<Timestamp>): Option<Timestamp> {
    match Privat24.Field(rec, key)
    case Some(JStr(v)) => parseTs(v)
    case _ => None
  }

  /** A `str` field: present, and a value pydantic turns into a string. */
  function StrField(rec: Record, key: string): Option<string> {
    match Privat24.Field(rec, key)
    case Some(j) => AsStr(j)
    case None => None
  }

  /**
   * Transaction.parse_obj(rec): the root validators lower-case the keys and
   * read the sender from "osnd", then the fields are validated. A record
   * without "osnd" raises KeyError from the root validator; every other
   * failure is a ValidationError. trantype is CREDIT for "C" and the
   * ignored member for every other value but null.
   */
  function Parse(rec: Record, parseTs: string -> Option<Timestamp>): (r: Result<Statement>)
    ensures Privat24.Field(rec, "osnd").None? <==> r == Err(KeyError)
    ensures r.Err? ==> r.error == KeyError || r.error == Validation
    ensures r.Ok? <==>
              Privat24.Field(rec, "osnd").Some? && Privat24.Field(rec, "osnd").value.JStr?
              && SenderField(rec, Privat24.Field(rec, "osnd").value.s).Some?
              && StrField(rec, "aut_my_acc").Some? && StrField(rec, "sum_e").Some?
              && DateField(rec, "dat_od", parseTs).Some?
              && DateField(rec, "date_time_dat_od_tim_p", parseTs).Some?
              && Privat24.Field(rec, "trantype").Some? && !Privat24.Field(rec, "trantype").value.JNull?
    ensures r.Ok? ==>
              var t := r.value;
              SenderField(rec, Privat24.Field(rec, "osnd").value.s) == Some(t.sender)
              && StrField(rec, "aut_my_acc") == Some(t.account)
              && StrField(rec, "sum_e") == Some(t.sum)
              && DateField(rec, "dat_od", parseTs).value.day == t.day
              && DateField(rec, "date_time_dat_od_tim_p", parseTs) == Some(t.at)
              && (t.credit <==> Privat24.Field(rec, "trantype") == Some(JStr("C")))
              && t.orig == rec
  {
    var osnd := Privat24.Field(rec, "osnd");
    if osnd.None? then Err(KeyError)
    else if !osnd.value.JStr? then Err(Validation)
    else
      var sender := SenderField(rec, osnd.value.s);
      var account := StrField(rec, "aut_my_acc");
      var sum := StrField(rec, "sum_e");
      var day := DateField(rec, "dat_od", parseTs);
      var at := DateField(rec, "date_time_dat_od_tim_p", parseTs);
      var tranType := Privat24.Field(rec, "trantype");
      if sender.None? || account.None? || sum.None? || day.None? || at.None?
         || tranType.None? || tranType.value.JNull?
      then Err(Validation)
      else Ok(Statement(account.value, day.value.day, at.value, sender.value, sum.value,
                        tranType.value == JStr("C"), rec))
  }

  /**
   * The sender of a parsed statement is the title-cased group when the
   * narrative matches, and "" when it does not and the record has no
   * "sender" key.
   */
  lemma ParseSender(rec: Record, parseTs: string -> Option<Timestamp>)
    requires Parse(rec, parseTs).Ok?
    ensures var osnd := Privat24.Field(rec, "osnd").value.s;
            (Sender(osnd).Some? ==> Parse(rec, parseTs).value.sender == Title(Sender(osnd).value))
            && (Sender(osnd).None? && Privat24.Field(rec, "sender").None? ==> Parse(rec, parseTs).value.sender == "")
  {
  }

  /** The order of `__lt__`: by date_time_dat_od_tim_p. */
  function At(t: Statement): int { t.at.instant }

  /** store_transaction's row: dat_od, sum_e and sender. */
  function Row(t: Statement): seq<string> { [t.day, t.sum, t.sender] }

  /** bot_nofify's text. */
  function NoticeText(t: Statement): string {
    "Безготівкове зарахування: " + t.sum + " грн"
    + (if t.sender != "" then "\nПлатник: " + t.sender else "")
  }

  // ---------------------------------------------------------------------
  // Accounts and the store condition

  /** `[acc for acc in PRIVAT24_ACCOUNTS.split(",") if acc]`, the variable unset counting as "". */
  function Accounts(env: Option<string>): (r: seq<string>)
    ensures forall x :: x in r <==> x != [] && x in Split(if env.Some? then env.value else "", ',')
  {
    CommaList(if env.Some? then env.value else "")
  }

  /** Account numbers written out comma-separated are read back as they were. */
  lemma AccountsRoundTrip(xs: seq<string>)
    requires |xs| > 0 && forall k | 0 <= k < |xs| :: xs[k] != [] && Excludes(xs[k], ',')
    ensures Accounts(Some(Join(xs, ','))) == xs
  {
    CommaListRoundTrip(xs);
  }

  /** The store condition: a credit to a tracked account, every account being tracked when none are listed. */
  predicate Tracked(t: Statement, accounts: seq<string>) {
    t.credit && (accounts == [] || t.account in accounts)
  }

  /** For a parsed record: stored iff its trantype is "C" and its account is listed (or none are). */
  lemma ParsedTracked(rec: Record, parseTs: string -> Option<Timestamp>, accounts: seq<string>)
    requires Parse(rec, parseTs).Ok?
    ensures Tracked(Parse(rec, parseTs).value, accounts) <==>
              Privat24.Field(rec, "trantype") == Some(JStr("C"))
              && (accounts == [] || StrField(rec, "aut_my_acc").value in accounts)
  {
  }

  // ---------------------------------------------------------------------
  // new_transaction: the whole-record difference

  /** The JSON values Python cannot hash: lists and dicts. */
  predicate Unhashable(j: Json) { j.JArr? || j.JObj? }

  /**
   * What `frozenset(t.items())` raises for an element t of a fetch: an
   * AttributeError when t is not a dict, a TypeError when one of its values
   * cannot be hashed.
   */
  function ItemsError(j: Json): (e: Option<Error>)
    ensures e.None? <==> j.JObj? && forall i | 0 <= i < |j.members| :: !Unhashable(j.members[i].1)
  {
    if !j.JObj? then Some(AttributeError)
    else if exists i | 0 <= i < |j.members| :: Unhashable(j.members[i].1) then Some(TypeError)
    else None
  }

  /** The error of the first element that raises, in list order. */
  function FirstError(js: seq<Json>): (e: Option<Error>)
    ensures e.None? <==> forall i | 0 <= i < |js| :: ItemsError(js[i]).None?
    ensures e.Some? ==> exists i | 0 <= i < |js| :: ItemsError(js[i]) == e
  {
    if js == [] then None
    else if ItemsError(js[0]).Some? then ItemsError(js[0])
    else
      assert forall i | 0 <= i < |js| - 1 :: js[1..][i] == js[i + 1];
      FirstError(js[1..])
  }

  /** The dicts of a fetch whose every element is one. */
  function Records(js: seq<Json>): (rs: seq<Record>)
    requires forall i | 0 <= i < |js| :: js[i].JObj?
    ensures |rs| == |js| && forall i | 0 <= i < |js| :: rs[i] == js[i].members
  {
    seq(|js|, i requires 0 <= i < |js| => js[i].members)
  }

  /** `frozenset(t.items())`: a record as the set of its key/value pairs. */
  function ItemSet(rec: Record): set<(string, Json)> {
    set p | p in rec
  }

  /** The item set of a statement's original record. */
  function Items(t: Statement): set<(string, Json)> { ItemSet(t.orig) }

  /** Transaction.parse_obj as a function of the record alone. */
  function ParseWith(parseTs: string -> Option<Timestamp>): Record -> Result<Statement> {
    rec => Parse(rec, parseTs)
  }

  /** Parse every record, failing at the first that does not parse. */
  function ParseEach(rs: seq<Record>, parse: Record -> Result<Statement>): (r: Result<seq<Statement>>)
    ensures r.Ok? <==> forall i | 0 <= i < |rs| :: parse(rs[i]).Ok?
    ensures r.Ok? ==> |r.value| == |rs| && forall i | 0 <= i < |rs| :: r.value[i] == parse(rs[i]).value
    ensures r.Err? ==> exists i | 0 <= i < |rs| :: parse(rs[i]) == Err(r.error)
  {
    if rs == [] then Ok([])
    else match parse(rs[0])
      case Err(e) => Err(e)
      case Ok(t) =>
        assert forall i | 0 <= i < |rs| - 1 :: rs[1..][i] == rs[i + 1];
        match ParseEach(rs[1..], parse)
        case Err(e) => Err(e)
        case Ok(ts) => Ok([t] + ts)
  }

  /**
   * new_transaction(prev, curr): the records of curr whose item sets prev
   * lacks, parsed and sorted by time. Building the sets raises for an
   * element of prev first, then of curr; a record that does not parse
   * raises too.
   */
  function NewStatements(prev: seq<Json>, curr: seq<Json>, parseTs: string -> Option<Timestamp>): (r: Result<seq<Statement>>)
    ensures FirstError(prev).Some? ==> r == Err(FirstError(prev).value)
    ensures FirstError(prev).None? && FirstError(curr).Some? ==> r == Err(FirstError(curr).value)
  {
    if FirstError(prev).Some? then Err(FirstError(prev).value)
    else if FirstError(curr).Some? then Err(FirstError(curr).value)
    else
      match ParseEach(Diff(Records(prev), Records(curr), ItemSet), ParseWith(parseTs))
      case Err(e) => Err(e)
      case Ok(ts) => Ok(SortBy(ts, At))
  }

  /**
   * The new statements are those of the records of curr whose set of
   * key/value pairs no record of prev has, each set once, oldest first;
   * every other record of curr has its pairs in prev.
   */
  lemma NewStatementsSpec(prev: seq<Json>, curr: seq<Json>, parseTs: string -> Option<Timestamp>)
    requires NewStatements(prev, curr, parseTs).Ok?
    ensures var txs := NewStatements(prev, curr, parseTs).value;
            SortedBy(txs, At)
            && (forall x | x in txs ::
                  JObj(x.orig) in curr && Parse(x.orig, parseTs) == Ok(x)
                  && forall p | p in prev :: p.JObj? && ItemSet(p.members) != Items(x))
            && (forall c | c in curr ::
                  c.JObj? && ((exists p | p in prev :: p.JObj? && ItemSet(p.members) == ItemSet(c.members))
                              || (exists x | x in txs :: Items(x) == ItemSet(c.members))))
            && DistinctBy(txs, Items)
  {
    var parse := ParseWith(parseTs);
    var d := Diff(Records(prev), Records(curr), ItemSet);
    var ts := ParseEach(d, parse).value;
    var txs := SortBy(ts, At);
    assert NewStatements(prev, curr, parseTs).value == txs;
    ParseKeepsRecord(parseTs);
    FreshStatements(prev, curr, d, ts, txs, parse);
    forall x | x in txs ensures Parse(x.orig, parseTs) == Ok(x) {
      assert parse(x.orig) == Ok(x);
    }
  }

  /** NewStatementsSpec for any parser that keeps the record it reads. */
  lemma FreshStatements(prev: seq<Json>, curr: seq<Json>, d: seq<Record>, ts: seq<Statement>, txs: seq<Statement>,
                        parse: Record -> Result<Statement>)
    requires KeepsRecord(parse)
    requires FirstError(prev).None? && FirstError(curr).None?
    requires d == Diff(Records(prev), Records(curr), ItemSet)
    requires ParseEach(d, parse) == Ok(ts) && txs == SortBy(ts, At)
    ensures SortedBy(txs, At) && DistinctBy(txs, Items)
    ensures forall x | x in txs ::
              JObj(x.orig) in curr && parse(x.orig) == Ok(x)
              && forall p | p in prev :: p.JObj? && ItemSet(p.members) != Items(x)
    ensures forall c | c in curr ::
              c.JObj? && ((exists p | p in prev :: p.JObj? && ItemSet(p.members) == ItemSet(c.members))
                          || (exists x | x in txs :: Items(x) == ItemSet(c.members)))
  {
    DiffInFetch(prev, curr, d);
    ParsedDiff(d, ts, txs, parse);
    forall c | c in curr
      ensures (exists p | p in prev :: p.JObj? && ItemSet(p.members) == ItemSet(c.members))
              || (exists x | x in txs :: Items(x) == ItemSet(c.members))
    {
      if !exists p | p in prev :: p.JObj? && ItemSet(p.members) == ItemSet(c.members) {
        var y :| y in d && ItemSet(y) == ItemSet(c.members);
        var x :| x in txs && x.orig == y;
      }
    }
  }

  /** The difference of two fetches, in terms of the fetched values. */
  lemma DiffInFetch(prev: seq<Json>, curr: seq<Json>, d: seq<Record>)
    requires FirstError(prev).None? && FirstError(curr).None?
    requires d == Diff(Records(prev), Records(curr), ItemSet)
    ensures forall y | y in d :: JObj(y) in curr && forall p | p in prev :: p.JObj? && ItemSet(p.members) != ItemSet(y)
    ensures forall c | c in curr ::
              c.JObj? && ((exists p | p in prev :: p.JObj? && ItemSet(p.members) == ItemSet(c.members))
                          || (exists y | y in d :: ItemSet(y) == ItemSet(c.members)))
    ensures DistinctBy(d, ItemSet)
  {
    var rp, rc := Records(prev), Records(curr);
    DiffSpec(rp, rc, ItemSet);
    forall y | y in d ensures JObj(y) in curr && forall p | p in prev :: p.JObj? && ItemSet(p.members) != ItemSet(y) {
      var c :| 0 <= c < |rc| && rc[c] == y;
      assert curr[c] == JObj(y);
      forall p | p in prev ensures p.JObj? && ItemSet(p.members) != ItemSet(y) {
        var q :| 0 <= q < |prev| && prev[q] == p;
        assert rp[q] in rp;
      }
    }
    forall c | c in curr
      ensures c.JObj? && ((exists p | p in prev :: p.JObj? && ItemSet(p.members) == ItemSet(c.members))
                          || (exists y | y in d :: ItemSet(y) == ItemSet(c.members)))
    {
      var q :| 0 <= q < |curr| && curr[q] == c;
      assert rc[q] in rc;
      if exists p | p in rp :: ItemSet(p) == ItemSet(rc[q]) {
        var p :| p in rp && ItemSet(p) == ItemSet(rc[q]);
        var a :| 0 <= a < |rp| && rp[a] == p;
        assert prev[a] in prev;
      }
    }
  }

  /** Parsing the difference and sorting it: each statement is that of a record of the difference, and back. */
  /** A parser that keeps, in each statement it returns, the record it read. */
  ghost predicate KeepsRecord(parse: Record -> Result<Statement>) {
    forall rec | parse(rec).Ok? :: parse(rec).value.orig == rec
  }

  lemma ParseKeepsRecord(parseTs: string -> Option<Timestamp>)
    ensures KeepsRecord(ParseWith(parseTs))
  {
    forall rec | ParseWith(parseTs)(rec).Ok? ensures ParseWith(parseTs)(rec).value.orig == rec {
      assert ParseWith(parseTs)(rec) == Parse(rec, parseTs);
    }
  }

  lemma ParsedDiff(d: seq<Record>, ts: seq<Statement>, txs: seq<Statement>, parse: Record -> Result<Statement>)
    requires KeepsRecord(parse)
    requires ParseEach(d, parse) == Ok(ts) && txs == SortBy(ts, At)
    requires DistinctBy(d, ItemSet)
    ensures SortedBy(txs, At) && DistinctBy(txs, Items)
    ensures forall x | x in txs :: x.orig in d && parse(x.orig) == Ok(x)
    ensures forall y | y in d :: exists x | x in txs :: x.orig == y
  {
    SortBySorted(ts, At);
    forall x | x in txs ensures x.orig in d && parse(x.orig) == Ok(x) {
      assert x in multiset(ts);
      var i :| 0 <= i < |ts| && ts[i] == x;
      assert parse(d[i]) == Ok(x);
    }
    forall y | y in d ensures exists x | x in txs :: x.orig == y {
      var i :| 0 <= i < |d| && d[i] == y;
      assert ts[i] in multiset(txs);
      assert parse(d[i]) == Ok(ts[i]);
    }
    DistinctParsed(d, ts, parse);
    PermutationDistinctBy(ts, txs, Items);
  }

  lemma DistinctParsed(d: seq<Record>, ts: seq<Statement>, parse: Record -> Result<Statement>)
    requires KeepsRecord(parse) && DistinctBy(d, ItemSet)
    requires |ts| == |d| && forall i | 0 <= i < |d| :: parse(d[i]) == Ok(ts[i])
    ensures DistinctBy(ts, Items)
  {
    forall i, j | 0 <= i < j < |ts| ensures Items(ts[i]) != Items(ts[j]) {
      assert parse(d[i]) == Ok(ts[i]) && parse(d[j]) == Ok(ts[j]);
      assert ts[i].orig == d[i] && ts[j].orig == d[j];
    }
  }


  /** A fetch compared with itself has nothing new. */
  lemma NothingNewInItself(curr: seq<Json>, parseTs: string -> Option<Timestamp>)
    requires FirstError(curr).None?
    ensures NewStatements(curr, curr, parseTs) == Ok([])
  {
    var rc := Records(curr);
    DiffSelf(rc, ItemSet);
    assert ParseEach([], ParseWith(parseTs)) == Ok([]);
  }

  // ---------------------------------------------------------------------
  // process_transactions

  /** An effect on the world outside, in the order it happens. */
  datatype Effect =
    | Appended(row: seq<string>)   // a row appended to the cashless worksheet
    | Wrote(snapshot: seq<Json>)   // transactions.json overwritten
    | Notified(text: string)       // a broadcast to the supervisors

  /** The position of the first statement to be stored whose store fails, or |txs|. */
  function StoreFailure(txs: seq<Statement>, accounts: seq<string>, storeOk: nat -> bool): (k: nat)
    ensures k <= |txs|
    ensures k < |txs| ==> Tracked(txs[k], accounts) && !storeOk(k)
    ensures forall i | 0 <= i < k :: !Tracked(txs[i], accounts) || storeOk(i)
  {
    StoreFailureFrom(txs, 0, accounts, storeOk)
  }

  function StoreFailureFrom(txs: seq<Statement>, i: nat, accounts: seq<string>, storeOk: nat -> bool): (k: nat)
    requires i <= |txs|
    ensures i <= k <= |txs|
    ensures k < |txs| ==> Tracked(txs[k], accounts) && !storeOk(k)
    ensures forall j | i <= j < k :: !Tracked(txs[j], accounts) || storeOk(j)
    decreases |txs| - i
  {
    if i == |txs| then i
    else if Tracked(txs[i], accounts) && !storeOk(i) then i
    else StoreFailureFrom(txs, i + 1, accounts, storeOk)
  }

  /** One statement whose store, if attempted, succeeded: row, snapshot of the whole fetch, notice. */
  function Step(t: Statement, accounts: seq<string>, curr: seq<Json>, notified: bool): seq<Effect> {
    if !Tracked(t, accounts) then []
    else [Appended(Row(t)), Wrote(curr)] + (if notified then [Notified(NoticeText(t))] else [])
  }

  /** The effects of the first n statements of a cycle. */
  function CycleEffects(txs: seq<Statement>, n: nat, accounts: seq<string>, curr: seq<Json>,
                        notifyOk: nat -> bool): seq<Effect>
    requires n <= |txs|
  {
    if n == 0 then []
    else CycleEffects(txs, n - 1, accounts, curr, notifyOk) + Step(txs[n - 1], accounts, curr, notifyOk(n - 1))
  }

  /** What a cycle over the fetch curr returns: prev when a store failed, else curr. */
  function Returned(prev: seq<Json>, curr: seq<Json>, txs: seq<Statement>, accounts: seq<string>,
                    storeOk: nat -> bool): seq<Json> {
    if StoreFailure(txs, accounts, storeOk) < |txs| then prev else curr
  }

  /** The poller's effects on the worksheet, the snapshot file and the chat. */
  class Poller {
    var effects: seq<Effect>

    constructor ()
      ensures effects == []
    {
      effects := [];
    }

    /** store_transaction: the row is appended unless the worksheet call fails. */
    method StoreTransaction(t: Statement, ok: bool)
      modifies this
      ensures effects == old(effects) + (if ok then [Appended(Row(t))] else [])
    {
      if ok {
        effects := effects + [Appended(Row(t))];
      }
    }

    /** write_transactions: the snapshot file is overwritten. */
    method WriteTransactions(snapshot: seq<Json>)
      modifies this
      ensures effects == old(effects) + [Wrote(snapshot)]
    {
      effects := effects + [Wrote(snapshot)];
    }

    /** bot_nofify: the notice reaches the supervisors unless sending fails. */
    method BotNotify(t: Statement, delivered: bool)
      modifies this
      ensures effects == old(effects) + (if delivered then [Notified(NoticeText(t))] else [])
    {
      if delivered {
        effects := effects + [Notified(NoticeText(t))];
      }
    }

    /** One pass of the loop for a statement whose store, if attempted, succeeds. */
    method Handle(t: Statement, accounts: seq<string>, curr: seq<Json>, notified: bool)
      modifies this
      ensures effects == old(effects) + Step(t, accounts, curr, notified)
    {
      if Tracked(t, accounts) {
        StoreTransaction(t, true);
        WriteTransactions(curr);
        BotNotify(t, notified);
      }
    }

    /**
     * process_transactions(prev). The fetch is get_transactions answered by
     * `replies`; storeOk and notifyOk give the outcome of storing and of
     * notifying the i-th new statement. A failed fetch returns prev; an
     * error of new_transaction propagates; a failed store returns prev at
     * once; otherwise the fetch is returned.
     */
    method ProcessTransactions(prev: seq<Json>, replies: seq<Result<Json>>,
                               parseTs: string -> Option<Timestamp>, accounts: seq<string>,
                               storeOk: nat -> bool, notifyOk: nat -> bool)
      returns (r: Result<seq<Json>>)
      modifies this
      ensures var fetched := Privat24.Paginate(replies, JStr("")).0;
              (fetched.Err? ==> r == Ok(prev) && effects == old(effects))
              && (fetched.Ok? && NewStatements(prev, fetched.value, parseTs).Err? ==>
                    r == Err(NewStatements(prev, fetched.value, parseTs).error) && effects == old(effects))
              && (fetched.Ok? && NewStatements(prev, fetched.value, parseTs).Ok? ==>
                    var txs := NewStatements(prev, fetched.value, parseTs).value;
                    r == Ok(Returned(prev, fetched.value, txs, accounts, storeOk))
                    && effects == old(effects)
                                  + CycleEffects(txs, StoreFailure(txs, accounts, storeOk), accounts, fetched.value, notifyOk))
    {
      var fetched, _ := Privat24.GetTransactions(replies);
      if fetched.Err? {
        return Ok(prev);
      }
      var curr := fetched.value;
      var pending := NewStatements(prev, curr, parseTs);
      if pending.Err? {
        return Err(pending.error);
      }
      var snapshot := Reconcile(prev, curr, pending.value, accounts, storeOk, notifyOk);
      return Ok(snapshot);
    }

    /**
     * The loop of process_transactions over the new statements txs of the
     * fetch curr: a failed store returns prev at once; after each store the
     * whole fetch is written and the notice sent; at the end curr is returned.
     */
    method Reconcile(prev: seq<Json>, curr: seq<Json>, txs: seq<Statement>, accounts: seq<string>,
                     storeOk: nat -> bool, notifyOk: nat -> bool)
      returns (r: seq<Json>)
      modifies this
      ensures r == Returned(prev, curr, txs, accounts, storeOk)
      ensures effects == old(effects) + CycleEffects(txs, StoreFailure(txs, accounts, storeOk), accounts, curr, notifyOk)
    {
      ghost var k := StoreFailure(txs, accounts, storeOk);
      var i := 0;
      while i < |txs|
        invariant i <= k
        invariant effects == old(effects) + CycleEffects(txs, i, accounts, curr, notifyOk)
      {
        var t := txs[i];
        if Tracked(t, accounts) && !storeOk(i) {
          return prev;
        }
        ghost var step := Step(t, accounts, curr, notifyOk(i));
        Handle(t, accounts, curr, notifyOk(i));
        assert CycleEffects(txs, i + 1, accounts, curr, notifyOk) == CycleEffects(txs, i, accounts, curr, notifyOk) + step;
        AppendAssoc(old(effects), CycleEffects(txs, i, accounts, curr, notifyOk), step);
        i := i + 1;
      }
      return curr;
    }
  }

  // ---------------------------------------------------------------------
  // Properties of a cycle

  /** The rows appended among a sequence of effects. */
  function Rows(effects: seq<Effect>): seq<seq<string>> {
    if effects == [] then []
    else Rows(effects[..|effects| - 1])
         + (if effects[|effects| - 1].Appended? then [effects[|effects| - 1].row] else [])
  }

  /** The rows of the statements among the first n that are stored. */
  function StoredRows(txs: seq<Statement>, n: nat, accounts: seq<string>): seq<seq<string>>
    requires n <= |txs|
  {
    if n == 0 then []
    else StoredRows(txs, n - 1, accounts) + (if Tracked(txs[n - 1], accounts) then [Row(txs[n - 1])] else [])
  }

  lemma {:induction false} RowsAppend(a: seq<Effect>, b: seq<Effect>)
    ensures Rows(a + b) == Rows(a) + Rows(b)
    decreases |b|
  {
    if b == [] {
      assert a + b == a;
    } else {
      var init := b[..|b| - 1];
      var last: seq<seq<string>> := if b[|b| - 1].Appended? then [b[|b| - 1].row] else [];
      assert (a + b)[..|a + b| - 1] == a + init;
      assert (a + b)[|a + b| - 1] == b[|b| - 1];
      RowsAppend(a, init);
      AppendAssoc(Rows(a), Rows(init), last);
    }
  }

  /** One step appends its statement's row if it is stored, and nothing else. */
  lemma StepRows(t: Statement, accounts: seq<string>, curr: seq<Json>, notified: bool)
    ensures Rows(Step(t, accounts, curr, notified)) == (if Tracked(t, accounts) then [Row(t)] else [])
  {
    if Tracked(t, accounts) {
      var tail: seq<Effect> := [Wrote(curr)] + (if notified then [Notified(NoticeText(t))] else []);
      assert Step(t, accounts, curr, notified) == [Appended(Row(t))] + tail;
      assert Rows([Appended(Row(t))]) == [Row(t)] by {
        assert [Appended(Row(t))][..0] == [];
      }
      if notified {
        assert tail[..1] == [Wrote(curr)] && tail[..1][..0] == [];
      } else {
        assert tail[..0] == [];
      }
      RowsAppend([Appended(Row(t))], tail);
    }
  }

  /** The worksheet receives the rows of the stored statements, in processing order. */
  lemma {:induction false} CycleRows(txs: seq<Statement>, n: nat, accounts: seq<string>, curr: seq<Json>,
                                     notifyOk: nat -> bool)
    requires n <= |txs|
    ensures Rows(CycleEffects(txs, n, accounts, curr, notifyOk)) == StoredRows(txs, n, accounts)
  {
    if n > 0 {
      CycleRows(txs, n - 1, accounts, curr, notifyOk);
      RowsAppend(CycleEffects(txs, n - 1, accounts, curr, notifyOk), Step(txs[n - 1], accounts, curr, notifyOk(n - 1)));
      StepRows(txs[n - 1], accounts, curr, notifyOk(n - 1));
    }
  }

  /** Only credits to tracked accounts reach the worksheet, one row each, and every one of them does. */
  lemma {:induction false} StoredRowsTracked(txs: seq<Statement>, n: nat, accounts: seq<string>)
    requires n <= |txs|
    ensures forall row | row in StoredRows(txs, n, accounts) ::
              exists i | 0 <= i < n :: Tracked(txs[i], accounts) && row == Row(txs[i])
    ensures forall i | 0 <= i < n && Tracked(txs[i], accounts) :: Row(txs[i]) in StoredRows(txs, n, accounts)
  {
    if n > 0 {
      StoredRowsTracked(txs, n - 1, accounts);
    }
  }

  /** Every snapshot written is the whole fetch, and each appended row is followed at once by such a write. */
  predicate WritesWhole(e: seq<Effect>, curr: seq<Json>) {
    && (forall i | 0 <= i < |e| && e[i].Wrote? :: e[i].snapshot == curr)
    && (forall i | 0 <= i < |e| && e[i].Appended? :: i + 1 < |e| && e[i + 1] == Wrote(curr))
  }

  lemma WritesWholeAppend(a: seq<Effect>, b: seq<Effect>, curr: seq<Json>)
    requires WritesWhole(a, curr) && WritesWhole(b, curr)
    ensures WritesWhole(a + b, curr)
  {
    var e := a + b;
    forall i | 0 <= i < |e| && e[i].Wrote? ensures e[i].snapshot == curr {
      if i < |a| { assert e[i] == a[i]; } else { assert e[i] == b[i - |a|]; }
    }
    forall i | 0 <= i < |e| && e[i].Appended? ensures i + 1 < |e| && e[i + 1] == Wrote(curr) {
      if i < |a| {
        assert e[i] == a[i] && e[i + 1] == a[i + 1];
      } else {
        assert e[i] == b[i - |a|] && e[i + 1] == b[i + 1 - |a|];
      }
    }
  }

  lemma StepWritesWhole(t: Statement, accounts: seq<string>, curr: seq<Json>, notified: bool)
    ensures WritesWhole(Step(t, accounts, curr, notified), curr)
  {
  }

  /**
   * In the effects of a cycle every snapshot written is the whole fetch,
   * and each appended row is followed at once by that write.
   */
  lemma {:induction false} CycleWrites(txs: seq<Statement>, n: nat, accounts: seq<string>, curr: seq<Json>,
                                       notifyOk: nat -> bool)
    requires n <= |txs|
    ensures WritesWhole(CycleEffects(txs, n, accounts, curr, notifyOk), curr)
  {
    if n > 0 {
      CycleWrites(txs, n - 1, accounts, curr, notifyOk);
      StepWritesWhole(txs[n - 1], accounts, curr, notifyOk(n - 1));
      WritesWholeAppend(CycleEffects(txs, n - 1, accounts, curr, notifyOk),
                        Step(txs[n - 1], accounts, curr, notifyOk(n - 1)), curr);
    }
  }

  /** The notice of a stored statement among the first n whose notification went through. */
  predicate NoticeOf(text: string, txs: seq<Statement>, n: nat, accounts: seq<string>, notifyOk: nat -> bool)
    requires n <= |txs|
  {
    exists j | 0 <= j < n :: Tracked(txs[j], accounts) && notifyOk(j) && text == NoticeText(txs[j])
  }

  /** Every notice of a cycle is that of a stored statement whose notification went through. */
  lemma {:induction false} CycleNotices(txs: seq<Statement>, n: nat, accounts: seq<string>, curr: seq<Json>,
                                        notifyOk: nat -> bool)
    requires n <= |txs|
    ensures forall e | e in CycleEffects(txs, n, accounts, curr, notifyOk) && e.Notified? ::
              NoticeOf(e.text, txs, n, accounts, notifyOk)
  {
    if n > 0 {
      CycleNotices(txs, n - 1, accounts, curr, notifyOk);
      var a: seq<Effect> := CycleEffects(txs, n - 1, accounts, curr, notifyOk);
      var b: seq<Effect> := Step(txs[n - 1], accounts, curr, notifyOk(n - 1));
      var e: seq<Effect> := a + b;
      assert CycleEffects(txs, n, accounts, curr, notifyOk) == e;
      forall x | x in e && x.Notified? ensures NoticeOf(x.text, txs, n, accounts, notifyOk) {
        if x in a {
          var j :| 0 <= j < n - 1 && Tracked(txs[j], accounts) && notifyOk(j) && x.text == NoticeText(txs[j]);
        } else {
          assert x in b;
          assert Tracked(txs[n - 1], accounts) && notifyOk(n - 1) && x.text == NoticeText(txs[n - 1]);
        }
      }
    }
  }

  /** A stored statement's row and the snapshot write after it are among the effects of the cycle. */
  lemma {:induction false} StoredAppended(txs: seq<Statement>, n: nat, j: nat, accounts: seq<string>, curr: seq<Json>,
                                          notifyOk: nat -> bool)
    requires j < n <= |txs| && Tracked(txs[j], accounts)
    ensures Appended(Row(txs[j])) in CycleEffects(txs, n, accounts, curr, notifyOk)
    ensures Wrote(curr) in CycleEffects(txs, n, accounts, curr, notifyOk)
  {
    var a := CycleEffects(txs, n - 1, accounts, curr, notifyOk);
    var b := Step(txs[n - 1], accounts, curr, notifyOk(n - 1));
    assert CycleEffects(txs, n, accounts, curr, notifyOk) == a + b;
    if j == n - 1 {
      assert b[0] == Appended(Row(txs[j])) && b[1] == Wrote(curr);
      assert b[0] in a + b && b[1] in a + b;
    } else {
      StoredAppended(txs, n - 1, j, accounts, curr, notifyOk);
    }
  }

  /**
   * As written, a failed store returns prev although the whole fetch was
   * already written after an earlier store of the same cycle: the
   * statement stored earlier is new again to the next cycle over the same
   * fetch, and is stored twice; and the file now holds the fetch, against
   * which nothing is new, so after a restart the statement whose store
   * failed is never stored.
   */
  lemma RestoredAsWritten(prev: seq<Json>, curr: seq<Json>, txs: seq<Statement>, accounts: seq<string>,
                          storeOk: nat -> bool, notifyOk: nat -> bool, parseTs: string -> Option<Timestamp>, j: nat)
    requires NewStatements(prev, curr, parseTs) == Ok(txs)
    requires StoreFailure(txs, accounts, storeOk) < |txs|
    requires j < StoreFailure(txs, accounts, storeOk) && Tracked(txs[j], accounts)
    ensures var k := StoreFailure(txs, accounts, storeOk);
            var e := CycleEffects(txs, k, accounts, curr, notifyOk);
            Appended(Row(txs[j])) in e && Wrote(curr) in e
            && Returned(prev, curr, txs, accounts, storeOk) == prev
            && NewStatements(Returned(prev, curr, txs, accounts, storeOk), curr, parseTs) == Ok(txs)
            && NewStatements(curr, curr, parseTs) == Ok([])
  {
    StoredAppended(txs, StoreFailure(txs, accounts, storeOk), j, accounts, curr, notifyOk);
    NothingNewInItself(curr, parseTs);
  }


  /**
   * The snapshot a cycle is meant to leave when the store of txs[k] fails:
   * prev and the records of the statements before k, the way the temp
   * snapshot of the cashless sources keeps them.
   */
  function Restored(prev: seq<Json>, txs: seq<Statement>, k: nat): (snap: seq<Json>)
    requires k <= |txs|
    ensures |snap| == |prev| + k && snap[..|prev|] == prev
    ensures forall i | 0 <= i < k :: snap[|prev| + i] == JObj(txs[i].orig)
  {
    prev + seq(k, i requires 0 <= i < k => JObj(txs[i].orig))
  }

  /**
   * The restored snapshot is one the next cycle can read, and over the same
   * fetch that cycle finds new exactly the records of txs[k..]: what was
   * handled before the failure is not new again, and the statement whose
   * store failed, with those after it, still is.
   */
  lemma RestoredIntended(prev: seq<Json>, curr: seq<Json>, txs: seq<Statement>, parseTs: string -> Option<Timestamp>,
                         k: nat)
    requires NewStatements(prev, curr, parseTs) == Ok(txs)
    requires k <= |txs|
    ensures FirstError(Restored(prev, txs, k)).None?
    ensures forall c | c in curr && c.JObj? ::
              (!exists p | p in Restored(prev, txs, k) :: p.JObj? && ItemSet(p.members) == ItemSet(c.members))
              <==> exists i | k <= i < |txs| :: Items(txs[i]) == ItemSet(c.members)
  {
    NewStatementsSpec(prev, curr, parseTs);
    assert FirstError(prev).None? && FirstError(curr).None?;
    RestoredReadable(prev, curr, txs, k);
    forall c | c in curr && c.JObj?
      ensures (!exists p | p in Restored(prev, txs, k) :: p.JObj? && ItemSet(p.members) == ItemSet(c.members))
              <==> exists i | k <= i < |txs| :: Items(txs[i]) == ItemSet(c.members)
    {
      RestoredSeen(prev, txs, k, c);
    }
  }

  /** Restored holds only values of prev and of curr, so building its sets raises nothing. */
  lemma RestoredReadable(prev: seq<Json>, curr: seq<Json>, txs: seq<Statement>, k: nat)
    requires k <= |txs|
    requires FirstError(prev).None? && FirstError(curr).None?
    requires forall x | x in txs :: JObj(x.orig) in curr
    ensures FirstError(Restored(prev, txs, k)).None?
  {
    var snap := Restored(prev, txs, k);
    forall j | 0 <= j < |snap| ensures ItemsError(snap[j]).None? {
      if j < |prev| {
        assert snap[j] == snap[..|prev|][j] == prev[j];
      } else {
        assert txs[j - |prev|] in txs;
        var q :| 0 <= q < |curr| && curr[q] == JObj(txs[j - |prev|].orig);
      }
    }
  }

  /** RestoredIntended for one record c of the fetch, from what new_transaction promised about prev. */
  lemma RestoredSeen(prev: seq<Json>, txs: seq<Statement>, k: nat, c: Json)
    requires k <= |txs| && c.JObj?
    requires forall x | x in txs :: forall p | p in prev :: p.JObj? && ItemSet(p.members) != Items(x)
    requires (exists p | p in prev :: p.JObj? && ItemSet(p.members) == ItemSet(c.members))
             || (exists x | x in txs :: Items(x) == ItemSet(c.members))
    requires DistinctBy(txs, Items)
    ensures (!exists p | p in Restored(prev, txs, k) :: p.JObj? && ItemSet(p.members) == ItemSet(c.members))
            <==> exists i | k <= i < |txs| :: Items(txs[i]) == ItemSet(c.members)
  {
    var snap := Restored(prev, txs, k);
    if exists p | p in snap :: p.JObj? && ItemSet(p.members) == ItemSet(c.members) {
      var p :| p in snap && p.JObj? && ItemSet(p.members) == ItemSet(c.members);
      var j :| 0 <= j < |snap| && snap[j] == p;
      if j < |prev| {
        assert p == snap[..|prev|][j] == prev[j];
        assert p in prev;
        forall i | k <= i < |txs| ensures Items(txs[i]) != ItemSet(c.members) {
          assert txs[i] in txs;
        }
      } else {
        assert Items(txs[j - |prev|]) == ItemSet(c.members);
      }
    } else {
      forall p | p in prev ensures !(p.JObj? && ItemSet(p.members) == ItemSet(c.members)) {
        var j :| 0 <= j < |prev| && prev[j] == p;
        assert snap[j] == snap[..|prev|][j] == p;
      }
      var x :| x in txs && Items(x) == ItemSet(c.members);
      var i :| 0 <= i < |txs| && txs[i] == x;
      if i < k {
        assert false;
      }
    }
  }
}
