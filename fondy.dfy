/**
 * The Fondy acquiring API: the request headers and the text the request
 * signature is computed over, the paged company report, the normalisation
 * of a report row into a transaction, which transactions deserve a receipt,
 * and the guards checked before the processor runs.
 */
module Fondy {
  import opened Wrappers
  import opened Text
  import opened OrderedDict
  import opened Json
  import opened Transactions

  // ---------------------------------------------------------------------
  // FondyAPI: headers and signature

  const ContentType := "application/json; charset=utf8"

  /** The headers every request carries; product is the bot's name and version. */
  function Defaults(product: string): ODict<string, string> {
    [("Content-Type", ContentType), ("User-Agent", product)]
  }

  /** FondyAPI._headers(d): `{**defaults, **d}`. */
  function Headers(product: string, d: ODict<string, string>): ODict<string, string> {
    FromPairs(Defaults(product) + d)
  }

  /** The defaults' two names, each once. */
  lemma DefaultKeys(product: string)
    ensures Keys(Defaults(product)) == ["Content-Type", "User-Agent"]
    ensures Dedup(Keys(Defaults(product))) == Keys(Defaults(product))
  {
    var ks := Keys(Defaults(product));
    assert ks == ["Content-Type", "User-Agent"];
    assert ks[..1] == ["Content-Type"] && ks[..1][..0] == [];
    assert Dedup(ks[..1]) == ["Content-Type"];
  }

  /** An entry of d overrides the default of the same name, and every other entry of d is added. */
  lemma HeadersGet(product: string, d: ODict<string, string>, k: string)
    requires UniqueKeys(d)
    ensures Get(Headers(product, d), k) == if Get(d, k).Some? then Get(d, k) else Get(Defaults(product), k)
  {
    var base := Defaults(product);
    FromPairsGet(base + d, k);
    LastValueAppend(base, d, k);
    FromPairsGet(d, k);
    FromPairsUnique(d);
    FromPairsGet(base, k);
    DefaultKeys(product);
    FromPairsKeys(base);
    FromPairsUnique(base);
  }

  /** The headers have each name once, and the defaults come first and keep their places. */
  lemma HeadersOrder(product: string, d: ODict<string, string>)
    ensures |Headers(product, d)| >= 2
    ensures Headers(product, d)[0].0 == "Content-Type" && Headers(product, d)[1].0 == "User-Agent"
    ensures UniqueKeys(Headers(product, d))
  {
    var base := Defaults(product);
    FromPairsKeys(base + d);
    assert Keys(base + d) == Keys(base) + Keys(d);
    DedupPrefix(Keys(base), Keys(d));
    DefaultKeys(product);
    assert Keys(Headers(product, d))[0] == "Content-Type" && Keys(Headers(product, d))[1] == "User-Agent";
  }

  /** FondyAPI(company_id, private_key). */
  datatype Api = Api(companyId: Json, privateKey: Json)

  /**
   * The text FondyAPI._signature hashes (SHA-512 is not modelled):
   * `"|".join([private_key, str(company_id), sig_date])`.
   */
  function SignatureInput(api: Api, sigDate: string): (r: Result<string>)
    ensures r.Ok? <==> api.privateKey.JStr?
  {
    if !api.privateKey.JStr? then Err(TypeError)
    else Ok(Join([api.privateKey.s, PyStr(api.companyId), sigDate], '|'))
  }

  /** str() never fails: a list company id is signed as its repr(). */
  lemma SignatureInputListId(privateKey: string, sigDate: string)
    ensures SignatureInput(Api(JArr([JNum(1)]), JStr(privateKey)), sigDate)
            == Ok(privateKey + "|[1]|" + sigDate)
  {
    var id := JArr([JNum(1)]);
    assert IntToString(1) == "1";
    assert Repr(id) == "[" + Listed(["1"]) + "]";
    assert PyStr(id) == "[1]";
    assert SignatureInput(Api(id, JStr(privateKey)), sigDate) == SignatureInput(Api(JStr("[1]"), JStr(privateKey)), sigDate);
    SignatureInputSpec(privateKey, "[1]", sigDate);
    assert privateKey + "|" + "[1]" + "|" + sigDate == privateKey + "|[1]|" + sigDate;
  }

  /** The signature covers exactly "private_key|company_id|date", and each part can be read back. */
  lemma SignatureInputSpec(privateKey: string, companyId: string, sigDate: string)
    ensures SignatureInput(Api(JStr(companyId), JStr(privateKey)), sigDate)
            == Ok(privateKey + "|" + companyId + "|" + sigDate)
    ensures Excludes(privateKey, '|') && Excludes(companyId, '|') && Excludes(sigDate, '|') ==>
              Split(SignatureInput(Api(JStr(companyId), JStr(privateKey)), sigDate).value, '|')
              == [privateKey, companyId, sigDate]
  {
    var parts := [privateKey, companyId, sigDate];
    assert parts[1..] == [companyId, sigDate];
    assert parts[1..][1..] == [sigDate];
    assert Join(parts[1..], '|') == companyId + "|" + sigDate;
    assert Join(parts, '|') == privateKey + "|" + (companyId + "|" + sigDate);
    var api := Api(JStr(companyId), JStr(privateKey));
    assert PyStr(api.companyId) == companyId;
    assert api.privateKey.JStr? && api.privateKey.s == privateKey;
    assert [api.privateKey.s, PyStr(api.companyId), sigDate] == parts;
    assert SignatureInput(api, sigDate) == Ok(Join(parts, '|'));
    AppendAssoc(privateKey + "|", companyId + "|", sigDate);
    AppendAssoc(privateKey + "|", companyId, "|");
    if Excludes(privateKey, '|') && Excludes(companyId, '|') && Excludes(sigDate, '|') {
      SplitJoin(parts, '|');
    }
  }

  // ---------------------------------------------------------------------
  // FondyAPI.report: the paged company report

  const OnPage := 500

  function Zip<A, B>(a: seq<A>, b: seq<B>): (r: seq<(A, B)>)
    ensures |r| == if |a| <= |b| then |a| else |b|
    ensures forall i | 0 <= i < |r| :: r[i] == (a[i], b[i])
  {
    if a == [] || b == [] then [] else [(a[0], b[0])] + Zip(a[1..], b[1..])
  }

  /** `{k: v for k, v in zip(keys, values)}`. */
  function RowRecord(names: seq<string>, values: seq<Json>): Record {
    FromPairs(Zip(names, values))
  }

  /**
   * With distinct field names, each name that has a value holds the value
   * in the same place; the row has no other keys.
   */
  lemma RowRecordSpec(names: seq<string>, values: seq<Json>, k: string)
    requires forall i, j | 0 <= i < j < |names| :: names[i] != names[j]
    ensures forall i | 0 <= i < |names| && i < |values| && names[i] == k :: Get(RowRecord(names, values), k) == Some(values[i])
    ensures (forall i | 0 <= i < |names| && i < |values| :: names[i] != k) ==> Get(RowRecord(names, values), k) == None
  {
    var z := Zip(names, values);
    FromPairsGet(z, k);
    LastValueSome(z, k);
    forall i | 0 <= i < |names| && i < |values| && names[i] == k
      ensures Get(RowRecord(names, values), k) == Some(values[i])
    {
      LastValueAt(z, k, i);
    }
    if k in Keys(z) {
      var i :| 0 <= i < |z| && Keys(z)[i] == k;
      assert names[i] == k;
    }
  }

  /** Field names as record keys: the model keeps string keys only. */
  function Names(keys: seq<Json>): (r: Result<seq<string>>)
    ensures r.Ok? <==> forall i | 0 <= i < |keys| :: keys[i].JStr?
    ensures r.Ok? ==> |r.value| == |keys| && forall i | 0 <= i < |keys| :: JStr(r.value[i]) == keys[i]
    ensures r.Err? ==> r.error == TypeError
  {
    if keys == [] then Ok([])
    else if !keys[0].JStr? then Err(TypeError)
    else match Names(keys[1..])
      case Err(e) => Err(e)
      case Ok(rest) => Ok([keys[0].s] + rest)
  }

  /** The records of a page: every row of data zipped with the field names (iterated anew for each row). */
  function PageRows(fields: Json, data: seq<Json>): (r: Result<seq<Record>>)
    ensures r.Ok? ==> |r.value| == |data|
  {
    if data == [] then Ok([])
    else match Iterate(fields)
      case Err(e) => Err(e)
      case Ok(keys) =>
        match Names(keys)
        case Err(e) => Err(e)
        case Ok(names) =>
          match Iterate(data[0])
          case Err(e) => Err(e)
          case Ok(values) =>
            match PageRows(fields, data[1..])
            case Err(e) => Err(e)
            case Ok(rest) => Ok([RowRecord(names, values)] + rest)
  }

  /** rows_count as a number `>` can compare with an int. */
  function Count(j: Json): Result<int> {
    match j
    case JNum(n) => Ok(n)
    case JBool(b) => Ok(if b then 1 else 0)
    case _ => Err(TypeError)
  }

  /** One report page: a failed request, or its records and rows_count. */
  function ReportPage(reply: Result<Json>): (r: Result<(seq<Record>, int)>)
    ensures reply.Err? ==> r == Err(reply.error)
    ensures r.Ok? ==> reply.Ok? && Subscript(reply.value, "fields").Ok? && Subscript(reply.value, "data").Ok?
                      && Iterate(Subscript(reply.value, "data").value).Ok?
                      && PageRows(Subscript(reply.value, "fields").value, Iterate(Subscript(reply.value, "data").value).value)
                         == Ok(r.value.0)
  {
    if reply.Err? then Err(reply.error)
    else
      var body := reply.value;
      match Subscript(body, "fields")
      case Err(e) => Err(e)
      case Ok(fields) =>
        match Subscript(body, "data")
        case Err(e) => Err(e)
        case Ok(data) =>
          match Iterate(data)
          case Err(e) => Err(e)
          case Ok(rows) =>
            match PageRows(fields, rows)
            case Err(e) => Err(e)
            case Ok(records) =>
              match Subscript(body, "rows_count")
              case Err(e) => Err(e)
              case Ok(count) =>
                match Count(count)
                case Err(e) => Err(e)
                case Ok(n) => Ok((records, n))
  }

  /** Records already in hand, then the rest of a fetch. */
  function Then(records: seq<Record>, rest: (Result<seq<Record>>, nat)): (r: (Result<seq<Record>>, nat))
    ensures r.1 == rest.1 && r.0.Ok? == rest.0.Ok?
    ensures rest.0.Err? ==> r.0 == rest.0
  {
    (if rest.0.Ok? then Ok(records + rest.0.value) else rest.0, rest.1)
  }

  /** One page request as report reads it. */
  type Page = Result<(seq<Record>, int)>

  /** The pages a sequence of replies reads as. */
  function Answers(replies: seq<Result<Json>>): (r: seq<Page>)
    ensures |r| == |replies|
  {
    if replies == [] then [] else [ReportPage(replies[0])] + Answers(replies[1..])
  }

  /** The i-th page is the i-th reply as report reads it. */
  lemma {:induction false} AnswersAt(replies: seq<Result<Json>>, i: nat)
    requires i < |replies|
    ensures Answers(replies)[i] == ReportPage(replies[i])
  {
    if i > 0 {
      AnswersAt(replies[1..], i - 1);
    }
  }

  /** One page request of report, answered by the i-th reply. */
  method ReadPage(replies: seq<Result<Json>>, i: nat) returns (p: Page)
    requires i < |replies|
    ensures p == Answers(replies)[i]
  {
    p := ReportPage(replies[i]);
    AnswersAt(replies, i);
  }

  /**
   * The loop of report from `page` pages fetched and the last rows_count
   * on, with the i-th page request answered by answers[i] (running out of
   * answers is a failed connection): the records, and the number of pages
   * requested.
   */
  function Fetch(answers: seq<Page>, page: nat, rowsCount: int): (r: (Result<seq<Record>>, nat))
    requires page <= |answers|
    ensures page <= r.1 <= |answers| + 1
    decreases |answers| - page
  {
    if rowsCount <= OnPage * page then (Ok([]), page)
    else if page == |answers| then (Err(Connection), page + 1)
    else match answers[page]
      case Err(e) => (Err(e), page + 1)
      case Ok((records, count)) => Then(records, Fetch(answers, page + 1, count))
  }

  /** The records of pages lo..hi-1, in page order. */
  function Pages(answers: seq<Page>, lo: nat, hi: nat): seq<Record>
    requires lo <= hi <= |answers|
    requires forall j | lo <= j < hi :: answers[j].Ok?
    decreases hi - lo
  {
    if lo == hi then [] else answers[lo].value.0 + Pages(answers, lo + 1, hi)
  }

  /**
   * Pagination: pages are requested while rows_count exceeds 500 times the
   * pages fetched. At least one page more is requested, and every page
   * before the last one requested came back with a rows_count still not
   * covered.
   */
  lemma {:induction false} FetchContinues(answers: seq<Page>, page: nat, rowsCount: int)
    requires page <= |answers| && rowsCount > OnPage * page
    ensures page < Fetch(answers, page, rowsCount).1
    ensures var n := Fetch(answers, page, rowsCount).1;
            forall j | page <= j < n - 1 ::
              j < |answers| && answers[j].Ok? && answers[j].value.1 > OnPage * (j + 1)
    decreases |answers| - page
  {
    if page < |answers| && answers[page].Ok? {
      var count := answers[page].value.1;
      if count > OnPage * (page + 1) {
        FetchContinues(answers, page + 1, count);
      }
    }
  }

  /**
   * A complete fetch stops at the first page whose rows_count is covered,
   * and its records are the pages' records in page order.
   */
  lemma {:induction false} FetchComplete(answers: seq<Page>, page: nat, rowsCount: int)
    requires page <= |answers| && rowsCount > OnPage * page
    requires Fetch(answers, page, rowsCount).0.Ok?
    ensures var n := Fetch(answers, page, rowsCount).1;
            n <= |answers| && (forall j | page <= j < n :: answers[j].Ok?)
            && answers[n - 1].value.1 <= OnPage * n
            && Fetch(answers, page, rowsCount).0.value == Pages(answers, page, n)
    decreases |answers| - page
  {
    var records := answers[page].value.0;
    var count := answers[page].value.1;
    var rest := Fetch(answers, page + 1, count);
    if count > OnPage * (page + 1) {
      FetchComplete(answers, page + 1, count);
      assert Pages(answers, page, rest.1) == records + Pages(answers, page + 1, rest.1);
    } else {
      assert records + [] == records;
      assert Pages(answers, page, page + 1) == records + Pages(answers, page + 1, page + 1);
    }
  }

  /** A failed fetch fails at the last page requested, or for want of a reply. */
  lemma {:induction false} FetchFails(answers: seq<Page>, page: nat, rowsCount: int)
    requires page <= |answers|
    requires Fetch(answers, page, rowsCount).0.Err?
    ensures var (r, n) := Fetch(answers, page, rowsCount);
            (n == |answers| + 1 && r.error == Connection)
            || (1 <= n <= |answers| && answers[n - 1] == Err(r.error))
    decreases |answers| - page
  {
    if page < |answers| && answers[page].Ok? {
      FetchFails(answers, page + 1, answers[page].value.1);
    }
  }

  /** No records in hand leave a fetch as it is. */
  lemma ThenNothing(rest: (Result<seq<Record>>, nat))
    ensures Then([], rest) == rest
  {
    if rest.0.Ok? { assert [] + rest.0.value == rest.0.value; }
  }

  /** Records in hand in two batches are the two in order. */
  lemma ThenThen(a: seq<Record>, b: seq<Record>, rest: (Result<seq<Record>>, nat))
    ensures Then(a, Then(b, rest)) == Then(a + b, rest)
  {
    if rest.0.Ok? { AppendAssoc(a, b, rest.0.value); }
  }

  /** A page that came back adds its records ahead of the rest of the fetch. */
  lemma FetchStep(answers: seq<Page>, page: nat, rowsCount: int)
    requires page < |answers| && rowsCount > OnPage * page && answers[page].Ok?
    ensures Fetch(answers, page, rowsCount)
            == Then(answers[page].value.0, Fetch(answers, page + 1, answers[page].value.1))
  {
  }

  /** A page that failed ends the fetch with its error. */
  lemma FetchStops(answers: seq<Page>, page: nat, rowsCount: int)
    requires page <= |answers| && rowsCount > OnPage * page
    requires page < |answers| ==> answers[page].Err?
    ensures Fetch(answers, page, rowsCount)
            == (Err(if page == |answers| then Connection else answers[page].error), page + 1)
  {
  }

  /**
   * FondyAPI.token after its POST (the TTL cache is not modelled): the
   * reply's error from raise_for_status or the JSON read, or
   * `response["token"]`, which raises for a body without one.
   */
  function Token(reply: Result<Json>): (r: Result<Json>)
    ensures reply.Err? ==> r == Err(reply.error)
    ensures r.Ok? <==> reply.Ok? && reply.value.JObj? && Get(reply.value.members, "token").Some?
    ensures r.Ok? ==> Some(r.value) == Get(reply.value.members, "token")
  {
    if reply.Err? then Err(reply.error) else Subscript(reply.value, "token")
  }

  /** The report requests' headers: the defaults and `Authorization: Token <token>`. */
  function ReportHeaders(product: string, token: Json): ODict<string, string> {
    Headers(product, [("Authorization", "Token " + PyStr(token))])
  }

  /** The report requests authorise with the token and keep the default content type and agent. */
  lemma ReportHeadersGet(product: string, token: Json)
    ensures Get(ReportHeaders(product, token), "Authorization") == Some("Token " + PyStr(token))
    ensures Get(ReportHeaders(product, token), "Content-Type") == Some(ContentType)
    ensures Get(ReportHeaders(product, token), "User-Agent") == Some(product)
  {
    var d := [("Authorization", "Token " + PyStr(token))];
    assert Keys(d) == ["Authorization"];
    HeadersGet(product, d, "Authorization");
    HeadersGet(product, d, "Content-Type");
    HeadersGet(product, d, "User-Agent");
    var base := Defaults(product);
    assert base[0].0 != "User-Agent" && base[1..] == [("User-Agent", product)];
    assert IndexOf(base, "User-Agent") == 1;
  }

  /** The body of the request for page `page` of report 745, from `start` on. */
  function PageQuery(merchantId: Json, page: nat, start: string): Json {
    JObj([("on_page", JNum(OnPage)), ("page", JNum(page)),
          ("filters", JArr([JObj([("s", JStr("order_timestart")), ("m", JStr("from")), ("v", JStr(start))])])),
          ("merchant_id", merchantId), ("report_id", JNum(745))])
  }

  /** One report request: its headers and its JSON body. */
  datatype PageRequest = PageRequest(headers: ODict<string, string>, body: Json)

  /** The requests for pages 1 to n, each with the same headers. */
  function PageRequests(headers: ODict<string, string>, merchantId: Json, start: string, n: nat): (rs: seq<PageRequest>)
    ensures |rs| == n
    ensures forall i | 0 <= i < n :: rs[i] == PageRequest(headers, PageQuery(merchantId, i + 1, start))
  {
    seq(n, i requires 0 <= i < n => PageRequest(headers, PageQuery(merchantId, i + 1, start)))
  }

  /**
   * The page loop of FondyAPI.report: `page` counts the requests made and
   * rows_count starts at 1, so the first page is always requested; the
   * i-th reply answers the i-th request.
   */
  method ReportPages(replies: seq<Result<Json>>) returns (r: Result<seq<Record>>, pages: nat)
    ensures r == Fetch(Answers(replies), 0, 1).0 && pages == Fetch(Answers(replies), 0, 1).1
  {
    ghost var answers := Answers(replies);
    var result: seq<Record> := [];
    var page := 0;
    var rowsCount := 1;
    ThenNothing(Fetch(answers, 0, 1));
    while rowsCount > OnPage * page
      invariant page <= |replies|
      invariant Fetch(answers, 0, 1) == Then(result, Fetch(answers, page, rowsCount))
      decreases |replies| - page
    {
      if page == |replies| {
        FetchStops(answers, page, rowsCount);
        return Err(Connection), page + 1;
      }
      var p := ReadPage(replies, page);
      if p.Err? {
        FetchStops(answers, page, rowsCount);
        return Err(p.error), page + 1;
      }
      FetchStep(answers, page, rowsCount);
      ThenThen(result, p.value.0, Fetch(answers, page + 1, p.value.1));
      result := result + p.value.0;
      rowsCount := p.value.1;
      page := page + 1;
    }
    assert result + [] == result;
    return Ok(result), page;
  }

  /**
   * FondyAPI.report: the token first, whose failure ends the report before
   * any page is requested; then the page loop, every request carrying the
   * token's headers and the query for its page. start is `str(start_time)`.
   */
  method Report(product: string, merchantId: Json, start: string,
                tokenReply: Result<Json>, replies: seq<Result<Json>>)
    returns (r: Result<seq<Record>>, requests: seq<PageRequest>)
    ensures Token(tokenReply).Err? ==> r == Err(Token(tokenReply).error) && requests == []
    ensures Token(tokenReply).Ok? ==>
              r == Fetch(Answers(replies), 0, 1).0 && |requests| == Fetch(Answers(replies), 0, 1).1
              && forall i | 0 <= i < |requests| ::
                   requests[i] == PageRequest(ReportHeaders(product, Token(tokenReply).value), PageQuery(merchantId, i + 1, start))
  {
    var token := Token(tokenReply);
    if token.Err? {
      return Err(token.error), [];
    }
    var headers := ReportHeaders(product, token.value);
    var pages;
    r, pages := ReportPages(replies);
    requests := PageRequests(headers, merchantId, start, pages);
  }

  /** The first page is always requested; a complete report is the pages' records in order. */
  lemma ReportSpec(answers: seq<Page>)
    ensures var n := Fetch(answers, 0, 1).1;
            n >= 1
            && (Fetch(answers, 0, 1).0.Ok? ==>
                  n <= |answers| && (forall j | 0 <= j < n :: answers[j].Ok?)
                  && Fetch(answers, 0, 1).0.value == Pages(answers, 0, n))
  {
    FetchContinues(answers, 0, 1);
    if Fetch(answers, 0, 1).0.Ok? {
      FetchComplete(answers, 0, 1);
    }
  }

  // ---------------------------------------------------------------------
  // FondyTransaction

  /** The key whose value identifies a transaction. */
  const IdKey := "payment_id"

  /**
   * FondyTransaction.parse_obj(rec): the `values` validator, then the
   * fields. parseTs stands for dateutil's parse. A lookup of a missing key
   * is a KeyError; whatever the validator or the fields reject is a
   * ValidationError.
   */
  function Parse(rec: Record, parseTs: string -> Option<Timestamp>): (r: Result<Transaction>)
    ensures r == Err(KeyError) <==>
              Get(rec, "order_timestart").None?
              || (Get(rec, "order_timestart").value.JStr? && parseTs(Get(rec, "order_timestart").value.s).Some?
                  && (Get(rec, "order_id").None? || Get(rec, "actual_amount").None? || Get(rec, "sender_email").None?))
    ensures r.Err? ==> r.error == KeyError || r.error == Validation
    ensures r.Ok? ==>
              var t := r.value;
              Get(rec, "order_timestart").Some? && Get(rec, "order_timestart").value.JStr?
              && parseTs(Get(rec, "order_timestart").value.s) == Some(t.ts)
              && Get(rec, "order_id").Some? && AsStr(Get(rec, "order_id").value) == Some(t.code)
              && t.name == t.code
              && Get(rec, "actual_amount").Some? && AsStr(Get(rec, "actual_amount").value) == Some(t.sum)
              && Get(rec, "sender_email").Some?
              && (if Truthy(Get(rec, "sender_email").value) then AsStr(Get(rec, "sender_email").value) == Some(t.sender)
                  else t.sender == "")
              && t.details.Fondy?
              && (t.details.approved <==> Get(rec, "order_status") == Some(JStr("approved")))
              && t.id == Get(rec, IdKey)
              && t.orig == rec
  {
    var start := Get(rec, "order_timestart");
    if start.None? then Err(KeyError)
    else
      var ts := if start.value.JStr? then parseTs(start.value.s) else None;
      if ts.None? then Err(Validation)
      else
        var orderId := Get(rec, "order_id");
        var amount := Get(rec, "actual_amount");
        var email := Get(rec, "sender_email");
        if orderId.None? || amount.None? || email.None? then Err(KeyError)
        else
          var code := AsStr(orderId.value);
          var sum := AsStr(amount.value);
          var sender := if Truthy(email.value) then AsStr(email.value) else Some("");
          var status := Get(rec, "order_status");
          if code.None? || sum.None? || sender.None? || status.None? || status.value.JNull? then Err(Validation)
          else
            var id := Get(rec, IdKey);
            Ok(Transaction(
                 id, ts.value,
                 code.value, code.value, sender.value, sum.value,
                 Fondy(status.value == JStr("approved")), rec))
  }

  /** FondyTransaction.check_receipt: the order status is "approved"; OrderStatus maps every other value to "(ignored)". */
  predicate CheckReceipt(t: Transaction) {
    t.details.Fondy? && t.details.approved
  }

  /** check_receipt as the predicate the processing loop takes. */
  function Receipted(): Transaction -> bool {
    t => CheckReceipt(t)
  }

  /** For a parsed row: a receipt is due iff its order_status is "approved". */
  lemma ParsedCheckReceipt(rec: Record, parseTs: string -> Option<Timestamp>)
    requires Parse(rec, parseTs).Ok?
    ensures CheckReceipt(Parse(rec, parseTs).value) <==> Get(rec, "order_status") == Some(JStr("approved"))
  {
  }

  /** Classifying with check_receipt, as intended: every stored row is that of an approved order. */
  lemma OnlyApprovedStored(txs: seq<Transaction>, n: nat)
    requires n <= |txs|
    ensures forall row | row in Rows(txs, n, Receipted()) ::
              exists i | 0 <= i < n :: row == Row(txs[i]) && txs[i].details.Fondy? && txs[i].details.approved
  {
    RowsAccepted(txs, n, Receipted());
  }

  // ---------------------------------------------------------------------
  // FondyTransactionProcessor.pre_run_hook

  /**
   * The processor runs only with a company id and a secret key, and then
   * only with a merchant id; it then talks to FondyAPI(company_id, secret_key).
   */
  function PreRunHook(companyId: Json, secretKey: Json, merchantId: Json): (r: Option<Api>)
    ensures r.Some? <==> Truthy(companyId) && Truthy(secretKey) && Truthy(merchantId)
    ensures r.Some? ==> r.value == Api(companyId, secretKey)
  {
    if !Truthy(companyId) || !Truthy(secretKey) then None
    else if !Truthy(merchantId) then None
    else Some(Api(companyId, secretKey))
  }

}
