/**
 * The fiscal API client's HTTP layer (checkbox_api/helpers.py): endpoints,
 * headers, error messages, the GET retry loop, post and the signature
 * check. The backend is a reply oracle: the request made as the n-th event
 * of a session's trace meets `replies(n)`.
 */
module FiscalHttp {
  import opened Wrappers
  import opened OrderedDict
  import opened Json
  import opened Text

  /** A response: status, reason phrase, the body decoded when it is JSON, and the body as text. */
  datatype Response = Response(status: int, reason: string, json: Option<Json>, content: string)

  /** aiohttp's `response.ok`. */
  predicate IsOk(resp: Response) { resp.status < 400 }

  /** What one request meets. */
  datatype Attempt =
    | TimedOut                       // asyncio.TimeoutError before a response arrived
    | Failed(error: Error)           // any other exception from the transport
    | Answered(response: Response)
    | Late(response: Response)       // status and headers arrived, the body not within the request's timeout

  /**
   * A response whose body never arrived, as code that reads it sees it:
   * every read raises asyncio.TimeoutError, so a reader that catches any
   * exception, as raise_on_error does, falls back to the reason phrase.
   */
  function Unread(resp: Response): (u: Response)
    ensures u.json.None? && u.status == resp.status && u.reason == resp.reason
  {
    resp.(json := None)
  }

  /** get_retry's `loader`: `json()`, or `read()`/`text()`, whose content is carried as a JSON string. */
  datatype Loader = LoadJson | LoadRaw

  datatype PayType = Cash | Cashless

  /** A payment entry; its value is kept exactly, in thousandths of a kopiyka. */
  datatype Payment = Payment(kind: Option<PayType>, thousandths: int, caption: Option<string>)

  /** A good as a receipt line carries it. */
  datatype Item = Item(code: string, name: string, price: int)

  datatype Line = Line(good: Item, quantity: int)

  datatype Body = Empty | Sale(lines: seq<Line>, payments: seq<Payment>) | Service(payment: Payment)

  /** A request sent, or a one-second pause. */
  datatype Event = HttpGet(path: string) | HttpPost(path: string, lic: bool, body: Body) | Pause

  /** What an operation returns and the events it causes, in order. */
  datatype Run<T> = Run(r: Result<T>, events: seq<Event>)

  function After<T>(done: seq<Event>, rest: Run<T>): Run<T> {
    Run(rest.r, done + rest.events)
  }

  /** Events appended in two steps are the events appended once. */
  lemma Appended(trace: seq<Event>, done: seq<Event>, rest: seq<Event>)
    ensures trace + done + rest == trace + (done + rest)
  {
  }

  // ---------------------------------------------------------------- endpoint

  /** posixpath.join(a, b). */
  function PathJoin(a: string, b: string): string {
    if b != [] && b[0] == '/' then b
    else if a == [] || a[|a| - 1] == '/' then a + b
    else a + "/" + b
  }

  /** endpoint(path) under the API root apiUrl. */
  function Endpoint(apiUrl: string, path: string): string {
    PathJoin(PathJoin(apiUrl, "api/v1"), LStripChar(path, '/'))
  }

  /** The root with exactly one separator after it. */
  function Root(apiUrl: string): string {
    if apiUrl == [] || apiUrl[|apiUrl| - 1] == '/' then apiUrl else apiUrl + "/"
  }

  /** Joining a part that does not start with a slash puts exactly one separator before it. */
  lemma JoinRelative(a: string, b: string)
    requires b == [] || b[0] != '/'
    ensures PathJoin(a, b) == Root(a) + b
  {
  }

  /** An endpoint is the root, "api/v1", one separator and the path without its leading slashes. */
  lemma EndpointShape(apiUrl: string, path: string)
    ensures Endpoint(apiUrl, path) == Root(apiUrl) + "api/v1" + "/" + LStripChar(path, '/')
  {
    var v := Root(apiUrl) + "api/v1";
    assert PathJoin(apiUrl, "api/v1") == v by { JoinRelative(apiUrl, "api/v1"); }
    assert Root(v) == v + "/" by { assert v[|v| - 1] == '1'; }
    JoinRelative(v, LStripChar(path, '/'));
  }

  /** A leading slash on the path makes no difference. */
  lemma EndpointLeadingSlash(apiUrl: string, path: string)
    ensures Endpoint(apiUrl, "/" + path) == Endpoint(apiUrl, path)
  {
    assert ("/" + path)[1..] == path;
  }

  // ----------------------------------------------------------------- headers

  /**
   * headers(auth=auth, lic=lic): the client's name and version, then the
   * token sign-in gives when auth is set, then the licence key the
   * configuration must hold when lic is set (token and licence are the
   * outcomes of those lookups).
   */
  function Headers(name: string, version: string, auth: bool, lic: bool,
                   token: Result<string>, license: Result<Json>): Result<ODict<string, Json>>
  {
    if auth && token.Err? then Err(token.error)
    else
      var base: ODict<string, Json> := [("X-Client-Name", JStr(name)), ("X-Client-Version", JStr(version))];
      var signed := if auth then Put(base, "Authorization", JStr(token.value)) else base;
      if !lic then Ok(signed)
      else if license.Err? then Err(license.error)
      else Ok(Put(signed, "X-License-Key", license.value))
  }

  /**
   * The headers always start with the client's name and version; they hold
   * Authorization exactly when auth is set and X-License-Key exactly when
   * lic is set, and fail only on a failed sign-in or a missing licence.
   */
  lemma HeadersSpec(name: string, version: string, auth: bool, lic: bool,
                    token: Result<string>, license: Result<Json>)
    ensures var r := Headers(name, version, auth, lic, token, license);
            (r.Ok? <==> (!auth || token.Ok?) && (!lic || license.Ok?))
            && (auth && token.Err? ==> r == Err(token.error))
            && ((!auth || token.Ok?) && lic && license.Err? ==> r == Err(license.error))
            && (r.Ok? ==> |r.value| >= 2 && r.value[..2] == [("X-Client-Name", JStr(name)), ("X-Client-Version", JStr(version))])
            && (r.Ok? ==> (Get(r.value, "Authorization").Some? <==> auth)
                          && (auth ==> Get(r.value, "Authorization") == Some(JStr(token.value))))
            && (r.Ok? ==> (Get(r.value, "X-License-Key").Some? <==> lic)
                          && (lic ==> Get(r.value, "X-License-Key") == Some(license.value)))
  {
    if !(auth && token.Err?) {
      var base: ODict<string, Json> := [("X-Client-Name", JStr(name)), ("X-Client-Version", JStr(version))];
      assert Get(base, "Authorization") == None;
      assert Get(base, "X-License-Key") == None;
      var signed := base;
      if auth {
        signed := Put(base, "Authorization", JStr(token.value));
        PutGet(base, "Authorization", JStr(token.value), "Authorization");
        PutGet(base, "Authorization", JStr(token.value), "X-License-Key");
        assert signed == base + [("Authorization", JStr(token.value))];
      }
      if lic && license.Ok? {
        PutGet(signed, "X-License-Key", license.value, "Authorization");
        PutGet(signed, "X-License-Key", license.value, "X-License-Key");
        assert Put(signed, "X-License-Key", license.value) == signed + [("X-License-Key", license.value)];
      }
    }
  }

  // ------------------------------------------------------------------ errors

  /**
   * raise_on_error: the exception raised for a failed response. A body that
   * is not JSON gives the reason phrase; otherwise the exception carries the
   * body's `message`, after `message += f": {detail}"` when the body holds a
   * truthy `detail`: a string message is extended with that text, a list
   * message with its characters one by one, and any other message raises
   * TypeError. The exception's text is str() of what it carries.
   */
  function RaiseOnError(resp: Response, exc: CheckboxKind): Error {
    match resp.json
    case None => Checkbox(exc, resp.reason)
    case Some(result) =>
      match Subscript(result, "message")
      case Err(err) => err
      case Ok(message) =>
        var detail := Get(result.members, "detail");
        if detail.Some? && Truthy(detail.value) then
          var suffix := ": " + PyStr(detail.value);
          match message
          case JStr(m) => Checkbox(exc, m + suffix)
          case JArr(items) => Checkbox(exc, PyStr(JArr(items + Iterate(JStr(suffix)).value)))
          case _ => TypeError
        else Checkbox(exc, PyStr(message))
  }

  /**
   * A body that is not JSON gives the reason phrase; a dict without
   * `message` a KeyError, a body that is not a dict a TypeError; a message
   * other than a string or a list meets a truthy detail with a TypeError;
   * every other failure is of the API's own kind, the one asked for.
   */
  lemma RaiseOnErrorText(resp: Response, exc: CheckboxKind)
    ensures var e := RaiseOnError(resp, exc);
            (resp.json.None? ==> e == Checkbox(exc, resp.reason))
            && (e.Checkbox? || e == KeyError || e == TypeError)
            && (e.Checkbox? ==> e.kind == exc)
            && (resp.json.Some? ==>
                  (e == KeyError <==> resp.json.value.JObj? && Get(resp.json.value.members, "message").None?))
            && (resp.json.Some? ==>
                  (e == TypeError <==>
                     !resp.json.value.JObj?
                     || (Get(resp.json.value.members, "message").Some?
                         && Get(resp.json.value.members, "detail").Some?
                         && Truthy(Get(resp.json.value.members, "detail").value)
                         && !Get(resp.json.value.members, "message").value.JStr?
                         && !Get(resp.json.value.members, "message").value.JArr?)))
    ensures forall m: string, d: Json |
              resp.json.Some? && Holds(resp.json.value, "message", JStr(m)) && Holds(resp.json.value, "detail", d) && Truthy(d) ::
              RaiseOnError(resp, exc) == Checkbox(exc, m + ": " + PyStr(d))
    ensures forall m: Json |
              resp.json.Some? && Holds(resp.json.value, "message", m)
              && (Get(resp.json.value.members, "detail").None? || !Truthy(Get(resp.json.value.members, "detail").value)) ::
              RaiseOnError(resp, exc) == Checkbox(exc, PyStr(m))
  {
  }

  /**
   * A list message meets a truthy detail by growing one item per character
   * of ": " and the detail's text, and the exception shows the grown list.
   */
  lemma RaiseOnErrorListMessage(resp: Response, exc: CheckboxKind, items: seq<Json>, d: Json)
    requires resp.json.Some? && Holds(resp.json.value, "message", JArr(items))
    requires Holds(resp.json.value, "detail", d) && Truthy(d)
    ensures var suffix := ": " + PyStr(d);
            exists grown: seq<Json> ::
              RaiseOnError(resp, exc) == Checkbox(exc, PyStr(JArr(grown)))
              && |grown| == |items| + |suffix|
              && grown[..|items|] == items
              && forall i | 0 <= i < |suffix| :: grown[|items| + i] == JStr([suffix[i]])
  {
    var suffix := ": " + PyStr(d);
    var grown := items + Iterate(JStr(suffix)).value;
    assert grown[..|items|] == items;
    assert RaiseOnError(resp, exc) == Checkbox(exc, PyStr(JArr(grown)));
  }

  /** The body as the loader reads it: JSONDecodeError for a body that is not JSON. */
  function Load(resp: Response, loader: Loader): Result<Json> {
    if loader.LoadRaw? then Ok(JStr(resp.content))
    else if resp.json.None? then Err(JsonDecode)
    else Ok(resp.json.value)
  }

  /** check_response: an ok response's loaded body; otherwise raise_on_error's exception. */
  function CheckResponse(resp: Response, loader: Loader, exc: CheckboxKind): Result<Json> {
    if IsOk(resp) then Load(resp, loader) else Err(RaiseOnError(resp, exc))
  }

  /**
   * A checked body is an ok response's loaded body; a failed response gives
   * raise_on_error's exception, and a JSON loader fails on an ok response
   * exactly when its body is not JSON.
   */
  lemma CheckResponseCases(resp: Response, loader: Loader, exc: CheckboxKind)
    ensures var r := CheckResponse(resp, loader, exc);
            (r.Ok? ==> IsOk(resp) && r == Load(resp, loader))
            && (!IsOk(resp) ==> r == Err(RaiseOnError(resp, exc)))
            && (IsOk(resp) && loader.LoadJson? ==> (r == Err(JsonDecode) <==> resp.json.None?))
  {
  }

  /**
   * raise_for_status (checkbox_api/helpers.py): an ok response passes; a
   * failed one raises aiohttp's ClientResponseError, unless its JSON body
   * has no `message`: the lookup's KeyError (TypeError for a body that is
   * not a dict) escapes first.
   */
  function RaiseForStatus(resp: Response): (r: Result<Response>)
    ensures r.Ok? <==> IsOk(resp)
    ensures r.Ok? ==> r.value == resp
    ensures !IsOk(resp) && (resp.json.None? || Subscript(resp.json.value, "message").Ok?) ==>
              r == Err(HttpStatus(resp.status))
    ensures r.Err? && !r.error.HttpStatus? ==>
              resp.json.Some? && Subscript(resp.json.value, "message") == Err(r.error)
  {
    if IsOk(resp) then Ok(resp)
    else if resp.json.None? then Err(HttpStatus(resp.status))
    else match Subscript(resp.json.value, "message")
      case Err(e) => Err(e)
      case Ok(_) => Err(HttpStatus(resp.status))
  }

  /**
   * The line raise_for_status logs for a string message, as written:
   * `f"{message}" + f": {detail}" if detail else ""`, which Python reads as
   * one conditional around the whole concatenation.
   */
  function LogLineAsWritten(message: string, detail: Option<string>): string {
    if detail.Some? && detail.value != "" then message + ": " + detail.value else ""
  }

  /** Without a detail the line as written loses the message altogether. */
  lemma LogLineLosesMessage(message: string)
    requires message != ""
    ensures LogLineAsWritten(message, None) == "" != LogLine(message, None)
  {
  }

  /** The line evidently meant: the message, then ": detail" when there is a detail. */
  function LogLine(message: string, detail: Option<string>): (line: string)
    ensures |line| >= |message| && line[..|message|] == message
    ensures detail.Some? && detail.value != "" ==> line == message + ": " + detail.value
    ensures detail.None? || detail.value == "" ==> line == message
  {
    message + (if detail.Some? && detail.value != "" then ": " + detail.value else "")
  }

  // --------------------------------------------------------------- get_retry

  const Unknown := "Невідома помилка"

  /** get_retry makes at most this many attempts. */
  const Attempts: nat := 6

  /**
   * Does this outcome end get_retry's loop: a response below 500, or an
   * exception it does not catch. A late ok response does not: the loader's
   * read of its body times out inside the attempt, and the loop catches
   * that. A late failed response below 500 does: raise_on_error catches
   * the timed-out read and raises the API error with the reason phrase.
   */
  predicate Ends(a: Attempt) {
    a.Failed? || (a.Answered? && a.response.status < 500)
    || (a.Late? && a.response.status < 500 && !IsOk(a.response))
  }

  /** What get_retry returns or raises when this outcome ends its loop. */
  function Outcome(a: Attempt, loader: Loader, exc: CheckboxKind): Result<Json> {
    match a
    case Failed(e) => Err(e)
    case Answered(resp) => CheckResponse(resp, loader, exc)
    case Late(resp) => if IsOk(resp) then Err(Timeout) else Err(RaiseOnError(Unread(resp), exc))
    case TimedOut => Err(Timeout)
  }

  /**
   * The last response received, after this attempt: `response` stays bound
   * to a response whose body timed out, and raise_on_error later finds that
   * body unreadable.
   */
  function Held(a: Attempt, last: Option<Response>): Option<Response> {
    match a
    case Answered(resp) => Some(resp)
    case Late(resp) => Some(Unread(resp))
    case _ => last
  }

  /** The exception held, after this attempt: a timeout, also one reading an ok response's body, replaces it. */
  function Raised(a: Attempt, err: Error): Error {
    if a.TimedOut? || (a.Late? && IsOk(a.response)) then Timeout else err
  }

  /** What get_retry raises once its attempts are spent. */
  function GiveUp(last: Option<Response>, err: Error, exc: CheckboxKind): Error {
    if last.Some? then RaiseOnError(last.value, exc) else err
  }

  /** How get_retry's loop ended: at an attempt whose outcome ends it, or with its six attempts spent. */
  datatype Ending = EndedBy(outcome: Attempt) | Spent(last: Option<Response>, err: Error)

  /** The loop's ending and the events it caused. */
  datatype Loop = Loop(end: Ending, events: seq<Event>)

  function Prefixed(done: seq<Event>, loop: Loop): Loop {
    Loop(loop.end, done + loop.events)
  }

  /**
   * get_retry's loop from attempt `attempt` on, with `last` the last
   * response received and `err` the exception held so far; the request of
   * this attempt is the event at position `at`.
   */
  function RetryLoop(replies: nat -> Attempt, at: nat, path: string, attempt: nat, last: Option<Response>, err: Error): Loop
    decreases 6 - attempt
  {
    if attempt >= 6 then Loop(Spent(last, err), [])
    else if Ends(replies(at)) then Loop(EndedBy(replies(at)), [HttpGet(path)])
    else Prefixed([HttpGet(path), Pause],
                  RetryLoop(replies, at + 2, path, attempt + 1, Held(replies(at), last), Raised(replies(at), err)))
  }

  /** What get_retry returns or raises, given how its loop ended. */
  function Finish(end: Ending, loader: Loader, exc: CheckboxKind): Result<Json> {
    match end
    case EndedBy(a) => Outcome(a, loader, exc)
    case Spent(last, err) => Err(GiveUp(last, err, exc))
  }

  /** get_retry(path, loader=loader, exc=exc) whose first request is the event at position at. */
  function Retry(replies: nat -> Attempt, at: nat, path: string, loader: Loader, exc: CheckboxKind): Run<Json> {
    var loop := RetryLoop(replies, at, path, 0, None, Checkbox(exc, Unknown));
    Run(Finish(loop.end, loader, exc), loop.events)
  }

  /** k failed attempts: each a request and the pause after it. */
  function Tries(path: string, k: nat): (t: seq<Event>)
    ensures |t| == 2 * k
  {
    if k == 0 then [] else [HttpGet(path), Pause] + Tries(path, k - 1)
  }

  lemma {:induction false} TriesSnoc(path: string, k: nat)
    ensures Tries(path, k + 1) == Tries(path, k) + [HttpGet(path), Pause]
  {
    if k > 0 {
      TriesSnoc(path, k - 1);
    }
  }

  /** Requests to path at the even positions, pauses at the odd ones. */
  predicate Alternates(events: seq<Event>, path: string) {
    forall k | 0 <= k < |events| :: events[k] == if k % 2 == 0 then HttpGet(path) else Pause
  }

  lemma AlternatesPrepend(events: seq<Event>, path: string)
    requires Alternates(events, path)
    ensures Alternates([HttpGet(path), Pause] + events, path)
  {
    var e := [HttpGet(path), Pause] + events;
    forall k | 2 <= k < |e| ensures e[k] == if k % 2 == 0 then HttpGet(path) else Pause {
      assert e[k] == events[k - 2];
    }
  }

  /** The last response among the first k attempts, counting from position at, as get_retry holds it. */
  function LastAnswer(replies: nat -> Attempt, at: nat, k: nat): Option<Response> {
    if k == 0 then None
    else Held(replies(at + 2 * (k - 1)), LastAnswer(replies, at, k - 1))
  }

  /**
   * The first attempt whose outcome ends the loop is its last: the loop
   * ends there, after the failed attempts before it and their pauses.
   * Attempt n's request is the event at position base + 2n.
   */
  lemma {:induction false} RetryLoopSettles(replies: nat -> Attempt, base: nat, path: string,
                                            attempt: nat, last: Option<Response>, err: Error, i: nat)
    requires attempt <= i < 6
    requires forall j | attempt <= j < i :: !Ends(replies(base + 2 * j))
    requires Ends(replies(base + 2 * i))
    ensures RetryLoop(replies, base + 2 * attempt, path, attempt, last, err)
         == Loop(EndedBy(replies(base + 2 * i)), Tries(path, i - attempt) + [HttpGet(path)])
    decreases i - attempt
  {
    if attempt < i {
      var a := replies(base + 2 * attempt);
      assert base + 2 * attempt + 2 == base + 2 * (attempt + 1);
      RetryLoopSettles(replies, base, path, attempt + 1, Held(a, last), Raised(a, err), i);
      assert Tries(path, i - attempt) + [HttpGet(path)]
          == [HttpGet(path), Pause] + (Tries(path, i - (attempt + 1)) + [HttpGet(path)]);
    }
  }

  /**
   * get_retry returns or raises what the first attempt that ends its loop
   * gives: the checked body of a response below 500, or the exception.
   */
  lemma RetrySettles(replies: nat -> Attempt, at: nat, path: string, loader: Loader, exc: CheckboxKind, i: nat)
    requires i < 6
    requires forall j | 0 <= j < i :: !Ends(replies(at + 2 * j))
    requires Ends(replies(at + 2 * i))
    ensures Retry(replies, at, path, loader, exc)
         == Run(Outcome(replies(at + 2 * i), loader, exc), Tries(path, i) + [HttpGet(path)])
  {
    assert at + 2 * 0 == at;
    RetryLoopSettles(replies, at, path, 0, None, Checkbox(exc, Unknown), i);
  }

  /** One more attempt: the response held is the last among one more attempt, and a timeout is held while none came. */
  lemma HeldStep(replies: nat -> Attempt, base: nat, attempt: nat, last: Option<Response>, err: Error)
    requires !Ends(replies(base + 2 * attempt))
    requires last == LastAnswer(replies, base, attempt)
    requires attempt > 0 && last.None? ==> err == Timeout
    ensures var a := replies(base + 2 * attempt);
            Held(a, last) == LastAnswer(replies, base, attempt + 1)
            && (Held(a, last).None? ==> Raised(a, err) == Timeout)
  {
    assert base + 2 * (attempt + 1 - 1) == base + 2 * attempt;
  }

  /**
   * When no attempt from `attempt` on ends the loop, its attempts are all
   * spent: it holds the last response of all six attempts, and a timeout
   * when there was none.
   */
  lemma {:induction false} RetryLoopGivesUp(replies: nat -> Attempt, base: nat, path: string,
                                            attempt: nat, last: Option<Response>, err: Error)
    requires attempt <= Attempts
    requires forall j | attempt <= j < Attempts :: !Ends(replies(base + 2 * j))
    requires last == LastAnswer(replies, base, attempt)
    requires attempt > 0 && last.None? ==> err == Timeout
    ensures var loop := RetryLoop(replies, base + 2 * attempt, path, attempt, last, err);
            loop.events == Tries(path, Attempts - attempt) && loop.end.Spent?
            && loop.end.last == LastAnswer(replies, base, Attempts)
            && (loop.end.last.None? ==> loop.end.err == Timeout)
    decreases Attempts - attempt
  {
    if attempt < Attempts {
      var a := replies(base + 2 * attempt);
      assert base + 2 * attempt + 2 == base + 2 * (attempt + 1);
      HeldStep(replies, base, attempt, last, err);
      RetryLoopGivesUp(replies, base, path, attempt + 1, Held(a, last), Raised(a, err));
    }
  }

  /**
   * When all six attempts time out or answer 500 or more, get_retry makes
   * six requests with a pause after each, and raises raise_on_error's
   * exception for the last response it received, or the timeout when it
   * received none: the initial "Невідома помилка" is never what it raises.
   */
  lemma RetryGivesUp(replies: nat -> Attempt, at: nat, path: string, loader: Loader, exc: CheckboxKind)
    requires forall j | 0 <= j < 6 :: !Ends(replies(at + 2 * j))
    ensures var answer := LastAnswer(replies, at, 6);
            (Retry(replies, at, path, loader, exc)
             == Run(Err(if answer.Some? then RaiseOnError(answer.value, exc) else Timeout), Tries(path, 6)))
  {
    assert at + 2 * 0 == at;
    RetryLoopGivesUp(replies, at, path, 0, None, Checkbox(exc, Unknown));
  }

  /** Attempts after position i that receive no response leave the held response as it was. */
  lemma {:induction false} LastAnswerTimedOut(replies: nat -> Attempt, at: nat, i: nat, k: nat)
    requires i <= k
    requires forall j | i <= j < k :: replies(at + 2 * j).TimedOut?
    ensures LastAnswer(replies, at, k) == LastAnswer(replies, at, i)
    decreases k - i
  {
    if i < k {
      LastAnswerTimedOut(replies, at, i, k - 1);
      assert replies(at + 2 * (k - 1)).TimedOut?;
    }
  }

  /**
   * A late reply keeps get_retry going and stays bound: when attempt i
   * meets a late response that does not end the loop (an ok one, whose
   * loader times out, or one of 500 or more), and every later attempt
   * times out, the six attempts are spent and get_retry raises
   * raise_on_error's exception for that response, whose body it cannot
   * read: the API error with the reason phrase, not the timeout.
   */
  lemma RetryLateGivesReason(replies: nat -> Attempt, at: nat, path: string, loader: Loader, exc: CheckboxKind, i: nat)
    requires i < 6
    requires forall j | 0 <= j < i :: !Ends(replies(at + 2 * j))
    requires replies(at + 2 * i).Late? && (IsOk(replies(at + 2 * i).response) || replies(at + 2 * i).response.status >= 500)
    requires forall j | i < j < 6 :: replies(at + 2 * j).TimedOut?
    ensures Retry(replies, at, path, loader, exc)
         == Run(Err(Checkbox(exc, replies(at + 2 * i).response.reason)), Tries(path, 6))
  {
    var late := replies(at + 2 * i);
    assert LastAnswer(replies, at, i + 1) == Some(Unread(late.response)) by {
      assert at + 2 * (i + 1 - 1) == at + 2 * i;
    }
    LastAnswerTimedOut(replies, at, i + 1, 6);
    RetryGivesUp(replies, at, path, loader, exc);
  }

  /** At most six requests, to path, with a pause between each two; at least one request. */
  lemma {:induction false} RetryLoopBounded(replies: nat -> Attempt, at: nat, path: string,
                                            attempt: nat, last: Option<Response>, err: Error)
    requires attempt <= 6
    ensures |RetryLoop(replies, at, path, attempt, last, err).events| <= 2 * (6 - attempt)
    ensures Alternates(RetryLoop(replies, at, path, attempt, last, err).events, path)
    ensures attempt < 6 ==> RetryLoop(replies, at, path, attempt, last, err).events != []
    decreases 6 - attempt
  {
    if attempt < 6 {
      var a := replies(at);
      if !Ends(a) {
        var rest := RetryLoop(replies, at + 2, path, attempt + 1, Held(a, last), Raised(a, err));
        RetryLoopBounded(replies, at + 2, path, attempt + 1, Held(a, last), Raised(a, err));
        AlternatesPrepend(rest.events, path);
      } else {
        assert RetryLoop(replies, at, path, attempt, last, err).events == [HttpGet(path)];
        assert [HttpGet(path)][0] == HttpGet(path);
      }
    }
  }

  lemma RetryBounded(replies: nat -> Attempt, at: nat, path: string, loader: Loader, exc: CheckboxKind)
    ensures var run := Retry(replies, at, path, loader, exc);
            |run.events| <= 12 && Alternates(run.events, path) && run.events != []
  {
    RetryLoopBounded(replies, at, path, 0, None, Checkbox(exc, Unknown));
  }

  /** A loop that ended at an attempt ended at its last request, whose outcome ends the loop. */
  predicate EndsAtLast(replies: nat -> Attempt, at: nat, path: string, loop: Loop) {
    loop.end.EndedBy? ==>
      |loop.events| > 0 && loop.events[|loop.events| - 1] == HttpGet(path)
      && replies(at + |loop.events| - 1) == loop.end.outcome && Ends(loop.end.outcome)
  }

  lemma EndsAtLastPrepend(replies: nat -> Attempt, at: nat, path: string, rest: Loop)
    requires EndsAtLast(replies, at + 2, path, rest)
    ensures EndsAtLast(replies, at, path, Prefixed([HttpGet(path), Pause], rest))
  {
    var loop := Prefixed([HttpGet(path), Pause], rest);
    if rest.end.EndedBy? {
      assert loop.events[|loop.events| - 1] == rest.events[|rest.events| - 1];
      assert at + |loop.events| - 1 == at + 2 + |rest.events| - 1;
    }
  }

  lemma {:induction false} RetryLoopEndsAtLast(replies: nat -> Attempt, at: nat, path: string,
                                               attempt: nat, last: Option<Response>, err: Error)
    ensures EndsAtLast(replies, at, path, RetryLoop(replies, at, path, attempt, last, err))
    decreases 6 - attempt
  {
    if attempt < 6 && !Ends(replies(at)) {
      var a := replies(at);
      RetryLoopEndsAtLast(replies, at + 2, path, attempt + 1, Held(a, last), Raised(a, err));
      EndsAtLastPrepend(replies, at, path, RetryLoop(replies, at + 2, path, attempt + 1, Held(a, last), Raised(a, err)));
    }
  }

  /** The run ends with an ok response to its last request, and its result is that response's body. */
  predicate EndsWithOk(replies: nat -> Attempt, at: nat, loader: Loader, path: string, run: Run<Json>) {
    run.r.Ok? ==>
      |run.events| > 0 && run.events[|run.events| - 1] == HttpGet(path)
      && replies(at + |run.events| - 1).Answered?
      && IsOk(replies(at + |run.events| - 1).response)
      && run.r == Load(replies(at + |run.events| - 1).response, loader)
  }

  /** A result get_retry returns comes from the response to its last request, an ok one. */
  lemma RetryOk(replies: nat -> Attempt, at: nat, path: string, loader: Loader, exc: CheckboxKind)
    ensures EndsWithOk(replies, at, loader, path, Retry(replies, at, path, loader, exc))
  {
    var loop := RetryLoop(replies, at, path, 0, None, Checkbox(exc, Unknown));
    RetryLoopEndsAtLast(replies, at, path, 0, None, Checkbox(exc, Unknown));
    if loop.end.EndedBy? && loop.end.outcome.Answered? {
      CheckResponseCases(loop.end.outcome.response, loader, exc);
    }
  }

  // -------------------------------------------------------- post, check_sign

  /**
   * post: one request; an ok response's JSON body, otherwise raise_on_error's
   * exception. An ok response whose body times out raises the timeout; a
   * failed one gives raise_on_error's reason phrase.
   */
  function PostResult(a: Attempt, exc: CheckboxKind): (r: Result<Json>)
    ensures r.Ok? <==> a.Answered? && IsOk(a.response) && a.response.json.Some?
    ensures r.Ok? ==> r.value == a.response.json.value
    ensures a.Answered? && !IsOk(a.response) ==> r == Err(RaiseOnError(a.response, exc))
    ensures a.Late? && IsOk(a.response) ==> r == Err(Timeout)
    ensures a.Late? && !IsOk(a.response) ==> r == Err(Checkbox(exc, a.response.reason))
    ensures a.TimedOut? ==> r == Err(Timeout)
    ensures a.Failed? ==> r == Err(a.error)
  {
    match a
    case TimedOut => Err(Timeout)
    case Failed(e) => Err(e)
    case Late(resp) => if IsOk(resp) then Err(Timeout) else Err(RaiseOnError(Unread(resp), exc))
    case Answered(resp) =>
      if !IsOk(resp) then Err(RaiseOnError(resp, exc))
      else if resp.json.None? then Err(JsonDecode)
      else Ok(resp.json.value)
  }

  const SignPath := "/cashier/check-signature"

  /** check_sign on get_retry's result: a body that is not JSON reads as False, otherwise `online`. */
  function SignState(g: Result<Json>): (r: Result<Json>)
    ensures g == Err(JsonDecode) ==> r == Ok(JBool(false))
    ensures g.Err? && g.error != JsonDecode ==> r == g
    ensures g.Ok? ==> r == Subscript(g.value, "online")
  {
    if g == Err(JsonDecode) then Ok(JBool(false))
    else if g.Err? then Err(g.error)
    else Subscript(g.value, "online")
  }

  /** check_sign whose first request is the event at position at. */
  function SignRun(replies: nat -> Attempt, at: nat): Run<Json> {
    var g := Retry(replies, at, SignPath, LoadJson, SignError);
    Run(SignState(g.r), g.events)
  }

  /** require_sign's guard on check_sign's outcome: the error that stops the wrapped operation, if any. */
  function SignGate(check: Result<Json>): (stop: Option<Error>)
    ensures stop.None? <==> check.Ok? && Truthy(check.value)
    ensures check.Err? ==> stop == Some(check.error)
    ensures check.Ok? && !Truthy(check.value) ==> stop == Some(Checkbox(SignError, "Підпис недоступний"))
  {
    if check.Err? then Some(check.error)
    else if Truthy(check.value) then None
    else Some(Checkbox(SignError, "Підпис недоступний"))
  }

  /**
   * The guard lets an operation through only when the last request of the
   * check met an ok response whose JSON body holds a truthy `online`.
   */
  lemma SignedOnlyWhenOnline(replies: nat -> Attempt, at: nat)
    ensures var run := SignRun(replies, at);
            SignGate(run.r).None? ==>
              |run.events| > 0
              && var a := replies(at + |run.events| - 1);
                 a.Answered? && IsOk(a.response) && a.response.json.Some?
                 && Truthy(Subscript(a.response.json.value, "online").value)
  {
    RetryOk(replies, at, SignPath, LoadJson, SignError);
  }

  // ----------------------------------------------------------------- session

  /** One aiohttp session against the backend: the reply oracle and the trace of what was done. */
  class Session {
    /** What the backend answers to the request made as the n-th event of the trace. */
    const replies: nat -> Attempt
    /** The requests sent and the pauses taken, in order. */
    var trace: seq<Event>

    constructor(replies: nat -> Attempt)
      ensures this.replies == replies && trace == []
    {
      this.replies := replies;
      trace := [];
    }

    method Request(e: Event) returns (a: Attempt)
      modifies this
      ensures trace == old(trace) + [e] && a == replies(|old(trace)|)
    {
      a := replies(|trace|);
      trace := trace + [e];
    }

    /** asyncio.sleep(1). */
    method Sleep()
      modifies this
      ensures trace == old(trace) + [Pause]
    {
      trace := trace + [Pause];
    }

    /**
     * get_retry(path, loader=loader, exc=exc): up to six requests, a pause
     * after each one that times out or meets a response of 500 or more.
     */
    method GetRetry(path: string, loader: Loader, exc: CheckboxKind) returns (r: Result<Json>)
      modifies this
      ensures var run := Retry(replies, |old(trace)|, path, loader, exc);
              r == run.r && trace == old(trace) + run.events
    {
      ghost var at := |trace|;
      var err := Checkbox(exc, Unknown);
      var response: Option<Response> := None;
      var attempt := 0;
      while attempt < 6
        invariant attempt <= 6
        invariant trace == old(trace) + Tries(path, attempt) && |trace| == at + 2 * attempt
        invariant forall j | 0 <= j < attempt :: !Ends(replies(at + 2 * j))
        invariant response == LastAnswer(replies, at, attempt)
        invariant attempt > 0 && response.None? ==> err == Timeout
      {
        var a := Request(HttpGet(path));
        if Ends(a) {
          // a response below 500 is checked and returned; any exception but a timeout escapes
          r := Outcome(a, loader, exc);
          RetrySettles(replies, at, path, loader, exc, attempt);
          return;
        }
        // a timeout, or a response of 500 or more: remember it and try again after a pause
        response, err := Held(a, response), Raised(a, err);
        Sleep();
        TriesSnoc(path, attempt);
        attempt := attempt + 1;
      }
      r := Err(GiveUp(response, err, exc));
      RetryGivesUp(replies, at, path, loader, exc);
    }

    /** post(path, lic=lic, exc=exc, **body). */
    method PostJson(path: string, lic: bool, body: Body, exc: CheckboxKind) returns (r: Result<Json>)
      modifies this
      ensures trace == old(trace) + [HttpPost(path, lic, body)] && r == PostResult(replies(|old(trace)|), exc)
    {
      var a := Request(HttpPost(path, lic, body));
      r := PostResult(a, exc);
    }

    /** check_sign, and require_sign's guard on its outcome. */
    method RequireSign() returns (stop: Option<Error>)
      modifies this
      ensures var run := SignRun(replies, |old(trace)|);
              stop == SignGate(run.r) && trace == old(trace) + run.events
    {
      var g := GetRetry(SignPath, LoadJson, SignError);
      stop := SignGate(SignState(g));
    }
  }
}
