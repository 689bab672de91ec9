/**
 * Shifts on the fiscal API (checkbox_api/shift.py): the current shift,
 * opening a shift, the service cash-out, the balance and closing a shift.
 * Each request goes through the context-manager helpers as a single
 * request to the session's reply oracle; the polls pause one second after
 * every reply that does not settle them.
 */
module FiscalShift {
  import opened Wrappers
  import opened Json
  import opened FiscalHttp

  const ShiftPath := "/cashier/shift"
  const OpenPath := "/shifts"
  const ServicePath := "/receipts/service"
  const ClosePath := "/shifts/close"

  const OpenFailed := Checkbox(ShiftError, "Не вдалось відкрити зміну")
  const OpenUnsigned := Checkbox(ShiftError, "Не вдалось підписати зміну")
  const ShiftClosed := Checkbox(ShiftError, "Зміна закрита")
  const ServiceFailed := Checkbox(ReceiptError, "Не вдалось здійснити службову видачу")
  const ServiceUnsigned := Checkbox(ReceiptError, "Не вдалось підписати службову видачу")
  const CloseUnsigned := Checkbox(ShiftError, "Не вдалось підписати закриття зміни")

  // ---------------------------------------------------------- one request

  /**
   * A response passed through raise_for_status and read as JSON; the
   * exceptions of the transport escape. A body that never arrives makes the
   * JSON read time out, while raise_for_status swallows its own read of it
   * and raises the status error.
   */
  function Checked(a: Attempt): Result<Json> {
    match a
    case TimedOut => Err(Timeout)
    case Failed(e) => Err(e)
    case Late(resp) => Err(if IsOk(resp) then Timeout else HttpStatus(resp.status))
    case Answered(resp) =>
      match RaiseForStatus(resp)
      case Err(e) => Err(e)
      case Ok(_) => if resp.json.None? then Err(JsonDecode) else Ok(resp.json.value)
  }

  /**
   * Only an ok response with a JSON body passes, giving that body; a failed
   * response gives raise_for_status's exception.
   */
  lemma CheckedCases(a: Attempt)
    ensures var r := Checked(a);
            (r.Ok? <==> a.Answered? && IsOk(a.response) && a.response.json.Some?)
            && (r.Ok? ==> r.value == a.response.json.value)
            && (a.Answered? && !IsOk(a.response) ==> r == Err(RaiseForStatus(a.response).error))
            && (a.Late? ==> r == Err(if IsOk(a.response) then Timeout else HttpStatus(a.response.status)))
            && (a.TimedOut? ==> r == Err(Timeout))
            && (a.Failed? ==> r == Err(a.error))
  {
  }

  /** `except ClientResponseError: raise failure`: only the HTTP status error is replaced. */
  function Rebrand<T>(r: Result<T>, failure: Error): (b: Result<T>)
    ensures r.Err? && r.error.HttpStatus? ==> b == Err(failure)
    ensures !(r.Err? && r.error.HttpStatus?) ==> b == r
  {
    if r.Err? && r.error.HttpStatus? then Err(failure) else r
  }

  /**
   * A JSON value used as a number (`<= 0`, unary minus, `/ 100`): Python
   * reads a bool as 0 or 1, and raises TypeError for anything else that is
   * not a number.
   */
  function Amount(j: Json): (r: Result<int>)
    ensures j.JNum? ==> r == Ok(j.n)
    ensures r.Err? <==> !j.JNum? && !j.JBool?
    ensures r.Err? ==> r.error == TypeError
  {
    match j
    case JNum(n) => Ok(n)
    case JBool(b) => Ok(if b then 1 else 0)
    case _ => Err(TypeError)
  }

  /** `shift["balance"][key]` used as a number, in kopiykas. */
  function BalanceOf(shift: Json, key: string): Result<int> {
    match Subscript(shift, "balance")
    case Err(e) => Err(e)
    case Ok(balance) =>
      match Subscript(balance, key)
      case Err(e) => Err(e)
      case Ok(v) => Amount(v)
  }

  /** A shift or a receipt whose balance holds the number n under key. */
  lemma BalanceOfNumber(shift: Json, key: string, balance: Json, n: int)
    requires Holds(shift, "balance", balance) && Holds(balance, key, JNum(n))
    ensures BalanceOf(shift, key) == Ok(n)
  {
  }

  // ---------------------------------------------------------------- polls

  /** How one poll's reply is taken. */
  datatype Look = Again | Found(value: Json) | Escape(error: Error)

  /**
   * One iteration of a poll: `response.json()` inside
   * `try ... except JSONDecodeError: pass`, then the poll's test; a body
   * that is not JSON is passed over, an exception of the transport or of
   * the test escapes, and so does the timeout of a body that never arrives.
   */
  function Judge(a: Attempt, done: Json -> Result<bool>): Look {
    match a
    case TimedOut => Escape(Timeout)
    case Failed(e) => Escape(e)
    case Late(_) => Escape(Timeout)
    case Answered(resp) =>
      if resp.json.None? then Again
      else match done(resp.json.value)
        case Err(e) => Escape(e)
        case Ok(b) => if b then Found(resp.json.value) else Again
  }

  /**
   * A poll returns only a JSON body that passed its test; a body that is
   * not JSON goes round again; only the transport and the test raise.
   */
  lemma JudgeCases(a: Attempt, done: Json -> Result<bool>)
    ensures var l := Judge(a, done);
            (l.Found? ==> a.Answered? && a.response.json == Some(l.value) && done(l.value) == Ok(true))
            && (a.Answered? && a.response.json.None? ==> l == Again)
            && (a.Late? ==> l == Escape(Timeout))
            && (l.Escape? ==> !a.Answered? || done(a.response.json.value).Err?)
  {
  }

  /** What a settled poll gives: the body that passed the test, or the exception. */
  function Settled(l: Look): Result<Json>
    requires !l.Again?
  {
    if l.Found? then Ok(l.value) else Err(l.error)
  }

  /** Iterations k to limit - 1 of a poll of path, the first request being the event at position at. */
  function PollFrom(replies: nat -> Attempt, at: nat, path: string, done: Json -> Result<bool>,
                    k: nat, limit: nat, fail: Error): Run<Json>
    decreases limit - k
  {
    if k >= limit then Run(Err(fail), [])
    else
      var l := Judge(replies(at), done);
      if l.Again? then After([HttpGet(path), Pause], PollFrom(replies, at + 2, path, done, k + 1, limit, fail))
      else Run(Settled(l), [HttpGet(path)])
  }

  /** A poll of path of at most limit iterations that raises fail when none settles it. */
  function Poll(replies: nat -> Attempt, at: nat, path: string, done: Json -> Result<bool>,
                limit: nat, fail: Error): Run<Json> {
    PollFrom(replies, at, path, done, 0, limit, fail)
  }

  /**
   * The first iteration that does not go round again settles the poll,
   * after the earlier iterations and their pauses. Iteration n's request
   * is the event at position base + 2n.
   */
  lemma {:induction false} PollFromSettles(replies: nat -> Attempt, base: nat, path: string, done: Json -> Result<bool>,
                                           k: nat, limit: nat, fail: Error, i: nat)
    requires k <= i < limit
    requires forall j | k <= j < i :: Judge(replies(base + 2 * j), done).Again?
    requires !Judge(replies(base + 2 * i), done).Again?
    ensures PollFrom(replies, base + 2 * k, path, done, k, limit, fail)
         == Run(Settled(Judge(replies(base + 2 * i), done)), Tries(path, i - k) + [HttpGet(path)])
    decreases i - k
  {
    if k < i {
      assert base + 2 * k + 2 == base + 2 * (k + 1);
      PollFromSettles(replies, base, path, done, k + 1, limit, fail, i);
      assert Tries(path, i - k) + [HttpGet(path)] == [HttpGet(path), Pause] + (Tries(path, i - (k + 1)) + [HttpGet(path)]);
    }
  }

  lemma {:induction false} PollFromGivesUp(replies: nat -> Attempt, base: nat, path: string, done: Json -> Result<bool>,
                                           k: nat, limit: nat, fail: Error)
    requires k <= limit
    requires forall j | k <= j < limit :: Judge(replies(base + 2 * j), done).Again?
    ensures PollFrom(replies, base + 2 * k, path, done, k, limit, fail) == Run(Err(fail), Tries(path, limit - k))
    decreases limit - k
  {
    if k < limit {
      assert base + 2 * k + 2 == base + 2 * (k + 1);
      PollFromGivesUp(replies, base, path, done, k + 1, limit, fail);
    }
  }

  /** The poll returns or raises what its first iteration that does not go round again gives. */
  lemma PollSettles(replies: nat -> Attempt, at: nat, path: string, done: Json -> Result<bool>,
                    limit: nat, fail: Error, i: nat)
    requires i < limit
    requires forall j | 0 <= j < i :: Judge(replies(at + 2 * j), done).Again?
    requires !Judge(replies(at + 2 * i), done).Again?
    ensures Poll(replies, at, path, done, limit, fail)
         == Run(Settled(Judge(replies(at + 2 * i), done)), Tries(path, i) + [HttpGet(path)])
  {
    assert at + 2 * 0 == at;
    PollFromSettles(replies, at, path, done, 0, limit, fail, i);
  }

  /** When no iteration settles it, the poll makes limit requests, each followed by a pause, and raises fail. */
  lemma PollGivesUp(replies: nat -> Attempt, at: nat, path: string, done: Json -> Result<bool>,
                    limit: nat, fail: Error)
    requires forall j | 0 <= j < limit :: Judge(replies(at + 2 * j), done).Again?
    ensures Poll(replies, at, path, done, limit, fail) == Run(Err(fail), Tries(path, limit))
  {
    assert at + 2 * 0 == at;
    PollFromGivesUp(replies, at, path, done, 0, limit, fail);
  }

  /** A settled poll settled at its last request; a body a poll returns passed its test there. */
  predicate SettledAtLast(replies: nat -> Attempt, at: nat, path: string, done: Json -> Result<bool>,
                          fail: Error, run: Run<Json>) {
    run.r != Err(fail) ==>
      |run.events| > 0 && run.events[|run.events| - 1] == HttpGet(path)
      && var l := Judge(replies(at + |run.events| - 1), done);
         !l.Again? && run.r == Settled(l)
  }

  /**
   * At most limit requests, all to path, with a pause after each but the
   * last; a result other than fail comes from the last request.
   */
  lemma {:induction false} PollFromBounded(replies: nat -> Attempt, at: nat, path: string, done: Json -> Result<bool>,
                                           k: nat, limit: nat, fail: Error)
    requires k <= limit
    ensures var run := PollFrom(replies, at, path, done, k, limit, fail);
            |run.events| <= 2 * (limit - k) && Alternates(run.events, path)
            && SettledAtLast(replies, at, path, done, fail, run)
    decreases limit - k
  {
    if k < limit {
      var l := Judge(replies(at), done);
      if l.Again? {
        var rest := PollFrom(replies, at + 2, path, done, k + 1, limit, fail);
        PollFromBounded(replies, at + 2, path, done, k + 1, limit, fail);
        AlternatesPrepend(rest.events, path);
        var run := After([HttpGet(path), Pause], rest);
        if rest.r != Err(fail) {
          assert run.events[|run.events| - 1] == rest.events[|rest.events| - 1];
          assert at + |run.events| - 1 == at + 2 + |rest.events| - 1;
        }
      } else {
        assert [HttpGet(path)][0] == HttpGet(path);
      }
    }
  }

  lemma PollBounded(replies: nat -> Attempt, at: nat, path: string, done: Json -> Result<bool>,
                    limit: nat, fail: Error)
    ensures var run := Poll(replies, at, path, done, limit, fail);
            |run.events| <= 2 * limit && Alternates(run.events, path)
            && SettledAtLast(replies, at, path, done, fail, run)
  {
    PollFromBounded(replies, at, path, done, 0, limit, fail);
  }

  /** The reply to a poll's request held a JSON body that passed the test. */
  predicate Passed(a: Attempt, done: Json -> Result<bool>) {
    a.Answered? && a.response.json.Some? && done(a.response.json.value) == Ok(true)
  }

  /**
   * A body a poll returns is the body of the reply to its last request,
   * which passed the test.
   */
  lemma PollFound(replies: nat -> Attempt, at: nat, path: string, done: Json -> Result<bool>,
                  limit: nat, fail: Error)
    ensures var run := Poll(replies, at, path, done, limit, fail);
            run.r.Ok? ==>
              0 < |run.events| <= 2 * limit && run.events[|run.events| - 1] == HttpGet(path)
              && Passed(replies(at + |run.events| - 1), done)
              && Some(run.r.value) == replies(at + |run.events| - 1).response.json
  {
    var run := Poll(replies, at, path, done, limit, fail);
    PollBounded(replies, at, path, done, limit, fail);
    if run.r.Ok? {
      JudgeCases(replies(at + |run.events| - 1), done);
    }
  }

  /**
   * A request, then a poll that returns: the poll's last request is the
   * last event, and its reply passed the test.
   */
  lemma PolledAfter<T>(replies: nat -> Attempt, at: nat, post: Event, value: T, path: string, done: Json -> Result<bool>,
                       limit: nat, fail: Error)
    ensures var run := Polled(post, value, Poll(replies, at + 1, path, done, limit, fail));
            run.r.Ok? ==>
              run.r == Ok(value)
              && 1 < |run.events| <= 2 * limit + 1 && run.events[|run.events| - 1] == HttpGet(path)
              && Passed(replies(at + |run.events| - 1), done)
  {
    var poll := Poll(replies, at + 1, path, done, limit, fail);
    PollFound(replies, at + 1, path, done, limit, fail);
    if poll.r.Ok? {
      var events := [post] + poll.events;
      assert events[|events| - 1] == poll.events[|poll.events| - 1];
      assert at + |events| - 1 == at + 1 + |poll.events| - 1;
    }
  }

  /** A request whose reading gave value, then a poll: value once the poll returns, its exception otherwise. */
  function Polled<T>(post: Event, value: T, poll: Run<Json>): Run<T> {
    Run(if poll.r.Ok? then Ok(value) else Err(poll.r.error), [post] + poll.events)
  }

  /** `shift["status"] == "OPENED"`. */
  function Opened(shift: Json): Result<bool> {
    match Subscript(shift, "status")
    case Err(e) => Err(e)
    case Ok(status) => Ok(status == JStr("OPENED"))
  }

  /** `receipt["status"] == "DONE"`. */
  function Done(receipt: Json): Result<bool> {
    match Subscript(receipt, "status")
    case Err(e) => Err(e)
    case Ok(status) => Ok(status == JStr("DONE"))
  }

  /** `shift is None`. */
  function Gone(shift: Json): Result<bool> {
    Ok(shift == JNull)
  }

  /** The path of a receipt, from its id as str() prints it. */
  function ReceiptPath(id: Json): string {
    "/receipts/" + PyStr(id)
  }

  // ----------------------------------------------------------- operations

  /** `body["id"]` of a request's outcome; the request's exception first. */
  function IdOf(created: Result<Json>): (id: Result<Json>)
    ensures created.Err? ==> id == created
    ensures created.Ok? ==> id == Subscript(created.value, "id")
  {
    if created.Err? then created else Subscript(created.value, "id")
  }

  /** open_shift whose open request is the event at position at. */
  function OpenShiftRun(replies: nat -> Attempt, at: nat): Run<Json> {
    var id := IdOf(Rebrand(Checked(replies(at)), OpenFailed));
    if id.Err? then Run(Err(id.error), [HttpPost(OpenPath, true, Empty)])
    else
      Polled(HttpPost(OpenPath, true, Empty), id.value, Poll(replies, at + 1, ShiftPath, Opened, 10, OpenUnsigned))
  }

  /**
   * A refused open request raises "Не вдалось відкрити зміну" and nothing
   * more is sent, unless a JSON body without `message` makes
   * raise_for_status fail first.
   */
  lemma OpenShiftRefused(replies: nat -> Attempt, at: nat)
    requires replies(at).Answered? && !IsOk(replies(at).response)
    ensures var run := OpenShiftRun(replies, at);
            run.events == [HttpPost(OpenPath, true, Empty)]
            && (run.r == Err(OpenFailed)
                <==> replies(at).response.json.None? || Subscript(replies(at).response.json.value, "message").Ok?)
  {
  }

  /**
   * Once the shift is created, open_shift returns its id at the first poll
   * that reads it OPENED, after at most ten polls.
   */
  lemma OpenShiftOpens(replies: nat -> Attempt, at: nat, id: Json, i: nat)
    requires Checked(replies(at)).Ok? && Holds(Checked(replies(at)).value, "id", id)
    requires i < 10
    requires forall j | 0 <= j < i :: Judge(replies(at + 1 + 2 * j), Opened).Again?
    requires Judge(replies(at + 1 + 2 * i), Opened).Found?
    ensures OpenShiftRun(replies, at)
         == Run(Ok(id), [HttpPost(OpenPath, true, Empty)] + Tries(ShiftPath, i) + [HttpGet(ShiftPath)])
  {
    var post := [HttpPost(OpenPath, true, Empty)];
    var poll := Poll(replies, at + 1, ShiftPath, Opened, 10, OpenUnsigned);
    PollSettles(replies, at + 1, ShiftPath, Opened, 10, OpenUnsigned, i);
    assert poll.r.Ok? && poll.events == Tries(ShiftPath, i) + [HttpGet(ShiftPath)];
    assert OpenShiftRun(replies, at) == Run(Ok(id), post + poll.events);
    Appended(post, Tries(ShiftPath, i), [HttpGet(ShiftPath)]);
  }

  /** When ten polls never read the shift OPENED, open_shift raises "Не вдалось підписати зміну". */
  lemma OpenShiftUnsigned(replies: nat -> Attempt, at: nat)
    requires Checked(replies(at)).Ok? && Subscript(Checked(replies(at)).value, "id").Ok?
    requires forall j | 0 <= j < 10 :: Judge(replies(at + 1 + 2 * j), Opened).Again?
    ensures OpenShiftRun(replies, at)
         == Run(Err(OpenUnsigned), [HttpPost(OpenPath, true, Empty)] + Tries(ShiftPath, 10))
  {
    PollGivesUp(replies, at + 1, ShiftPath, Opened, 10, OpenUnsigned);
  }

  /** The cash-out payment of a positive balance: CASH, minus the balance, labelled "Готівка". */
  function CashOut(balance: int): Payment {
    Payment(Some(Cash), -balance * 1000, Some("Готівка"))
  }

  /** service_out's reading of current_shift's outcome: the balance to pay out. */
  function Due(shift: Result<Json>): (due: Result<int>)
    ensures shift.Err? ==> due == Err(shift.error)
    ensures shift.Ok? && !Truthy(shift.value) ==> due == Err(ShiftClosed)
    ensures shift.Ok? && Truthy(shift.value) ==> due == BalanceOf(shift.value, "balance")
  {
    if shift.Err? then Err(shift.error)
    else if !Truthy(shift.value) then Err(ShiftClosed)
    else BalanceOf(shift.value, "balance")
  }

  /** The cash-out of a positive balance whose request is the event at position at: the receipt id. */
  function PayOutRun(replies: nat -> Attempt, at: nat, balance: int): Run<Option<Json>> {
    var post := HttpPost(ServicePath, false, Service(CashOut(balance)));
    var id := IdOf(Rebrand(Checked(replies(at)), ServiceFailed));
    if id.Err? then Run(Err(id.error), [post])
    else Polled(post, Some(id.value), Poll(replies, at + 1, ReceiptPath(id.value), Done, 10, ServiceUnsigned))
  }

  /** service_out whose current-shift request is the event at position at: the receipt id, or None. */
  function ServiceOutRun(replies: nat -> Attempt, at: nat): Run<Option<Json>> {
    var due := Due(Checked(replies(at)));
    if due.Err? then Run(Err(due.error), [HttpGet(ShiftPath)])
    else if due.value <= 0 then Run(Ok(None), [HttpGet(ShiftPath)])
    else After([HttpGet(ShiftPath)], PayOutRun(replies, at + 1, due.value))
  }

  /** Without an open shift service_out raises "Зміна закрита" after reading it. */
  lemma ServiceOutClosed(replies: nat -> Attempt, at: nat)
    requires Checked(replies(at)).Ok? && !Truthy(Checked(replies(at)).value)
    ensures ServiceOutRun(replies, at) == Run(Err(ShiftClosed), [HttpGet(ShiftPath)])
  {
  }

  /**
   * service_out posts nothing for a balance of zero or less; for a positive
   * one its second request is the cash-out of minus that balance.
   */
  lemma ServiceOutPays(replies: nat -> Attempt, at: nat, balance: int)
    requires Checked(replies(at)).Ok? && Truthy(Checked(replies(at)).value)
    requires BalanceOf(Checked(replies(at)).value, "balance") == Ok(balance)
    ensures var run := ServiceOutRun(replies, at);
            (balance <= 0 ==> run == Run(Ok(None), [HttpGet(ShiftPath)]))
            && (balance > 0 ==> |run.events| >= 2 && run.events[1] == HttpPost(ServicePath, false, Service(CashOut(balance))))
  {
  }

  /** A receipt id the cash-out returns is the id of the receipt it posted. */
  lemma PayOutReceipt(replies: nat -> Attempt, at: nat, balance: int)
    ensures var run := PayOutRun(replies, at, balance);
            run.r.Ok? ==>
              run.r.value.Some? && Checked(replies(at)).Ok? && Holds(Checked(replies(at)).value, "id", run.r.value.value)
  {
    var created := Checked(replies(at));
    var id := IdOf(Rebrand(created, ServiceFailed));
    if id.Ok? {
      assert created.Ok? && Holds(created.value, "id", id.value);
    }
  }

  /** The cash-out returns only at a poll that read its receipt DONE, after at most ten polls. */
  lemma PayOutSigned(replies: nat -> Attempt, at: nat, balance: int)
    ensures var run := PayOutRun(replies, at, balance);
            run.r.Ok? ==> 1 < |run.events| <= 21 && Passed(replies(at + |run.events| - 1), Done)
  {
    var id := IdOf(Rebrand(Checked(replies(at)), ServiceFailed));
    if id.Ok? {
      PolledAfter(replies, at, HttpPost(ServicePath, false, Service(CashOut(balance))), Some(id.value),
                  ReceiptPath(id.value), Done, 10, ServiceUnsigned);
    }
  }

  /** shift_balance on current_shift's outcome: None without a shift, otherwise its balance, in kopiykas. */
  function BalanceDue(shift: Result<Json>): (r: Result<Option<int>>)
    ensures shift.Err? ==> r == Err(shift.error)
    ensures shift.Ok? && !Truthy(shift.value) ==> r == Ok(None)
    ensures shift.Ok? && Truthy(shift.value) ==>
              (r.Ok? <==> BalanceOf(shift.value, "balance").Ok?)
              && (r.Ok? ==> r.value == Some(BalanceOf(shift.value, "balance").value))
  {
    if shift.Err? then Err(shift.error)
    else if !Truthy(shift.value) then Ok(None)
    else
      match BalanceOf(shift.value, "balance")
      case Err(e) => Err(e)
      case Ok(b) => Ok(Some(b))
  }

  /** shift_close's reading of the close response: its `id` must exist, then `balance.service_out`. */
  function ClosedBalance(closed: Result<Json>): (r: Result<int>)
    ensures closed.Err? ==> r == Err(closed.error)
    ensures closed.Ok? && Subscript(closed.value, "id").Err? ==> r == Err(Subscript(closed.value, "id").error)
    ensures closed.Ok? && Subscript(closed.value, "id").Ok? ==> r == BalanceOf(closed.value, "service_out")
  {
    var id := IdOf(closed);
    if id.Err? then Err(id.error) else BalanceOf(closed.value, "service_out")
  }

  /** The close request, at position at, and the poll until no shift is open. */
  function CloseRun(replies: nat -> Attempt, at: nat): Run<int> {
    var balance := ClosedBalance(Checked(replies(at)));
    if balance.Err? then Run(Err(balance.error), [HttpPost(ClosePath, false, Empty)])
    else Polled(HttpPost(ClosePath, false, Empty), balance.value, Poll(replies, at + 1, ShiftPath, Gone, 60, CloseUnsigned))
  }

  /** shift_close (under require_sign) whose first signature-check request is the event at position at. */
  function ShiftCloseRun(replies: nat -> Attempt, at: nat): Run<int> {
    var sign := SignRun(replies, at);
    ShiftCloseFrom(replies, sign, at + |sign.events|)
  }

  /** shift_close once the signature check gave sign, service_out's first request being the event at position mid. */
  function ShiftCloseFrom(replies: nat -> Attempt, sign: Run<Json>, mid: nat): Run<int> {
    var stop := SignGate(sign.r);
    if stop.Some? then Run(Err(stop.value), sign.events)
    else
      var out := ServiceOutRun(replies, mid);
      if out.r.Err? then Run(Err(out.r.error), sign.events + out.events)
      else After(sign.events + out.events, CloseRun(replies, mid + |out.events|))
  }

  /** Without a signature nothing is sent after the check: no cash-out, no close. */
  lemma ShiftCloseUnsigned(replies: nat -> Attempt, at: nat)
    requires SignGate(SignRun(replies, at).r).Some?
    ensures ShiftCloseRun(replies, at) == Run(Err(SignGate(SignRun(replies, at).r).value), SignRun(replies, at).events)
  {
  }

  /** shift_close in its three steps, service_out's first request being the event at position mid. */
  lemma ShiftCloseSteps(replies: nat -> Attempt, at: nat, mid: nat)
    requires mid == at + |SignRun(replies, at).events|
    ensures var sign := SignRun(replies, at);
            var out := ServiceOutRun(replies, mid);
            var run := ShiftCloseRun(replies, at);
            (SignGate(sign.r).Some? ==> run == Run(Err(SignGate(sign.r).value), sign.events))
            && (SignGate(sign.r).None? && out.r.Err? ==> run == Run(Err(out.r.error), sign.events + out.events))
            && (SignGate(sign.r).None? && out.r.Ok? ==> run == After(sign.events + out.events, CloseRun(replies, mid + |out.events|)))
  {
  }

  /** Events of requests to path only, and pauses. */
  predicate Only(events: seq<Event>, path: string) {
    forall e | e in events :: e == HttpGet(path) || e == Pause
  }

  lemma AlternatesOnly(events: seq<Event>, path: string)
    requires Alternates(events, path)
    ensures Only(events, path)
  {
    forall e | e in events ensures e == HttpGet(path) || e == Pause {
      var k :| 0 <= k < |events| && events[k] == e;
      assert events[k] == if k % 2 == 0 then HttpGet(path) else Pause;
    }
  }

  /** service_out sends no close request. */
  lemma ServiceOutKeepsOpen(replies: nat -> Attempt, at: nat)
    ensures HttpPost(ClosePath, false, Empty) !in ServiceOutRun(replies, at).events
  {
    var due := Due(Checked(replies(at)));
    if due.Ok? && due.value > 0 {
      var id := IdOf(Rebrand(Checked(replies(at + 1)), ServiceFailed));
      if id.Ok? {
        var poll := Poll(replies, at + 2, ReceiptPath(id.value), Done, 10, ServiceUnsigned);
        PollBounded(replies, at + 2, ReceiptPath(id.value), Done, 10, ServiceUnsigned);
        AlternatesOnly(poll.events, ReceiptPath(id.value));
        assert ServiceOutRun(replies, at).events
            == [HttpGet(ShiftPath), HttpPost(ServicePath, false, Service(CashOut(due.value)))] + poll.events;
      }
    }
  }

  /**
   * The close request is sent only after the signature check passed and
   * service_out completed.
   */
  lemma ShiftCloseOrder(replies: nat -> Attempt, at: nat)
    ensures var run := ShiftCloseRun(replies, at);
            var sign := SignRun(replies, at);
            HttpPost(ClosePath, false, Empty) in run.events ==>
              SignGate(sign.r).None? && ServiceOutRun(replies, at + |sign.events|).r.Ok?
  {
    var sign := SignRun(replies, at);
    var close := HttpPost(ClosePath, false, Empty);
    ShiftCloseSteps(replies, at, at + |sign.events|);
    RetryBounded(replies, at, SignPath, LoadJson, SignError);
    AlternatesOnly(sign.events, SignPath);
    assert close !in sign.events;
    if SignGate(sign.r).None? {
      var out := ServiceOutRun(replies, at + |sign.events|);
      ServiceOutKeepsOpen(replies, at + |sign.events|);
      if out.r.Err? {
        assert close !in sign.events + out.events;
      }
    }
  }

  /**
   * A balance shift_close returns is the close response's `service_out`,
   * returned once the current shift read null, after at most sixty polls.
   */
  lemma CloseReturns(replies: nat -> Attempt, at: nat)
    ensures var run := CloseRun(replies, at);
            run.r.Ok? ==>
              run.r == BalanceOf(Checked(replies(at)).value, "service_out")
              && 1 < |run.events| <= 121 && run.events[|run.events| - 1] == HttpGet(ShiftPath)
              && Passed(replies(at + |run.events| - 1), Gone)
  {
    if ClosedBalance(Checked(replies(at))).Ok? {
      PolledAfter(replies, at, HttpPost(ClosePath, false, Empty), ClosedBalance(Checked(replies(at))).value,
                  ShiftPath, Gone, 60, CloseUnsigned);
    }
  }

  // ----------------------------------------------------------- the session

  /**
   * A poll: up to limit iterations of a request to path, returning the
   * body at the first that passes the test, passing over a body that is
   * not JSON, and pausing after each iteration that does not return.
   */
  method PollShift(s: Session, path: string, done: Json -> Result<bool>, limit: nat, fail: Error)
    returns (r: Result<Json>)
    modifies s
    ensures var run := Poll(s.replies, |old(s.trace)|, path, done, limit, fail);
            r == run.r && s.trace == old(s.trace) + run.events
  {
    ghost var at := |s.trace|;
    var k := 0;
    while k < limit
      invariant k <= limit
      invariant s.trace == old(s.trace) + Tries(path, k) && |s.trace| == at + 2 * k
      invariant forall j | 0 <= j < k :: Judge(s.replies(at + 2 * j), done).Again?
    {
      var a := s.Request(HttpGet(path));
      var look := Judge(a, done);
      if !look.Again? {
        r := Settled(look);
        PollSettles(s.replies, at, path, done, limit, fail, k);
        return;
      }
      s.Sleep();
      TriesSnoc(path, k);
      k := k + 1;
    }
    r := Err(fail);
    PollGivesUp(s.replies, at, path, done, limit, fail);
  }

  /** current_shift: the current shift, null when none is open. */
  method CurrentShift(s: Session) returns (r: Result<Json>)
    modifies s
    ensures s.trace == old(s.trace) + [HttpGet(ShiftPath)] && r == Checked(s.replies(|old(s.trace)|))
  {
    var a := s.Request(HttpGet(ShiftPath));
    r := Checked(a);
  }

  /** open_shift: the new shift's id once the current shift reads OPENED. */
  method OpenShift(s: Session) returns (r: Result<Json>)
    modifies s
    ensures var run := OpenShiftRun(s.replies, |old(s.trace)|);
            r == run.r && s.trace == old(s.trace) + run.events
  {
    ghost var at := |s.trace|;
    var a := s.Request(HttpPost(OpenPath, true, Empty));
    var id := IdOf(Rebrand(Checked(a), OpenFailed));
    if id.Err? {
      return Err(id.error);
    }
    var polled := PollShift(s, ShiftPath, Opened, 10, OpenUnsigned);
    r := if polled.Ok? then id else polled;
    Appended(old(s.trace), [HttpPost(OpenPath, true, Empty)], Poll(s.replies, at + 1, ShiftPath, Opened, 10, OpenUnsigned).events);
  }

  /** The cash-out request of service_out and the poll until its receipt is signed. */
  method PayOut(s: Session, balance: int) returns (r: Result<Option<Json>>)
    modifies s
    ensures var run := PayOutRun(s.replies, |old(s.trace)|, balance);
            r == run.r && s.trace == old(s.trace) + run.events
  {
    ghost var at := |s.trace|;
    var a := s.Request(HttpPost(ServicePath, false, Service(CashOut(balance))));
    var id := IdOf(Rebrand(Checked(a), ServiceFailed));
    ghost var run := PayOutRun(s.replies, at, balance);
    if id.Err? {
      assert run.r == Err(id.error);
      return Err(id.error);
    }
    var polled := PollShift(s, ReceiptPath(id.value), Done, 10, ServiceUnsigned);
    r := if polled.Ok? then Ok(Some(id.value)) else Err(polled.error);
    Appended(old(s.trace), [HttpPost(ServicePath, false, Service(CashOut(balance)))],
             Poll(s.replies, at + 1, ReceiptPath(id.value), Done, 10, ServiceUnsigned).events);
  }

  /** service_out: takes the shift's cash out and waits for the service receipt to be signed. */
  method ServiceOut(s: Session) returns (r: Result<Option<Json>>)
    modifies s
    ensures var run := ServiceOutRun(s.replies, |old(s.trace)|);
            r == run.r && s.trace == old(s.trace) + run.events
  {
    ghost var at := |s.trace|;
    ghost var run := ServiceOutRun(s.replies, at);
    var shift := CurrentShift(s);
    var due := Due(shift);
    if due.Err? {
      assert run == Run(Err(due.error), [HttpGet(ShiftPath)]);
      return Err(due.error);
    }
    if due.value <= 0 {
      assert run == Run(Ok(None), [HttpGet(ShiftPath)]);
      return Ok(None);
    }
    assert run == After([HttpGet(ShiftPath)], PayOutRun(s.replies, at + 1, due.value));
    r := PayOut(s, due.value);
    Appended(old(s.trace), [HttpGet(ShiftPath)], PayOutRun(s.replies, at + 1, due.value).events);
  }

  /** shift_balance. */
  method ShiftBalance(s: Session) returns (r: Result<Option<int>>)
    modifies s
    ensures s.trace == old(s.trace) + [HttpGet(ShiftPath)] && r == BalanceDue(Checked(s.replies(|old(s.trace)|)))
  {
    var shift := CurrentShift(s);
    r := BalanceDue(shift);
  }

  /** The close request of shift_close and the poll until no shift is open. */
  method CloseAndWait(s: Session) returns (r: Result<int>)
    modifies s
    ensures var run := CloseRun(s.replies, |old(s.trace)|);
            r == run.r && s.trace == old(s.trace) + run.events
  {
    ghost var at := |s.trace|;
    var a := s.Request(HttpPost(ClosePath, false, Empty));
    var balance := ClosedBalance(Checked(a));
    if balance.Err? {
      return Err(balance.error);
    }
    var polled := PollShift(s, ShiftPath, Gone, 60, CloseUnsigned);
    r := if polled.Ok? then balance else Err(polled.error);
    Appended(old(s.trace), [HttpPost(ClosePath, false, Empty)], Poll(s.replies, at + 1, ShiftPath, Gone, 60, CloseUnsigned).events);
  }

  /** shift_close: the signature check, the cash-out, the close request, then a poll until no shift is open. */
  method ShiftClose(s: Session) returns (r: Result<int>)
    modifies s
    ensures var run := ShiftCloseRun(s.replies, |old(s.trace)|);
            r == run.r && s.trace == old(s.trace) + run.events
  {
    ghost var at := |s.trace|;
    var stop := s.RequireSign();
    ghost var sign := SignRun(s.replies, at).events;
    ghost var mid := |s.trace|;
    ShiftCloseSteps(s.replies, at, mid);
    if stop.Some? {
      return Err(stop.value);
    }
    var out := ServiceOut(s);
    ghost var service := ServiceOutRun(s.replies, mid).events;
    Appended(old(s.trace), sign, service);
    if out.Err? {
      return Err(out.error);
    }
    ghost var last := |s.trace|;
    r := CloseAndWait(s);
    Appended(old(s.trace), sign + service, CloseRun(s.replies, last).events);
  }
}
