/**
 * The scheduled shift close (shift_close.py): read the current shift, stop
 * with a sign-out when none is open, close it on the fiscal API, append the
 * cash profit to the ledger when there is one, and send the shift report
 * to the supervisors. The ledger and the messenger are outside services:
 * what the bot asks of them is recorded, in order, as actions.
 */
module ShiftCloseFlow {
  import opened Wrappers
  import opened Json
  import opened OrderedDict
  import opened FiscalHttp
  import opened FiscalShift
  import opened ShiftReport

  /** Why the admins are alerted: the close raised, or the ledger append raised (with its text). */
  datatype Cause = CloseFailed(error: Error) | LedgerFailed(message: string)

  /** What the bot asks of the outside world. */
  datatype Action =
    | SignOut                                              // checkbox_api.auth.sign_out()
    | Append(worksheet: Json, day: string, profit: int)    // gsheet.append_row([today, cash_profit], title)
    | AlertAdmins(cause: Cause)                            // error(str(e)): a broadcast to the admins
    | ToSupervisors(except: Option<int>, text: string)     // a broadcast to the supervisors but chat_id

  /** What a close returns, the requests it sends and the actions it takes. */
  datatype Flow = Flow(r: Result<Option<int>>, events: seq<Event>, actions: seq<Action>)

  /** `shift["balance"][key]`, the raw counter: a KeyError or TypeError when it cannot be read. */
  function Counter(shift: Json, key: string): (r: Result<Json>)
    ensures r.Ok? <==> shift.JObj? && Get(shift.members, "balance").Some?
                       && Get(shift.members, "balance").value.JObj?
                       && Get(Get(shift.members, "balance").value.members, key).Some?
    ensures r.Ok? ==> r.value == Get(Get(shift.members, "balance").value.members, key).value
    ensures r.Err? ==> r.error == KeyError || r.error == TypeError
  {
    match Subscript(shift, "balance")
    case Err(e) => Err(e)
    case Ok(balance) => Subscript(balance, key)
  }

  /** The four counters as send_report reads them, before any is used. */
  datatype Counters = Counters(cashSales: Json, cardSales: Json, cashReturns: Json, cardReturns: Json)

  /** send_report's first four lines: the counters, in its order; the first that cannot be read raises. */
  function ReadCounters(shift: Json): (c: Result<Counters>)
    ensures c.Ok? <==>
              Counter(shift, "cash_sales").Ok? && Counter(shift, "card_sales").Ok?
              && Counter(shift, "cash_returns").Ok? && Counter(shift, "card_returns").Ok?
    ensures c.Ok? ==>
              c.value == Counters(Counter(shift, "cash_sales").value, Counter(shift, "card_sales").value,
                                  Counter(shift, "cash_returns").value, Counter(shift, "card_returns").value)
  {
    var cashSales := Counter(shift, "cash_sales");
    var cardSales := Counter(shift, "card_sales");
    var cashReturns := Counter(shift, "cash_returns");
    var cardReturns := Counter(shift, "card_returns");
    if cashSales.Err? then Err(cashSales.error)
    else if cardSales.Err? then Err(cardSales.error)
    else if cashReturns.Err? then Err(cashReturns.error)
    else if cardReturns.Err? then Err(cardReturns.error)
    else Ok(Counters(cashSales.value, cardSales.value, cashReturns.value, cardReturns.value))
  }

  /**
   * The counters as numbers: the reads first, then prepare_report's
   * divisions, cash before card and sales before returns, so a counter
   * that is not a number raises only after every counter was read.
   */
  function Balances(shift: Json): (b: Result<Balance>)
    ensures b.Ok? <==>
              BalanceOf(shift, "cash_sales").Ok? && BalanceOf(shift, "card_sales").Ok?
              && BalanceOf(shift, "cash_returns").Ok? && BalanceOf(shift, "card_returns").Ok?
    ensures b.Ok? ==>
              b.value == Balance(BalanceOf(shift, "cash_sales").value, BalanceOf(shift, "card_sales").value,
                                 BalanceOf(shift, "cash_returns").value, BalanceOf(shift, "card_returns").value)
    ensures ReadCounters(shift).Err? ==> b == Err(ReadCounters(shift).error)
    ensures ReadCounters(shift).Ok? && b.Err? ==> b.error == TypeError
  {
    match ReadCounters(shift)
    case Err(e) => Err(e)
    case Ok(c) =>
      var cashSales, cashReturns := Amount(c.cashSales), Amount(c.cashReturns);
      var cardSales, cardReturns := Amount(c.cardSales), Amount(c.cardReturns);
      if cashSales.Err? then Err(cashSales.error)
      else if cashReturns.Err? then Err(cashReturns.error)
      else if cardSales.Err? then Err(cardSales.error)
      else if cardReturns.Err? then Err(cardReturns.error)
      else Ok(Balance(cashSales.value, cardSales.value, cashReturns.value, cardReturns.value))
  }

  /** What send_report did: the messages it answered, and the exception that stopped it, if any. */
  datatype Told = Told(msgs: seq<string>, error: Option<Error>)

  /** send_report's messages, each a broadcast to the supervisors but chat_id. */
  function Reports(except: Option<int>, msgs: seq<string>): (acts: seq<Action>)
    ensures |acts| == |msgs|
  {
    if msgs == [] then [] else [ToSupervisors(except, msgs[0])] + Reports(except, msgs[1..])
  }

  /** The broadcasts are to the supervisors but except, one per message and nothing else. */
  lemma {:induction false} ReportsHold(except: Option<int>, msgs: seq<string>, a: Action)
    ensures a in Reports(except, msgs) <==> a.ToSupervisors? && a.except == except && a.text in msgs
  {
    if msgs != [] {
      ReportsHold(except, msgs[1..], a);
      assert msgs == [msgs[0]] + msgs[1..];
    }
  }

  /** The i-th broadcast carries the i-th message. */
  lemma {:induction false} ReportsEach(except: Option<int>, msgs: seq<string>, i: nat)
    requires i < |msgs|
    ensures Reports(except, msgs)[i] == ToSupervisors(except, msgs[i])
  {
    if i > 0 {
      ReportsEach(except, msgs[1..], i - 1);
    }
  }

  /**
   * send_report on a shift: the counters are read, the cash report is
   * prepared and answered, then the card report and the total. A counter
   * that cannot be read stops it before any message; a card counter that is
   * not a number stops it after the cash report went out.
   */
  function ShiftMessages(shift: Json): (t: Told)
    ensures t.error.None? <==> Balances(shift).Ok?
    ensures t.error.None? ==> t.msgs == SendReport(Balances(shift).value)
    ensures t.error.Some? ==> t.error == Some(Balances(shift).error)
  {
    match ReadCounters(shift)
    case Err(e) => Told([], Some(e))
    case Ok(c) =>
      var cashSales, cashReturns := Amount(c.cashSales), Amount(c.cashReturns);
      if cashSales.Err? then Told([], Some(cashSales.error))
      else if cashReturns.Err? then Told([], Some(cashReturns.error))
      else
        var cash := PrepareReport(cashSales.value, cashReturns.value, "Готівка", "Готівкова виручка");
        var sent := if cash.Some? then [cash.value] else [];
        var cardSales, cardReturns := Amount(c.cardSales), Amount(c.cardReturns);
        if cardSales.Err? then Told(sent, Some(cardSales.error))
        else if cardReturns.Err? then Told(sent, Some(cardReturns.error))
        else Told(SendReport(Balance(cashSales.value, cardSales.value, cashReturns.value, cardReturns.value)), None)
  }

  /**
   * A stopped report says at most the cash report: nothing when a counter
   * could not be read or a cash counter is not a number, and otherwise the
   * cash report, when there were cash sales, before the card counter raised.
   */
  lemma ShiftMessagesStopped(shift: Json)
    requires ShiftMessages(shift).error.Some?
    ensures var t := ShiftMessages(shift);
            |t.msgs| <= 1
            && (ReadCounters(shift).Err? ==> t == Told([], Some(ReadCounters(shift).error)))
            && (t.msgs != [] <==>
                  ReadCounters(shift).Ok? && BalanceOf(shift, "cash_sales").Ok? && BalanceOf(shift, "cash_returns").Ok?
                  && BalanceOf(shift, "cash_sales").value != 0)
            && (t.msgs != [] ==>
                  t.msgs == [PrepareReport(BalanceOf(shift, "cash_sales").value, BalanceOf(shift, "cash_returns").value,
                                           "Готівка", "Готівкова виручка").value])
  {
  }

  /**
   * The ledger step after the fiscal close returned the profit (in
   * kopiykas): nothing when the profit is zero; otherwise the worksheet
   * title is read, which raises outside the try, and the row is appended,
   * followed by an alert when the append raises. title is the outcome of
   * `Config().get("google", "worksheet", "title")`; ledger is None when
   * the append succeeds and the exception's text when it raises.
   */
  function Ledger(profit: int, today: string, title: Result<Json>, ledger: Option<string>): (rows: Result<seq<Action>>)
    ensures profit == 0 ==> rows == Ok([])
    ensures profit != 0 ==> (rows.Err? <==> title.Err?)
    ensures profit != 0 && title.Ok? ==>
              |rows.value| == (if ledger.None? then 1 else 2) && rows.value[0] == Append(title.value, today, profit)
              && (ledger.Some? ==> rows.value[1] == AlertAdmins(LedgerFailed(ledger.value)))
  {
    if profit == 0 then Ok([])
    else if title.Err? then Err(title.error)
    else Ok([Append(title.value, today, profit)] + (if ledger.Some? then [AlertAdmins(LedgerFailed(ledger.value))] else []))
  }

  /**
   * The part of the close after the fiscal close returned the profit: the
   * ledger step, then the report on the shift as it was read before
   * closing (report is ShiftMessages).
   */
  function Closed(shift: Json, profit: int, today: string, chatId: Option<int>,
                  title: Result<Json>, ledger: Option<string>, report: Json -> Told): (f: Flow) {
    var rows := Ledger(profit, today, title, ledger);
    if rows.Err? then Flow(Err(rows.error), [], [])
    else
      var told := report(shift);
      Flow(if told.error.Some? then Err(told.error.value) else Ok(Some(profit)), [], rows.value + Reports(chatId, told.msgs))
  }

  /**
   * shift_close over the current shift the first request read and the
   * fiscal close's run.
   */
  function FlowFrom(current: Result<Json>, close: Run<int>, today: string, chatId: Option<int>,
                    title: Result<Json>, ledger: Option<string>, report: Json -> Told): Flow {
    var read := [HttpGet(ShiftPath)];
    if current.Err? then Flow(Err(current.error), read, [])
    else if current.value == JNull then Flow(Ok(None), read, [SignOut])
    else if close.r.Err? then Flow(Ok(None), read + close.events, [AlertAdmins(CloseFailed(close.r.error))])
    else
      var rest := Closed(current.value, close.r.value, today, chatId, title, ledger, report);
      Flow(rest.r, read + close.events, rest.actions)
  }

  /** shift_close whose current-shift request is the event at position at. */
  function FlowRun(replies: nat -> Attempt, at: nat, today: string, chatId: Option<int>,
                   title: Result<Json>, ledger: Option<string>): Flow {
    FlowFrom(Checked(replies(at)), ShiftCloseRun(replies, at + 1), today, chatId, title, ledger, ShiftMessages)
  }

  /**
   * With no shift open the bot signs out, returns None and attempts no
   * close: the only request is the one that read the shift.
   */
  lemma AlreadyClosed(current: Result<Json>, close: Run<int>, today: string, chatId: Option<int>,
                      title: Result<Json>, ledger: Option<string>,
                      report: Json -> Told)
    requires current == Ok(JNull)
    ensures FlowFrom(current, close, today, chatId, title, ledger, report) == Flow(Ok(None), [HttpGet(ShiftPath)], [SignOut])
  {
  }

  /**
   * A close that raises is broadcast to the admins and the close returns
   * None: no ledger row and no report.
   */
  lemma CloseFailure(current: Result<Json>, close: Run<int>, today: string, chatId: Option<int>,
                     title: Result<Json>, ledger: Option<string>,
                     report: Json -> Told)
    requires current.Ok? && current.value != JNull && close.r.Err?
    ensures var f := FlowFrom(current, close, today, chatId, title, ledger, report);
            f.r == Ok(None) && f.actions == [AlertAdmins(CloseFailed(close.r.error))]
  {
  }

  /**
   * A ledger row is appended exactly when the close returned a profit that
   * is not zero and the worksheet title could be read; the row is today's
   * date and that profit, and at most one row is appended.
   */
  lemma LedgerOnlyForProfit(current: Result<Json>, close: Run<int>, today: string, chatId: Option<int>,
                            title: Result<Json>, ledger: Option<string>,
                            report: Json -> Told, a: Action)
    requires a.Append?
    ensures var f := FlowFrom(current, close, today, chatId, title, ledger, report);
            a in f.actions <==>
              current.Ok? && current.value != JNull && close.r.Ok? && close.r.value != 0 && title.Ok?
              && a == Append(title.value, today, close.r.value)
  {
    if current.Ok? && current.value != JNull && close.r.Ok? {
      ReportsHold(chatId, report(current.value).msgs, a);
    }
  }

  /**
   * A failed ledger append is broadcast to the admins and changes nothing
   * else: the report is sent and the profit returned all the same.
   */
  lemma LedgerFailureHarmless(shift: Json, profit: int, today: string, chatId: Option<int>,
                              title: Result<Json>, message: string, report: Json -> Told)
    requires profit != 0 && title.Ok?
    ensures var failed := Closed(shift, profit, today, chatId, title, Some(message), report);
            var stored := Closed(shift, profit, today, chatId, title, None, report);
            failed.r == stored.r
            && failed.actions[..1] == stored.actions[..1] == [Append(title.value, today, profit)]
            && failed.actions[1] == AlertAdmins(LedgerFailed(message))
            && failed.actions[2..] == stored.actions[1..]
  {
  }

  /**
   * Once the ledger step is through, the close ends with the messages
   * send_report answered about the shift read before closing, each to the
   * supervisors but chat_id, those answered before it raised included; the
   * close returns the profit exactly when send_report completed, and its
   * exception otherwise.
   */
  lemma ReportSent(current: Result<Json>, close: Run<int>, today: string, chatId: Option<int>,
                   title: Result<Json>, ledger: Option<string>, report: Json -> Told)
    ensures var f := FlowFrom(current, close, today, chatId, title, ledger, report);
            current.Ok? && current.value != JNull && close.r.Ok? && Ledger(close.r.value, today, title, ledger).Ok? ==>
              var told := report(current.value);
              |told.msgs| <= |f.actions| && f.actions[|f.actions| - |told.msgs|..] == Reports(chatId, told.msgs)
              && (told.error.None? ==> f.r == Ok(Some(close.r.value)))
              && (told.error.Some? ==> f.r == Err(told.error.value))
    ensures var f := FlowFrom(current, close, today, chatId, title, ledger, report);
            f.r.Ok? && f.r.value.Some? ==>
              current.Ok? && current.value != JNull && close.r.Ok? && f.r.value.value == close.r.value
              && report(current.value).error.None?
  {
    if current.Ok? && current.value != JNull && close.r.Ok? && Ledger(close.r.value, today, title, ledger).Ok? {
      var rest := Closed(current.value, close.r.value, today, chatId, title, ledger, report);
      var told := report(current.value);
      var booked := Ledger(close.r.value, today, title, ledger).value;
      assert rest.actions == booked + Reports(chatId, told.msgs);
      assert rest.actions[|rest.actions| - |told.msgs|..] == Reports(chatId, told.msgs);
    }
  }

  // ----------------------------------------------------------- the session

  /** The outside services' side of the close: the actions asked of them, in order. */
  class Outbox {
    var actions: seq<Action>

    constructor()
      ensures actions == []
    {
      actions := [];
    }

    method Do(a: Action)
      modifies this
      ensures actions == old(actions) + [a]
    {
      actions := actions + [a];
    }
  }

  /** The ledger row and the report after a close that returned profit. */
  method Book(out: Outbox, shift: Json, profit: int, today: string, chatId: Option<int>,
              title: Result<Json>, ledger: Option<string>, report: Json -> Told)
    returns (r: Result<Option<int>>)
    modifies out
    ensures var f := Closed(shift, profit, today, chatId, title, ledger, report);
            r == f.r && out.actions == old(out.actions) + f.actions
  {
    var told := report(shift);  // reads nothing the ledger step changes
    ghost var f := Closed(shift, profit, today, chatId, title, ledger, report);
    ghost var before := out.actions;
    var rows := Enter(out, profit, today, title, ledger);
    if rows.Err? {
      assert f == Flow(Err(rows.error), [], []);
      return Err(rows.error);
    }
    Tell(out, chatId, told.msgs);
    assert out.actions == before + (rows.value + Reports(chatId, told.msgs));
    r := if told.error.Some? then Err(told.error.value) else Ok(Some(profit));
  }

  /** The ledger step; rows is what it appended, or the exception that stopped it. */
  method Enter(out: Outbox, profit: int, today: string, title: Result<Json>, ledger: Option<string>)
    returns (rows: Result<seq<Action>>)
    modifies out
    ensures rows == Ledger(profit, today, title, ledger)
    ensures out.actions == old(out.actions) + (if rows.Ok? then rows.value else [])
  {
    if profit == 0 {
      return Ok([]);
    }
    if title.Err? {
      return Err(title.error);
    }
    out.Do(Append(title.value, today, profit));
    if ledger.Some? {
      out.Do(AlertAdmins(LedgerFailed(ledger.value)));
    }
    rows := Ledger(profit, today, title, ledger);
  }

  /** send_report's broadcasts, one message after the other. */
  method Tell(out: Outbox, except: Option<int>, msgs: seq<string>)
    modifies out
    ensures out.actions == old(out.actions) + Reports(except, msgs)
  {
    ghost var before := out.actions;
    var i := 0;
    while i < |msgs|
      invariant i <= |msgs|
      invariant out.actions == before + Reports(except, msgs[..i])
    {
      out.Do(ToSupervisors(except, msgs[i]));
      ReportsSnoc(except, msgs[..i], msgs[i]);
      assert msgs[..i + 1] == msgs[..i] + [msgs[i]];
      i := i + 1;
    }
    assert msgs[..i] == msgs;
  }

  /** One more message at the end of a report. */
  lemma {:induction false} ReportsSnoc(except: Option<int>, msgs: seq<string>, m: string)
    ensures Reports(except, msgs + [m]) == Reports(except, msgs) + [ToSupervisors(except, m)]
  {
    if msgs != [] {
      assert (msgs + [m])[1..] == msgs[1..] + [m];
      ReportsSnoc(except, msgs[1..], m);
    }
  }

  /** shift_close: the whole scheduled close. */
  method ShiftCloseTask(s: Session, out: Outbox, today: string, chatId: Option<int>,
                        title: Result<Json>, ledger: Option<string>) returns (r: Result<Option<int>>)
    modifies s, out
    ensures var f := FlowRun(s.replies, |old(s.trace)|, today, chatId, title, ledger);
            r == f.r && s.trace == old(s.trace) + f.events && out.actions == old(out.actions) + f.actions
  {
    ghost var at := |s.trace|;
    FlowSteps(s.replies, at, today, chatId, title, ledger);
    var shift := CurrentShift(s);
    if shift.Err? {
      return Err(shift.error);
    }
    if shift.value == JNull {
      out.Do(SignOut);
      return Ok(None);
    }
    var profit := ShiftClose(s);
    Appended(old(s.trace), [HttpGet(ShiftPath)], ShiftCloseRun(s.replies, at + 1).events);
    if profit.Err? {
      out.Do(AlertAdmins(CloseFailed(profit.error)));
      return Ok(None);
    }
    r := Book(out, shift.value, profit.value, today, chatId, title, ledger, ShiftMessages);
  }

  /** FlowRun, one outcome of the current-shift request and the close at a time. */
  lemma FlowSteps(replies: nat -> Attempt, at: nat, today: string, chatId: Option<int>,
                  title: Result<Json>, ledger: Option<string>)
    ensures var current := Checked(replies(at));
            var close := ShiftCloseRun(replies, at + 1);
            var f := FlowRun(replies, at, today, chatId, title, ledger);
            (current.Err? ==> f == Flow(Err(current.error), [HttpGet(ShiftPath)], []))
            && (current == Ok(JNull) ==> f == Flow(Ok(None), [HttpGet(ShiftPath)], [SignOut]))
            && (current.Ok? && current.value != JNull && close.r.Err? ==>
                  f == Flow(Ok(None), [HttpGet(ShiftPath)] + close.events, [AlertAdmins(CloseFailed(close.r.error))]))
            && (current.Ok? && current.value != JNull && close.r.Ok? ==>
                  var rest := Closed(current.value, close.r.value, today, chatId, title, ledger, ShiftMessages);
                  f == Flow(rest.r, [HttpGet(ShiftPath)] + close.events, rest.actions))
  {
  }
}
