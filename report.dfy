/**
 * The shift report: per payment kind a summary of sales, returns and
 * proceeds (in kopiykas), and a grand total when both kinds had sales.
 */
module ShiftReport {
  import opened Wrappers
  import opened Text

  /** The summary prepare_report decides on, before it is rendered. */
  datatype Summary =
    | Detailed(header: string, sales: int, returned: int, proceeds: int)
    | Single(header: string, proceeds: int)

  /** The four counters of a shift's balance, in kopiykas. */
  datatype Balance = Balance(cashSales: int, cardSales: int, cashReturns: int, cardReturns: int)

  /** prepare_report's case analysis: nothing without sales, detail only with returns. */
  function Summarise(sales: int, returned: int, header: string, headerNoReturns: string): (r: Option<Summary>)
    ensures r.None? <==> sales == 0
    ensures r.Some? ==> r.value.proceeds == sales - returned
    ensures r.Some? ==> (r.value.Detailed? <==> returned != 0)
    ensures r.Some? && r.value.Detailed? ==> r.value == Detailed(header, sales, returned, sales - returned)
    ensures r.Some? && r.value.Single? ==> r.value.header == headerNoReturns
  {
    var proceeds := sales - returned;
    if sales == 0 then None
    else if returned != 0 then Some(Detailed(header, sales, returned, proceeds))
    else Some(Single(headerNoReturns, proceeds))
  }

  /** `f"{x:>w}"`: left-padded with spaces to width w. */
  function RightAlign(s: string, w: nat): (r: string)
    ensures |r| == if |s| < w then w else |s|
    ensures r[|r| - |s|..] == s && forall i | 0 <= i < |r| - |s| :: r[i] == ' '
  {
    if |s| < w then seq(w - |s|, _ => ' ') + s else s
  }

  /** An amount of kopiykas as `{x / 100:>10.2f}`. */
  function Column(p: int): string { RightAlign(FormatCents(p), 10) }

  function Render(s: Summary): string {
    match s
    case Detailed(header, sales, returned, proceeds) =>
      header + ":\n<pre>"
      + "Одержано: " + Column(sales) + " грн\n"
      + "Повернуто:" + Column(returned) + " грн\n"
      + "Виручка:  " + Column(proceeds) + " грн"
      + "</pre>"
    case Single(header, proceeds) =>
      header + ": " + FormatCents(proceeds) + " грн"
  }

  /** prepare_report: the rendered summary, or None when there were no sales. */
  function PrepareReport(sales: int, returned: int, header: string, headerNoReturns: string): (r: Option<string>)
    ensures r.None? <==> sales == 0
  {
    match Summarise(sales, returned, header, headerNoReturns)
    case None => None
    case Some(s) => Some(Render(s))
  }

  function CashReport(b: Balance): Option<string> {
    PrepareReport(b.cashSales, b.cashReturns, "Готівка", "Готівкова виручка")
  }

  function CardReport(b: Balance): Option<string> {
    PrepareReport(b.cardSales, b.cardReturns, "Картка", "Карткова виручка")
  }

  function TotalLine(b: Balance): string {
    "Всього: " + FormatCents(b.cashSales - b.cashReturns + b.cardSales - b.cardReturns) + " грн"
  }

  /** send_report: the messages answered, in order. */
  function SendReport(b: Balance): seq<string> {
    (if CashReport(b).Some? then [CashReport(b).value] else [])
    + (if CardReport(b).Some? then [CardReport(b).value] else [])
    + (if CashReport(b).Some? && CardReport(b).Some? then [TotalLine(b)] else [])
  }

  /**
   * One message per payment kind that had sales, cash first, and the total
   * exactly when both had sales; the total is the sum of the two proceeds.
   */
  lemma SendReportShape(b: Balance)
    ensures var msgs := SendReport(b);
            |msgs| == (if b.cashSales != 0 then 1 else 0) + (if b.cardSales != 0 then 1 else 0)
                      + (if b.cashSales != 0 && b.cardSales != 0 then 1 else 0)
    ensures b.cashSales != 0 ==> SendReport(b)[0] == CashReport(b).value
    ensures b.cashSales == 0 && b.cardSales != 0 ==> SendReport(b) == [CardReport(b).value]
    ensures b.cashSales != 0 && b.cardSales != 0 ==>
              SendReport(b) == [CashReport(b).value, CardReport(b).value, TotalLine(b)]
              && var cash := Summarise(b.cashSales, b.cashReturns, "Готівка", "Готівкова виручка").value;
                 var card := Summarise(b.cardSales, b.cardReturns, "Картка", "Карткова виручка").value;
                 TotalLine(b) == "Всього: " + FormatCents(cash.proceeds + card.proceeds) + " грн"
  {
    assert b.cashSales - b.cashReturns + b.cardSales - b.cardReturns
           == (b.cashSales - b.cashReturns) + (b.cardSales - b.cardReturns);
  }

}
