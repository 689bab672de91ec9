/**
 * Cashless reconciliation, the part common to every bank or acquirer: which
 * fetched transactions are new, how a transaction becomes receipt goods, and
 * one polling cycle (store, notify, receipt) with the snapshot it leaves.
 */
module Transactions {
  import opened Wrappers
  import opened Text
  import opened OrderedDict
  import opened Json
  import opened Sorting
  import opened SetDiff
  import opened Catalogue
  import GoodsParser

  /** A transaction as fetched, and as kept in the snapshot file. */
  type Record = ODict<string, Json>

  /** A parsed timestamp: its calendar date as `str(ts.date())`, and its instant. */
  datatype Timestamp = Timestamp(day: string, instant: int)

  /** The fields a source adds to the common ones. */
  datatype Details =
    | Plain
    | Privat24(account: string, credit: bool)
    | Fondy(approved: bool)

  /**
   * A parsed transaction; `id` is the value under the source's id key in the
   * original record, None when the record has no such key.
   */
  datatype Transaction = Transaction(
    id: Option<Json>, ts: Timestamp, code: string, name: string, sender: string, sum: string,
    details: Details, orig: Record)

  /** What two transactions must share to be the same element of a set: the id and the fields. */
  function Identity(t: Transaction): Transaction { t.(orig := []) }

  function Instant(t: Transaction): int { t.ts.instant }

  /** The worksheet row: date, sum and sender. */
  function Row(t: Transaction): seq<string> { [t.ts.day, t.sum, t.sender] }

  /** TransactionBase.check: the base class accepts every transaction. */
  predicate BaseCheck(t: Transaction) { true }

  // ---------------------------------------------------------------------
  // New transactions

  /** new_transaction: `curr_set - prev_set` on the transactions' identities, sorted by time. */
  function NewTransactions(prev: seq<Transaction>, curr: seq<Transaction>): seq<Transaction> {
    SortBy(Diff(prev, curr, Identity), Instant)
  }

  /**
   * new_transaction returns the transactions of curr that prev does not
   * hold, each once, oldest first; every other transaction of curr is in prev.
   */
  lemma NewTransactionsSpec(prev: seq<Transaction>, curr: seq<Transaction>)
    ensures SortedBy(NewTransactions(prev, curr), Instant)
    ensures forall x | x in NewTransactions(prev, curr) ::
              x in curr && forall p | p in prev :: Identity(p) != Identity(x)
    ensures forall c | c in curr ::
              (exists p | p in prev :: Identity(p) == Identity(c))
              || (exists x | x in NewTransactions(prev, curr) :: Identity(x) == Identity(c))
    ensures DistinctBy(NewTransactions(prev, curr), Identity)
  {
    var unseen := Diff(prev, curr, Identity);
    var r := NewTransactions(prev, curr);
    DiffSpec(prev, curr, Identity);
    SortBySorted(unseen, Instant);
    PermutationDistinctBy(unseen, r, Identity);
    forall x | x in r ensures x in curr && forall p | p in prev :: Identity(p) != Identity(x) {
      assert x in multiset(unseen);
      assert x in unseen;
    }
    forall c | c in curr
      ensures (exists p | p in prev :: Identity(p) == Identity(c))
              || (exists x | x in r :: Identity(x) == Identity(c))
    {
      if !exists p | p in prev :: Identity(p) == Identity(c) {
        var x :| x in unseen && Identity(x) == Identity(c);
        assert x in multiset(r);
      }
    }
  }

  // ---------------------------------------------------------------------
  // Transaction to goods

  /** A receipt line; the price is in kopiykas and the quantity in thousandths. */
  datatype Line = Line(code: string, name: string, price: int, quantity: int)

  /** `float(s) * 100` for a decimal with at most two fraction digits, computed exactly. */
  function SumCents(s: string): Option<int> {
    if |s| > 0 && s[0] == '-' then
      match UnsignedCents(s[1..])
      case Some(a) => Some(0 - a as int)
      case None => None
    else
      match UnsignedCents(s)
      case Some(a) => Some(a)
      case None => None
  }

  function UnsignedCents(s: string): Option<nat> {
    if GoodsParser.IsNumber(s, 2) && Excludes(s, ',') then Some(GoodsParser.Scaled(s, 2)) else None
  }

  lemma FormatCentsNoComma(p: nat)
    ensures Excludes(FormatCents(p), ',')
  {
    var w := NatToString(p / 100);
    var f := FormatCents(p);
    assert f == w + ("." + Pad2(p % 100));
    forall i | 0 <= i < |f| ensures f[i] != ',' {
      if i < |w| { assert f[i] == w[i]; }
      else if i > |w| { assert f[i] == Pad2(p % 100)[i - |w| - 1]; }
    }
  }

  /** A sum written with two decimals reads back as the same number of kopiykas. */
  lemma SumCentsFormat(p: int)
    ensures SumCents(FormatCents(p)) == Some(p)
  {
    var a := if p < 0 then -p else p;
    GoodsParser.ScaledCents(a);
    FormatCentsNoComma(a);
    if p < 0 {
      assert FormatCents(p) == "-" + FormatCents(a);
      assert FormatCents(p)[1..] == FormatCents(a);
    }
  }

  function Price(g: Good): int { g.price }

  /** The catalogue's goods in the order they are tried: `reversed(sorted(values, key=price))`. */
  function Tried(items: ODict<string, Good>): seq<Good> {
    Reverse(SortBy(Values(items), Price))
  }

  /** The search stops at a good whose price divides the amount, or whose price is 0 (divmod raises). */
  predicate Stops(g: Good, amount: int) {
    g.price == 0 || amount % g.price == 0
  }

  /** The position of the first good the search stops at, or |tried| when there is none. */
  function FirstStop(tried: seq<Good>, amount: int): (i: nat)
    ensures i <= |tried|
    ensures i < |tried| ==> Stops(tried[i], amount)
    ensures forall k | 0 <= k < i :: !Stops(tried[k], amount)
  {
    if tried == [] then 0
    else if Stops(tried[0], amount) then 0
    else 1 + FirstStop(tried[1..], amount)
  }

  lemma {:induction false} FirstStopIs(tried: seq<Good>, amount: int, i: nat)
    requires i <= |tried| && (i < |tried| ==> Stops(tried[i], amount))
    requires forall k | 0 <= k < i :: !Stops(tried[k], amount)
    ensures FirstStop(tried, amount) == i
  {
    if i > 0 {
      assert !Stops(tried[0], amount);
      FirstStopIs(tried[1..], amount, i - 1);
    }
  }

  /** transaction_to_goods: exactly one line, a catalogue good when one divides the amount. */
  function ToGoods(t: Transaction, items: ODict<string, Good>): Result<seq<Line>> {
    match SumCents(t.sum)
    case None => Err(ValueError("could not convert string to float"))
    case Some(amount) =>
      var fallback := Line(t.code, t.name, amount, 1000);
      if items == [] then Ok([fallback])
      else
        var tried := Tried(items);
        var i := FirstStop(tried, amount);
        if i == |tried| then Ok([fallback])
        else if tried[i].price == 0 then Err(ZeroDivision)
        else Ok([Line(tried[i].code, tried[i].name, tried[i].price, 1000 * (amount / tried[i].price))])
  }

  method TransactionToGoods(t: Transaction, items: ODict<string, Good>) returns (r: Result<seq<Line>>)
    ensures r == ToGoods(t, items)
  {
    var cents := SumCents(t.sum);
    if cents.None? {
      return Err(ValueError("could not convert string to float"));
    }
    var amount := cents.value;
    var code, name, price, quantity := t.code, t.name, amount, 1000;
    if items != [] {
      var tried := Tried(items);
      var i := 0;
      while i < |tried|
        invariant i <= |tried|
        invariant forall k | 0 <= k < i :: !Stops(tried[k], amount)
        invariant code == t.code && name == t.name && price == amount && quantity == 1000
      {
        var good := tried[i];
        if good.price == 0 {
          FirstStopIs(tried, amount, i);
          return Err(ZeroDivision);
        }
        if amount % good.price == 0 {
          FirstStopIs(tried, amount, i);
          code, name, price := good.code, good.name, good.price;
          quantity := quantity * (amount / good.price);
          break;
        }
        i := i + 1;
      }
      FirstStopIs(tried, amount, i);
    }
    return Ok([Line(code, name, price, quantity)]);
  }

  /**
   * vals[j] is the good the search reaches first among those it stops at:
   * the highest price, and among equal prices the later catalogue entry.
   */
  predicate Highest(vals: seq<Good>, j: int, amount: int) {
    0 <= j < |vals| && Stops(vals[j], amount)
    && forall k | 0 <= k < |vals| && k != j && Stops(vals[k], amount) :: Before((vals[k], k), (vals[j], j), Price)
  }

  /** Tried(items) with each good tagged by its catalogue position. */
  function TaggedTried(items: ODict<string, Good>): seq<(Good, int)> {
    Reverse(SortBy(Tag(Values(items)), TagKey(Price)))
  }

  lemma TaggedTriedSpec(items: ODict<string, Good>)
    ensures var tt := TaggedTried(items);
            Untag(tt) == Tried(items)
            && multiset(tt) == multiset(Tag(Values(items)))
            && forall a, b | 0 <= a < b < |tt| :: Before(tt[b], tt[a], Price)
  {
    var vals := Values(items);
    var ts := SortBy(Tag(vals), TagKey(Price));
    SortByStable(vals, Price);
    TaggedTriedUntag(vals, ts);
    TaggedTriedOrder(ts);
    ReverseMultiset(ts);
  }

  lemma TaggedTriedUntag(vals: seq<Good>, ts: seq<(Good, int)>)
    requires Untag(ts) == SortBy(vals, Price)
    ensures Untag(Reverse(ts)) == Reverse(SortBy(vals, Price))
  {
    var u := Untag(Reverse(ts));
    var r := Reverse(SortBy(vals, Price));
    assert |u| == |r|;
    forall i | 0 <= i < |u| ensures u[i] == r[i] {
      assert u[i] == ts[|ts| - 1 - i].0;
    }
  }

  lemma TaggedTriedOrder(ts: seq<(Good, int)>)
    requires StrictlyOrdered(ts, Price)
    ensures var tt := Reverse(ts); forall a, b | 0 <= a < b < |tt| :: Before(tt[b], tt[a], Price)
  {
    var tt := Reverse(ts);
    forall a, b | 0 <= a < b < |tt| ensures Before(tt[b], tt[a], Price) {
      assert tt[a] == ts[|ts| - 1 - a] && tt[b] == ts[|ts| - 1 - b];
    }
  }

  lemma FirstStopIsHighest(items: ODict<string, Good>, amount: int)
    ensures var vals := Values(items); var tried := Tried(items); var i := FirstStop(tried, amount);
            (i == |tried| <==> forall k | 0 <= k < |vals| :: !Stops(vals[k], amount))
            && (i < |tried| ==> exists j | Highest(vals, j, amount) :: tried[i] == vals[j])
  {
    var vals := Values(items);
    var tt := TaggedTried(items);
    TaggedTriedSpec(items);
    var tried := Untag(tt);
    var i := FirstStop(tried, amount);
    var n := |vals|;
    // every good the search would stop at sits at or after position i
    forall k | 0 <= k < n && Stops(vals[k], amount)
      ensures exists p | i <= p < n :: tt[p] == (vals[k], k)
    {
      assert Tag(vals)[k] in multiset(tt);
      var p :| 0 <= p < |tt| && tt[p] == (vals[k], k);
      assert tried[p] == vals[k];
    }
    if i < |tried| {
      assert tt[i] in multiset(Tag(vals));
      var j :| 0 <= j < n && Tag(vals)[j] == tt[i];
      forall k | 0 <= k < n && k != j && Stops(vals[k], amount)
        ensures Before((vals[k], k), (vals[j], j), Price)
      {
        var p :| i <= p < n && tt[p] == (vals[k], k);
        assert p != i;
      }
      assert Highest(vals, j, amount);
    }
  }

  /**
   * The goods for a transaction: one line; the fallback (the transaction's
   * code and name, the amount, quantity 1000) when no catalogue good divides
   * the amount; otherwise the highest-priced dividing good, later entries
   * first on equal prices, with quantity 1000 times the quotient; a zero
   * price reached first raises.
   */
  lemma ToGoodsSpec(t: Transaction, items: ODict<string, Good>)
    ensures ToGoods(t, items).Err? && ToGoods(t, items).error.ValueError? <==> SumCents(t.sum).None?
    ensures ToGoods(t, items).Ok? ==> |ToGoods(t, items).value| == 1
    ensures SumCents(t.sum).Some? && (forall k | 0 <= k < |Values(items)| :: !Stops(Values(items)[k], SumCents(t.sum).value))
            ==> ToGoods(t, items) == Ok([Line(t.code, t.name, SumCents(t.sum).value, 1000)])
    ensures SumCents(t.sum).Some? && items != [] && (exists k | 0 <= k < |Values(items)| :: Stops(Values(items)[k], SumCents(t.sum).value))
            ==> var vals, amount := Values(items), SumCents(t.sum).value;
                exists j | Highest(vals, j, amount) ::
                  ToGoods(t, items) == if vals[j].price == 0 then Err(ZeroDivision)
                    else Ok([Line(vals[j].code, vals[j].name, vals[j].price, 1000 * (amount / vals[j].price))])
  {
    if SumCents(t.sum).Some? {
      var amount := SumCents(t.sum).value;
      FirstStopIsHighest(items, amount);
    }
  }

  // ---------------------------------------------------------------------
  // One polling cycle

  /** How receipt.sell and the signature wait went, for one transaction. */
  datatype SaleOutcome = SellFailed | SignFailed | Signed(receiptId: string, url: string)

  /** A broadcast to the supervisors. */
  datatype Message = Notice(text: string) | ReceiptSent(receiptId: string, url: string)

  function NotifyText(t: Transaction): string {
    "\U{1F4B8} Безготівкове зарахування: " + t.sum + " грн"
    + (if t.sender != "" then "\n\U{1F481} Платник: " + t.sender else "")
  }

  /** Parse every record, failing at the first record that does not parse. */
  function ParseAll(rs: seq<Record>, parse: Record -> Result<Transaction>): (r: Result<seq<Transaction>>)
    ensures r.Ok? <==> forall i | 0 <= i < |rs| :: parse(rs[i]).Ok?
    ensures r.Ok? ==> |r.value| == |rs| && forall i | 0 <= i < |rs| :: r.value[i] == parse(rs[i]).value
    ensures r.Err? ==> exists i | 0 <= i < |rs| :: parse(rs[i]).Err? && r.error == parse(rs[i]).error
  {
    if rs == [] then Ok([])
    else match parse(rs[0])
      case Err(e) => Err(e)
      case Ok(t) =>
        match ParseAll(rs[1..], parse)
        case Err(e) =>
          assert forall i | 0 <= i < |rs| - 1 :: rs[1..][i] == rs[i + 1];
          Err(e)
        case Ok(ts) => Ok([t] + ts)
  }

  /** The original records of txs, in order. */
  function Origs(txs: seq<Transaction>): (os: seq<Record>)
    ensures |os| == |txs|
  {
    if txs == [] then [] else Origs(txs[..|txs| - 1]) + [txs[|txs| - 1].orig]
  }

  lemma OrigsSnoc(txs: seq<Transaction>, i: nat)
    requires i < |txs|
    ensures Origs(txs[..i + 1]) == Origs(txs[..i]) + [txs[i].orig]
  {
    assert txs[..i + 1][..i] == txs[..i];
  }

  /** The position of the first accepted transaction whose store fails, or |txs|. */
  function StoreFailure(txs: seq<Transaction>, check: Transaction -> bool, storeOk: nat -> bool): (k: nat)
    ensures k <= |txs|
    ensures k < |txs| ==> check(txs[k]) && !storeOk(k)
    ensures forall i | 0 <= i < k :: !check(txs[i]) || storeOk(i)
  {
    StoreFailureFrom(txs, 0, check, storeOk)
  }

  function StoreFailureFrom(txs: seq<Transaction>, i: nat, check: Transaction -> bool, storeOk: nat -> bool): (k: nat)
    requires i <= |txs|
    ensures i <= k <= |txs|
    ensures k < |txs| ==> check(txs[k]) && !storeOk(k)
    ensures forall j | i <= j < k :: !check(txs[j]) || storeOk(j)
    decreases |txs| - i
  {
    if i == |txs| then i
    else if check(txs[i]) && !storeOk(i) then i
    else StoreFailureFrom(txs, i + 1, check, storeOk)
  }

  /** The worksheet rows of the first n transactions. */
  function Rows(txs: seq<Transaction>, n: nat, check: Transaction -> bool): seq<seq<string>>
    requires n <= |txs|
  {
    if n == 0 then []
    else Rows(txs, n - 1, check) + (if check(txs[n - 1]) then [Row(txs[n - 1])] else [])
  }

  /** An effect on the world outside, in the order it happens. */
  datatype Effect =
    | Appended(row: seq<string>)      // a row appended to the cashless worksheet
    | Sent(message: Message)          // a broadcast to the supervisors
    | SaleRequested(goods: seq<Line>) // receipt.sell called with these goods

  /** create_receipt: nothing when the goods cannot be computed, else the sale and the broadcast of its outcome. */
  function ReceiptEffects(goods: Result<seq<Line>>, outcome: SaleOutcome): seq<Effect> {
    if goods.Err? then []
    else
      [SaleRequested(goods.value)]
      + match outcome
        case SellFailed => [Sent(Notice("Помилка створення чеку!"))]
        case SignFailed => [Sent(Notice("Чек успішно створено"))]
        case Signed(id, url) => [Sent(ReceiptSent(id, url))]
  }

  /** The effects for one transaction that passed the check and was stored: row, notice, receipt. */
  function Handled(t: Transaction, notified: bool, items: ODict<string, Good>, outcome: SaleOutcome): seq<Effect> {
    [Appended(Row(t))]
    + (if notified then [Sent(Notice(NotifyText(t)))] else [])
    + ReceiptEffects(ToGoods(t, items), outcome)
  }

  /** The effects of handling the first n transactions. */
  function Effects(txs: seq<Transaction>, n: nat, check: Transaction -> bool, items: ODict<string, Good>,
                   notifyOk: nat -> bool, sale: nat -> SaleOutcome): seq<Effect>
    requires n <= |txs|
  {
    if n == 0 then []
    else
      Effects(txs, n - 1, check, items, notifyOk, sale)
      + (if check(txs[n - 1]) then Handled(txs[n - 1], notifyOk(n - 1), items, sale(n - 1)) else [])
  }

  /** The worksheet rows among a sequence of effects. */
  function Sheet(effects: seq<Effect>): seq<seq<string>> {
    if effects == [] then []
    else Sheet(effects[..|effects| - 1])
         + (if effects[|effects| - 1].Appended? then [effects[|effects| - 1].row] else [])
  }

  /**
   * Putting a parsed transaction into a set hashes it, by the value of the
   * original record under the source's id key: a record without that key is
   * a KeyError.
   */
  function Inserted(parse: Record -> Result<Transaction>, rec: Record): (r: Result<Transaction>)
    ensures r.Ok? <==> parse(rec).Ok? && parse(rec).value.id.Some?
    ensures r.Ok? ==> r.value == parse(rec).value
    ensures r.Err? ==> r.error == (if parse(rec).Err? then parse(rec).error else KeyError)
  {
    match parse(rec)
    case Err(e) => Err(e)
    case Ok(t) => if t.id.None? then Err(KeyError) else Ok(t)
  }

  /**
   * The same as written: `__hash__` reads `self._hash_key`, a private
   * attribute no class assigns, so every parsed transaction raises
   * AttributeError as it enters the set.
   */
  function InsertedAsWritten(parse: Record -> Result<Transaction>, rec: Record): (r: Result<Transaction>)
    ensures r.Err?
    ensures r.error == (if parse(rec).Err? then parse(rec).error else AttributeError)
  {
    match parse(rec)
    case Err(e) => Err(e)
    case Ok(_) => Err(AttributeError)
  }

  /**
   * new_transaction on the raw windows with the hash keyed on the id:
   * the set of prev, then the set of curr, each record parsed and hashed in
   * turn, then the new transactions.
   */
  function Pending(prev: seq<Record>, curr: seq<Record>, parse: Record -> Result<Transaction>): Result<seq<Transaction>> {
    match ParseAll(prev, rec => Inserted(parse, rec))
    case Err(e) => Err(e)
    case Ok(p) =>
      match ParseAll(curr, rec => Inserted(parse, rec))
      case Err(e) => Err(e)
      case Ok(c) => Ok(NewTransactions(p, c))
  }

  /** new_transaction on the raw windows as written. */
  function PendingAsWritten(prev: seq<Record>, curr: seq<Record>, parse: Record -> Result<Transaction>): Result<seq<Transaction>> {
    match ParseAll(prev, rec => InsertedAsWritten(parse, rec))
    case Err(e) => Err(e)
    case Ok(p) =>
      match ParseAll(curr, rec => InsertedAsWritten(parse, rec))
      case Err(e) => Err(e)
      case Ok(c) => Ok(NewTransactions(p, c))
  }

  /**
   * With the hash keyed on the id, the windows go through exactly when every
   * record of both parses and has the id key, and then the outcome is the
   * new transactions of the parsed windows; otherwise the first failure
   * (prev before curr) is raised.
   */
  lemma PendingSpec(prev: seq<Record>, curr: seq<Record>, parse: Record -> Result<Transaction>)
    ensures Pending(prev, curr, parse).Ok? <==>
              forall rec | rec in prev + curr :: parse(rec).Ok? && parse(rec).value.id.Some?
    ensures Pending(prev, curr, parse).Ok? ==>
              var p, c := ParseAll(prev, parse), ParseAll(curr, parse);
              p.Ok? && c.Ok? && Pending(prev, curr, parse).value == NewTransactions(p.value, c.value)
  {
    var ins := rec => Inserted(parse, rec);
    var a, b := ParseAll(prev, ins), ParseAll(curr, ins);
    var pa, pb := ParseAll(prev, parse), ParseAll(curr, parse);
    forall rec | rec in prev + curr ensures ins(rec) == Inserted(parse, rec) { }
    if a.Ok? && b.Ok? {
      assert pa.Ok? && pb.Ok?;
      assert a.value == pa.value;
      assert b.value == pb.value;
    }
    if forall rec | rec in prev + curr :: parse(rec).Ok? && parse(rec).value.id.Some? {
      assert forall i | 0 <= i < |prev| :: prev[i] in prev + curr;
      assert forall i | 0 <= i < |curr| :: curr[i] in prev + curr;
    } else {
      var rec :| rec in prev + curr && !(parse(rec).Ok? && parse(rec).value.id.Some?);
      if rec in prev {
        var i :| 0 <= i < |prev| && prev[i] == rec;
      } else {
        var i :| 0 <= i < |curr| && curr[i] == rec;
      }
    }
  }

  /**
   * As written, new_transaction raises on every non-empty pair of windows,
   * and with the first record parsing what it raises is AttributeError:
   * no new transaction is ever found.
   */
  lemma PendingAsWrittenFails(prev: seq<Record>, curr: seq<Record>, parse: Record -> Result<Transaction>)
    ensures prev + curr == [] <==> PendingAsWritten(prev, curr, parse) == Ok([])
    ensures prev + curr != [] && parse((prev + curr)[0]).Ok? ==> PendingAsWritten(prev, curr, parse) == Err(AttributeError)
  {
    if prev != [] {
      assert InsertedAsWritten(parse, prev[0]).Err?;
    } else if curr != [] {
      assert InsertedAsWritten(parse, curr[0]).Err?;
    }
  }

  // ---------------------------------------------------------------------
  // The fetch as a cycle calls it

  /**
   * The parameters besides self that a get_transactions declares. The base
   * class declares a keyword-only `session`; the PrivatBank and Fondy
   * processors override it with none.
   */
  const BaseParams: set<string> := {"session"}
  const SourceParams: set<string> := {}

  /**
   * `self.get_transactions(session=session)`, as read_transactions and
   * process_transactions call it. Python binds the arguments before the
   * coroutine starts, so an override without a `session` parameter raises
   * TypeError at the call, inside the caller's `try`: the caller sees a
   * failed fetch (None). Otherwise the fetch has the coroutine's own outcome.
   */
  function CallWithSession(params: set<string>, outcome: Option<seq<Record>>): (r: Option<seq<Record>>)
    ensures r.Some? <==> "session" in params && outcome.Some?
    ensures r.Some? ==> r == outcome
  {
    if "session" in params then outcome else None
  }

  /** The sources' processors never fetch, whatever their API would answer; the base signature passes the outcome on. */
  lemma SourcesNeverFetch(outcome: Option<seq<Record>>)
    ensures CallWithSession(SourceParams, outcome).None?
    ensures CallWithSession(BaseParams, outcome) == outcome
  {
  }

  /** The processor's effects: the writes of its snapshot file, and everything else it does, in order. */
  class Processor {
    /** Every write of the snapshot file, in order. */
    var written: seq<seq<Record>>
    /** The worksheet appends, broadcasts and sales, in order. */
    var effects: seq<Effect>

    constructor ()
      ensures written == [] && effects == []
    {
      written, effects := [], [];
    }

    /** store_transaction: the row is appended unless the worksheet call fails. */
    method StoreTransaction(t: Transaction, ok: bool)
      modifies this
      ensures effects == old(effects) + (if ok then [Appended(Row(t))] else [])
      ensures written == old(written)
    {
      if ok {
        effects := effects + [Appended(Row(t))];
      }
    }

    /** bot_notify: the notice reaches the supervisors unless sending fails. */
    method BotNotify(t: Transaction, delivered: bool)
      modifies this
      ensures effects == old(effects) + (if delivered then [Sent(Notice(NotifyText(t)))] else [])
      ensures written == old(written)
    {
      if delivered {
        effects := effects + [Sent(Notice(NotifyText(t)))];
      }
    }

    /**
     * create_receipt: no sale when the goods cannot be computed; otherwise
     * the sale is requested and its outcome broadcast.
     */
    method CreateReceipt(t: Transaction, items: ODict<string, Good>, outcome: SaleOutcome)
      modifies this
      ensures effects == old(effects) + ReceiptEffects(ToGoods(t, items), outcome)
      ensures written == old(written)
    {
      var goods := TransactionToGoods(t, items);
      if goods.Err? {
        return;
      }
      effects := effects + [SaleRequested(goods.value)];
      match outcome
      case SellFailed => effects := effects + [Sent(Notice("Помилка створення чеку!"))];
      case SignFailed => effects := effects + [Sent(Notice("Чек успішно створено"))];
      case Signed(id, url) => effects := effects + [Sent(ReceiptSent(id, url))];
    }

    /** A transaction that passed the check and was stored: notify, then create the receipt. */
    method Accepted(t: Transaction, notified: bool, items: ODict<string, Good>, outcome: SaleOutcome)
      modifies this
      ensures effects == old(effects) + Handled(t, notified, items, outcome)
      ensures written == old(written)
    {
      StoreTransaction(t, true);
      BotNotify(t, notified);
      CreateReceipt(t, items, outcome);
    }

    /** One pass of the loop for a transaction whose store, if attempted, succeeds. */
    method Handle(t: Transaction, accepted: bool, notified: bool, items: ODict<string, Good>, outcome: SaleOutcome)
      modifies this
      ensures effects == old(effects) + (if accepted then Handled(t, notified, items, outcome) else [])
      ensures written == old(written)
    {
      if accepted {
        Accepted(t, notified, items, outcome);
      }
    }

    /**
     * The loop of process_transactions over the new transactions txs of
     * the window curr: stops at the first failing store, writing the
     * snapshot reached so far; otherwise writes curr.
     */
    method Reconcile(prev: seq<Record>, curr: seq<Record>, txs: seq<Transaction>,
                     check: Transaction -> bool, items: ODict<string, Good>,
                     storeOk: nat -> bool, notifyOk: nat -> bool, sale: nat -> SaleOutcome)
      returns (r: seq<Record>)
      modifies this
      ensures var k := StoreFailure(txs, check, storeOk);
              r == (if k < |txs| then prev + Origs(txs[..k]) else curr)
              && written == old(written) + [r]
              && effects == old(effects) + Effects(txs, k, check, items, notifyOk, sale)
    {
      var k := StoreFailure(txs, check, storeOk);
      var temp := prev;
      var i := 0;
      while i < |txs|
        invariant i <= k
        invariant temp == prev + Origs(txs[..i])
        invariant written == old(written)
        invariant effects == old(effects) + Effects(txs, i, check, items, notifyOk, sale)
      {
        var t := txs[i];
        OrigsSnoc(txs, i);
        if check(t) && !storeOk(i) {
          assert k == i;
          written := written + [temp];
          return temp;
        }
        ghost var done := Effects(txs, i, check, items, notifyOk, sale);
        ghost var step: seq<Effect> := if check(t) then Handled(t, notifyOk(i), items, sale(i)) else [];
        Handle(t, check(t), notifyOk(i), items, sale(i));
        assert Effects(txs, i + 1, check, items, notifyOk, sale) == done + step;
        AppendAssoc(old(effects), done, step);
        AppendAssoc(prev, Origs(txs[..i]), [t.orig]);
        temp := temp + [t.orig];
        i := i + 1;
      }
      assert k == |txs|;
      written := written + [curr];
      return curr;
    }

    /**
     * process_transactions. `fetched` is the outcome of get_transactions;
     * storeOk, notifyOk and sale give the outcome of storing, notifying and
     * selling the i-th new transaction. A parse failure propagates as Err.
     */
    method ProcessTransactions(prev: seq<Record>, fetched: Option<seq<Record>>,
                               parse: Record -> Result<Transaction>, check: Transaction -> bool,
                               items: ODict<string, Good>,
                               storeOk: nat -> bool, notifyOk: nat -> bool, sale: nat -> SaleOutcome)
      returns (r: Result<seq<Record>>)
      modifies this
      ensures fetched.None? ==> r == Ok(prev) && unchanged(this)
      ensures fetched.Some? && Pending(prev, fetched.value, parse).Err? ==>
                r == Err(Pending(prev, fetched.value, parse).error) && unchanged(this)
      ensures fetched.Some? && Pending(prev, fetched.value, parse).Ok? ==>
                var txs := Pending(prev, fetched.value, parse).value;
                var k := StoreFailure(txs, check, storeOk);
                r == Ok(if k < |txs| then prev + Origs(txs[..k]) else fetched.value)
                && written == old(written) + [r.value]
                && effects == old(effects) + Effects(txs, k, check, items, notifyOk, sale)
    {
      if fetched.None? {
        return Ok(prev);
      }
      var curr := fetched.value;
      var pending := Pending(prev, curr, parse);
      if pending.Err? {
        return Err(pending.error);
      }
      var txs := pending.value;
      var snapshot := Reconcile(prev, curr, txs, check, items, storeOk, notifyOk, sale);
      return Ok(snapshot);
    }

    /**
     * read_transactions: the snapshot file's contents when it exists;
     * otherwise the fetch, written to the file, or [] with nothing written
     * when the fetch fails.
     */
    method ReadTransactions(stored: Option<seq<Record>>, fetched: Option<seq<Record>>) returns (prev: seq<Record>)
      modifies this
      ensures stored.Some? ==> prev == stored.value && unchanged(this)
      ensures stored.None? && fetched.None? ==> prev == [] && unchanged(this)
      ensures stored.None? && fetched.Some? ==>
                prev == fetched.value && written == old(written) + [prev] && effects == old(effects)
    {
      if stored.Some? {
        return stored.value;
      }
      if fetched.None? {
        return [];
      }
      written := written + [fetched.value];
      return fetched.value;
    }

    /**
     * The start and one cycle as written for a processor whose
     * get_transactions declares `params`: with the sources' own signature
     * both fetches fail with TypeError, so with no snapshot file the bot
     * starts from [], and every cycle returns prev and stores, notifies,
     * sells and writes nothing.
     */
    method CycleAsWritten(stored: Option<seq<Record>>, params: set<string>,
                          first: Option<seq<Record>>, outcome: Option<seq<Record>>,
                          parse: Record -> Result<Transaction>, check: Transaction -> bool,
                          items: ODict<string, Good>,
                          storeOk: nat -> bool, notifyOk: nat -> bool, sale: nat -> SaleOutcome)
      returns (prev: seq<Record>, r: Result<seq<Record>>)
      modifies this
      ensures "session" !in params ==>
                prev == (if stored.Some? then stored.value else []) && r == Ok(prev) && unchanged(this)
    {
      prev := ReadTransactions(stored, CallWithSession(params, first));
      r := ProcessTransactions(prev, CallWithSession(params, outcome), parse, check, items, storeOk, notifyOk, sale);
    }
  }

  // ---------------------------------------------------------------------
  // Properties of a cycle

  lemma {:induction false} SheetAppend(a: seq<Effect>, b: seq<Effect>)
    ensures Sheet(a + b) == Sheet(a) + Sheet(b)
    decreases |b|
  {
    if b == [] {
      assert a + b == a;
    } else {
      var init := b[..|b| - 1];
      var last: seq<seq<string>> := if b[|b| - 1].Appended? then [b[|b| - 1].row] else [];
      assert (a + b)[..|a + b| - 1] == a + init;
      assert (a + b)[|a + b| - 1] == b[|b| - 1];
      SheetAppend(a, init);
      AppendAssoc(Sheet(a), Sheet(init), last);
    }
  }

  /** Effects that append no row leave the worksheet alone. */
  lemma {:induction false} SheetNone(e: seq<Effect>)
    requires forall i | 0 <= i < |e| :: !e[i].Appended?
    ensures Sheet(e) == []
  {
    if e != [] {
      SheetNone(e[..|e| - 1]);
    }
  }

  lemma ReceiptEffectsSheet(goods: Result<seq<Line>>, outcome: SaleOutcome)
    ensures Sheet(ReceiptEffects(goods, outcome)) == []
  {
    var e := ReceiptEffects(goods, outcome);
    assert forall i | 0 <= i < |e| :: !e[i].Appended?;
    SheetNone(e);
  }

  /** A stored transaction contributes exactly its own row to the worksheet. */
  lemma HandledSheet(t: Transaction, notified: bool, items: ODict<string, Good>, outcome: SaleOutcome)
    ensures Sheet(Handled(t, notified, items, outcome)) == [Row(t)]
  {
    var note: seq<Effect> := if notified then [Sent(Notice(NotifyText(t)))] else [];
    var rec := ReceiptEffects(ToGoods(t, items), outcome);
    ReceiptEffectsSheet(ToGoods(t, items), outcome);
    SheetNone(note);
    assert Sheet([Appended(Row(t))]) == [Row(t)] by {
      assert [Appended(Row(t))][..0] == [];
    }
    SheetAppend([Appended(Row(t))], note);
    SheetAppend([Appended(Row(t))] + note, rec);
  }

  /** The worksheet receives one row per stored transaction, in processing order. */
  lemma {:induction false} SheetOfEffects(txs: seq<Transaction>, n: nat, check: Transaction -> bool,
                                          items: ODict<string, Good>, notifyOk: nat -> bool, sale: nat -> SaleOutcome)
    requires n <= |txs|
    ensures Sheet(Effects(txs, n, check, items, notifyOk, sale)) == Rows(txs, n, check)
  {
    if n > 0 {
      SheetOfEffects(txs, n - 1, check, items, notifyOk, sale);
      var t := txs[n - 1];
      var before := Effects(txs, n - 1, check, items, notifyOk, sale);
      var h: seq<Effect> := if check(t) then Handled(t, notifyOk(n - 1), items, sale(n - 1)) else [];
      var row: seq<seq<string>> := if check(t) then [Row(t)] else [];
      assert Effects(txs, n, check, items, notifyOk, sale) == before + h;
      assert Rows(txs, n, check) == Rows(txs, n - 1, check) + row;
      if check(t) {
        HandledSheet(t, notifyOk(n - 1), items, sale(n - 1));
        SheetAppend(before, h);
      } else {
        assert before + h == before;
      }
    }
  }

  /**
   * Each stored transaction's effects come in the order store, notify,
   * receipt: its row first, its notice (if delivered) next, then the sale.
   */
  lemma HandledOrder(t: Transaction, notified: bool, items: ODict<string, Good>, outcome: SaleOutcome)
    ensures Handled(t, notified, items, outcome)[0] == Appended(Row(t))
    ensures notified ==> Handled(t, notified, items, outcome)[1] == Sent(Notice(NotifyText(t)))
    ensures ToGoods(t, items).Ok? ==>
              Handled(t, notified, items, outcome)[if notified then 2 else 1] == SaleRequested(ToGoods(t, items).value)
  {
  }

  /**
   * With the base class's check every new transaction is accepted: every one
   * is stored, whatever its source says about it.
   */
  lemma {:induction false} BaseCheckStoresAll(txs: seq<Transaction>, n: nat)
    requires n <= |txs|
    ensures Rows(txs, n, BaseCheck) == seq(n, i requires 0 <= i < n => Row(txs[i]))
  {
    if n > 0 {
      BaseCheckStoresAll(txs, n - 1);
    }
  }

  /** Only accepted transactions reach the worksheet, one row each. */
  lemma {:induction false} RowsAccepted(txs: seq<Transaction>, n: nat, check: Transaction -> bool)
    requires n <= |txs|
    ensures |Rows(txs, n, check)| <= n
    ensures forall row | row in Rows(txs, n, check) :: exists i | 0 <= i < n :: check(txs[i]) && row == Row(txs[i])
  {
    if n > 0 {
      RowsAccepted(txs, n - 1, check);
    }
  }

  /** The records of txs are those of its elements, in order. */
  lemma {:induction false} OrigsAt(txs: seq<Transaction>)
    ensures forall i | 0 <= i < |txs| :: Origs(txs)[i] == txs[i].orig
    decreases |txs|
  {
    if txs != [] {
      OrigsAt(txs[..|txs| - 1]);
      assert forall i | 0 <= i < |txs| - 1 :: txs[..|txs| - 1][i] == txs[i];
    }
  }

  /**
   * The snapshot Reconcile returns when the store of txs[k] fails is prev
   * with the record of every transaction handled before txs[k] added, in
   * order.
   */
  lemma SnapshotHoldsStored(prev: seq<Record>, txs: seq<Transaction>, k: nat)
    requires k <= |txs|
    ensures var r := prev + Origs(txs[..k]);
            |r| == |prev| + k && r[..|prev|] == prev
            && forall i | 0 <= i < k :: r[|prev| + i] == txs[i].orig
  {
    OrigsAt(txs[..k]);
    var r := prev + Origs(txs[..k]);
    assert r[..|prev|] == prev;
  }

}
