/**
 * Receipts against the fiscal backend: selling goods (the receipt is built
 * from the goods' dicts, whose quantities are popped on the way), waiting
 * for a receipt to be signed, finding a receipt by its fiscal code and
 * fetching its image and text.
 */
module FiscalReceipt {
  import opened Wrappers
  import opened Json
  import opened FiscalHttp
  import opened FiscalShift

  const SellPath := "/receipts/sell"
  const SearchPath := "/receipts/search"

  const ReceiptUnsigned := Checkbox(ReceiptError, "Не вдалось підписати чек")
  const BadPrice := ValueError("Невірна ціна")
  const BadQuantity := ValueError("Невірна кількість")

  // ------------------------------------------------------------------ goods

  /**
   * A good's dict as the bot hands it to sell: code, name and price (in
   * kopiykas) stay, the quantity (in thousandths) is popped when the
   * receipt is built; None stands for a dict without "quantity".
   */
  class Good {
    const code: string
    const name: string
    const price: int
    var quantity: Option<int>

    constructor(code: string, name: string, price: int, quantity: Option<int>)
      ensures this.code == code && this.name == name && this.price == price && this.quantity == quantity
    {
      this.code := code;
      this.name := name;
      this.price := price;
      this.quantity := quantity;
    }
  }

  /** No dict appears twice. */
  predicate Distinct(goods: seq<Good>) {
    forall i, j | 0 <= i < j < |goods| :: goods[i] != goods[j]
  }

  /** The first position whose dict already appeared earlier in the list. */
  function FirstRepeat(goods: seq<Good>): (k: Option<nat>)
    ensures k.None? <==> Distinct(goods)
    ensures k.Some? ==> k.value < |goods| && goods[k.value] in goods[..k.value] && Distinct(goods[..k.value])
  {
    if goods == [] then None
    else
      var init := goods[..|goods| - 1];
      var k := FirstRepeat(init);
      if k.Some? then
        assert init[..k.value] == goods[..k.value];
        k
      else if goods[|goods| - 1] in init then Some(|goods| - 1)
      else None
  }

  /** A repeat after a list of distinct dicts is the first repeat. */
  lemma {:induction false} FirstRepeatAt(goods: seq<Good>, i: nat)
    requires i < |goods| && Distinct(goods[..i]) && goods[i] in goods[..i]
    ensures FirstRepeat(goods) == Some(i)
  {
    var init := goods[..|goods| - 1];
    if i < |goods| - 1 {
      assert init[..i] == goods[..i] && init[i] == goods[i];
      FirstRepeatAt(init, i);
    } else {
      assert init == goods[..i];
    }
  }

  /**
   * `sum(good["price"] * good["quantity"] / 1000 for good in goods)`, kept
   * exactly in thousandths of a kopiyka; KeyError when a dict has no
   * quantity.
   */
  function Total(goods: seq<Good>): (r: Result<int>)
    reads goods
    ensures r.Err? <==> exists i | 0 <= i < |goods| :: goods[i].quantity.None?
    ensures r.Err? ==> r.error == KeyError
  {
    if goods == [] then Ok(0)
    else
      var init := goods[..|goods| - 1];
      var rest := Total(init);
      var g := goods[|goods| - 1];
      assert forall i | 0 <= i < |init| :: init[i] == goods[i];
      if rest.Err? || g.quantity.None? then Err(KeyError)
      else Ok(rest.value + g.price * g.quantity.value)
  }

  /** Every dict still has its quantity. */
  predicate Counted(goods: seq<Good>)
    reads goods
  {
    forall i | 0 <= i < |goods| :: goods[i].quantity.Some?
  }

  /** The receipt's lines: each good without its quantity, and the quantity. */
  function Lines(goods: seq<Good>): (lines: seq<Line>)
    requires Counted(goods)
    reads goods
  {
    if goods == [] then []
    else
      var g := goods[|goods| - 1];
      Lines(goods[..|goods| - 1]) + [Line(Item(g.code, g.name, g.price), g.quantity.value)]
  }

  /** The i-th line is the i-th good with the quantity it had. */
  lemma {:induction false} LinesAt(goods: seq<Good>)
    requires Counted(goods)
    ensures |Lines(goods)| == |goods|
    ensures forall i | 0 <= i < |goods| ::
              Lines(goods)[i] == Line(Item(goods[i].code, goods[i].name, goods[i].price), goods[i].quantity.value)
  {
    if goods != [] {
      var init := goods[..|goods| - 1];
      assert forall i | 0 <= i < |init| :: init[i] == goods[i];
      LinesAt(init);
    }
  }

  /** What a list of lines costs, in thousandths of a kopiyka. */
  function LinesTotal(lines: seq<Line>): int {
    if lines == [] then 0
    else LinesTotal(lines[..|lines| - 1]) + lines[|lines| - 1].good.price * lines[|lines| - 1].quantity
  }

  /** The payment equals the total of the receipt's lines. */
  lemma {:induction false} PaymentIsLinesTotal(goods: seq<Good>)
    requires Counted(goods)
    ensures Total(goods) == Ok(LinesTotal(Lines(goods)))
  {
    if goods != [] {
      var init := goods[..|goods| - 1];
      var g := goods[|goods| - 1];
      assert forall i | 0 <= i < |init| :: init[i] == goods[i];
      assert Counted(init);
      PaymentIsLinesTotal(init);
      assert Total(goods) == Ok(LinesTotal(Lines(init)) + g.price * g.quantity.value);
      var line := Line(Item(g.code, g.name, g.price), g.quantity.value);
      var lines := Lines(init) + [line];
      assert Lines(goods) == lines;
      assert lines[..|lines| - 1] == Lines(init) && lines[|lines| - 1] == line;
      assert LinesTotal(lines) == LinesTotal(Lines(init)) + g.price * g.quantity.value;
    }
  }

  /** create_receipt's request body, or the KeyError raised while it is built. */
  function ReceiptBody(goods: seq<Good>, cashless: bool): (body: Result<Body>)
    reads goods
  {
    var total := Total(goods);
    if total.Err? || FirstRepeat(goods).Some? then Err(KeyError)
    else Ok(Sale(Lines(goods), [Payment(Some(if cashless then Cashless else Cash), total.value, None)]))
  }

  /**
   * The body is built exactly when every dict has its quantity and none
   * appears twice; it then holds one line per good and a single payment of
   * CASHLESS or CASH for the lines' total.
   */
  lemma ReceiptBodyCases(goods: seq<Good>, cashless: bool)
    ensures var body := ReceiptBody(goods, cashless);
            (body.Ok? <==> Counted(goods) && Distinct(goods))
            && (body.Err? ==> body.error == KeyError)
            && (body.Ok? ==>
                  body.value.Sale? && |body.value.lines| == |goods|
                  && body.value.payments == [Payment(Some(if cashless then Cashless else Cash), LinesTotal(body.value.lines), None)])
  {
    if Counted(goods) {
      PaymentIsLinesTotal(goods);
      LinesAt(goods);
    }
  }

  /** How far the popping gets in a list of dicts that all have a quantity: to the first repeat. */
  function Reach(goods: seq<Good>): (n: nat)
    ensures n <= |goods|
  {
    match FirstRepeat(goods)
    case Some(k) => k
    case None => |goods|
  }

  /** How many dicts create_receipt pops before it posts or fails. */
  function Popped(goods: seq<Good>): (n: nat)
    reads goods
    ensures n <= |goods|
  {
    if Total(goods).Err? then 0 else Reach(goods)
  }

  // --------------------------------------------------------------- receipts

  /**
   * `[{"good": good, "quantity": good.pop("quantity")} for good in goods]`
   * on dicts that all have a quantity: each dict loses its quantity to its
   * line, and a dict met a second time raises KeyError.
   */
  method PopLines(goods: seq<Good>) returns (lines: Result<seq<Line>>)
    requires Counted(goods)
    modifies goods
    ensures lines.Ok? <==> Distinct(goods)
    ensures lines.Ok? ==> lines.value == old(Lines(goods))
    ensures lines.Err? ==> lines.error == KeyError
    ensures forall g | g in goods :: g.quantity == if g in goods[..Reach(goods)] then None else old(g.quantity)
  {
    var done: seq<Line> := [];
    var i := 0;
    while i < |goods|
      invariant i <= |goods|
      invariant Distinct(goods[..i])
      invariant done == old(Lines(goods[..i]))
      invariant forall g | g in goods :: g.quantity == if g in goods[..i] then None else old(g.quantity)
    {
      var g := goods[i];
      if g.quantity.None? {
        // the dict was popped already: it appears twice
        FirstRepeatAt(goods, i);
        return Err(KeyError);
      }
      done := done + [Line(Item(g.code, g.name, g.price), g.quantity.value)];
      g.quantity := None;
      assert goods[..i + 1] == goods[..i] + [g] && goods[..i + 1][..i] == goods[..i];
      i := i + 1;
    }
    assert goods[..i] == goods;
    lines := Ok(done);
  }

  /** create_receipt whose sale request, if built, is the event at position at: the new receipt's id. */
  function CreateRun(replies: nat -> Attempt, at: nat, body: Result<Body>): Run<Json> {
    if body.Err? then Run(Err(body.error), [])
    else Run(IdOf(PostResult(replies(at), ReceiptError)), [HttpPost(SellPath, false, body.value)])
  }

  /**
   * create_receipt: adds up the payment, pops every good's quantity into
   * its line, posts the sale and returns the receipt's id.
   */
  method CreateReceipt(s: Session, goods: seq<Good>, cashless: bool) returns (r: Result<Json>)
    modifies s, goods
    ensures var run := CreateRun(s.replies, |old(s.trace)|, old(ReceiptBody(goods, cashless)));
            r == run.r && s.trace == old(s.trace) + run.events
    ensures forall g | g in goods :: g.quantity == if g in goods[..old(Popped(goods))] then None else old(g.quantity)
  {
    var total := Total(goods);
    if total.Err? {
      return Err(KeyError);
    }
    var lines := PopLines(goods);
    if lines.Err? {
      return Err(KeyError);
    }
    var payment := Payment(Some(if cashless then Cashless else Cash), total.value, None);
    var created := s.PostJson(SellPath, false, Sale(lines.value, [payment]), ReceiptError);
    r := IdOf(created);
  }

  // ----------------------------------------------------------- signatures

  /** wait_receipt_sign's reading of one get_retry outcome. */
  function Signed(got: Result<Json>): Look {
    if got == Err(JsonDecode) then Again
    else if got.Err? then Escape(got.error)
    else match Subscript(got.value, "status")
      case Err(e) => Escape(e)
      case Ok(status) =>
        if status.JArr? || status.JObj? then Escape(TypeError)  // unhashable, tested against a set
        else if status != JStr("DONE") && status != JStr("SIGNED") then Again
        else match Subscript(got.value, "tax_url")
          case Err(e) => Escape(e)
          case Ok(url) => Found(url)
  }

  /**
   * A receipt counts as signed only when its status is DONE or SIGNED,
   * and then its tax_url is returned; a body that is not JSON and any
   * other status go round again.
   */
  lemma SignedCases(got: Result<Json>)
    ensures var l := Signed(got);
            (l.Found? <==>
               got.Ok? && Subscript(got.value, "status") in {Ok(JStr("DONE")), Ok(JStr("SIGNED"))}
               && Subscript(got.value, "tax_url").Ok?)
            && (l.Found? ==> Holds(got.value, "tax_url", l.value))
            && (got == Err(JsonDecode) ==> l == Again)
            && (got.Err? && got.error != JsonDecode ==> l == Escape(got.error))
            && (forall t | got.Ok? && Subscript(got.value, "status") == Ok(JStr(t)) && t != "DONE" && t != "SIGNED" :: l == Again)
  {
  }

  /**
   * Iterations k to 9 of wait_receipt_sign, the first request being the
   * event at position at; fetch(n) is the get_retry whose first request is
   * the event at position n, and judge reads its outcome.
   */
  function WaitFrom(fetch: nat -> Run<Json>, judge: Result<Json> -> Look, fail: Error, at: nat, k: nat): Run<Json>
    decreases 10 - k
  {
    if k >= 10 then Run(Err(fail), [])
    else
      var got := fetch(at);
      var l := judge(got.r);
      if l.Again? then After(got.events + [Pause], WaitFrom(fetch, judge, fail, at + |got.events| + 1, k + 1))
      else Run(Settled(l), got.events)
  }

  /** get_retry(path, loader=loader, exc=exc), as a function of where its first request falls. */
  function Fetching(replies: nat -> Attempt, path: string, loader: Loader, exc: CheckboxKind): nat -> Run<Json> {
    (n: nat) => Retry(replies, n, path, loader, exc)
  }

  /** wait_receipt_sign(receipt_id) whose first request is the event at position at: the receipt's tax_url. */
  function WaitRun(replies: nat -> Attempt, at: nat, id: Json): Run<Json> {
    WaitFrom(Fetching(replies, ReceiptPath(id), LoadJson, ReceiptError), Signed, ReceiptUnsigned, at, 0)
  }

  /** One iteration of a wait that goes round again: its get_retry, a pause, then the rest. */
  lemma WaitStep(fetch: nat -> Run<Json>, judge: Result<Json> -> Look, fail: Error, at: nat, k: nat, step: Run<Json>)
    requires k < 10 && step == fetch(at) && judge(step.r).Again?
    ensures WaitFrom(fetch, judge, fail, at, k)
         == After(step.events + [Pause], WaitFrom(fetch, judge, fail, at + |step.events| + 1, k + 1))
  {
  }

  /** One iteration of a wait that settles it. */
  lemma WaitStop(fetch: nat -> Run<Json>, judge: Result<Json> -> Look, fail: Error, at: nat, k: nat, step: Run<Json>)
    requires k < 10 && step == fetch(at) && !judge(step.r).Again?
    ensures WaitFrom(fetch, judge, fail, at, k) == Run(Settled(judge(step.r)), step.events)
  {
  }

  /** A wait whose events so far are done goes round again. */
  lemma WaitGoesOn(fetch: nat -> Run<Json>, judge: Result<Json> -> Look, fail: Error, at: nat, done: seq<Event>, k: nat, step: Run<Json>)
    requires k < 10 && step == fetch(at + |done|) && judge(step.r).Again?
    ensures var more := done + (step.events + [Pause]);
            After(done, WaitFrom(fetch, judge, fail, at + |done|, k))
              == After(more, WaitFrom(fetch, judge, fail, at + |more|, k + 1))
  {
    var more := step.events + [Pause];
    var rest := WaitFrom(fetch, judge, fail, at + |done| + |more|, k + 1);
    WaitStep(fetch, judge, fail, at + |done|, k, step);
    Chained(done, more, rest);
  }

  /** A wait whose events so far are done settles. */
  lemma WaitSettles(fetch: nat -> Run<Json>, judge: Result<Json> -> Look, fail: Error, at: nat, done: seq<Event>, k: nat, step: Run<Json>)
    requires k < 10 && step == fetch(at + |done|) && !judge(step.r).Again?
    ensures After(done, WaitFrom(fetch, judge, fail, at + |done|, k)) == Run(Settled(judge(step.r)), done + step.events)
  {
    WaitStop(fetch, judge, fail, at + |done|, k, step);
  }

  /** Position n of the trace: a handle that lets a proof name one request of a wait. */
  predicate At(n: nat) {
    true
  }

  /** fetch(n) is the get_retry of path whose first request is the event at position n. */
  ghost predicate Fetches(fetch: nat -> Run<Json>, replies: nat -> Attempt, path: string, loader: Loader, exc: CheckboxKind) {
    forall n: nat {:trigger At(n)} :: At(n) ==> fetch(n) == Retry(replies, n, path, loader, exc)
  }

  /** A get_retry's events and a pause, appended to a trace step by step. */
  lemma Paused(trace: seq<Event>, done: seq<Event>, events: seq<Event>)
    ensures trace + done + events + [Pause] == trace + (done + (events + [Pause]))
  {
  }

  /** Events appended after a run's events are appended to the run. */
  lemma Chained<T>(done: seq<Event>, more: seq<Event>, rest: Run<T>)
    ensures After(done, After(more, rest)) == After(done + more, rest)
  {
    Appended(done, more, rest.events);
  }

  /** The events end with the get_retry's events. */
  predicate EndsIn(events: seq<Event>, last: seq<Event>) {
    |last| <= |events| && events[|events| - |last|..] == last
  }

  /** Events put before a sequence do not change how it ends. */
  lemma EndsInPrepend(done: seq<Event>, events: seq<Event>, last: seq<Event>)
    requires EndsIn(events, last)
    ensures EndsIn(done + events, last)
  {
    assert (done + events)[|done + events| - |last|..] == events[|events| - |last|..];
  }

  /**
   * A wait that returns a tax_url took it from a get_retry that found the
   * receipt signed, and that get_retry's events end the wait.
   */
  lemma {:induction false} WaitFound(fetch: nat -> Run<Json>, judge: Result<Json> -> Look, fail: Error, at: nat, k: nat)
    requires k <= 10
    ensures var run := WaitFrom(fetch, judge, fail, at, k);
            run.r.Ok? ==> exists p: nat | at <= p :: judge(fetch(p).r) == Found(run.r.value) && EndsIn(run.events, fetch(p).events)
    decreases 10 - k
  {
    var run := WaitFrom(fetch, judge, fail, at, k);
    if k < 10 && run.r.Ok? {
      var got := fetch(at);
      if judge(got.r).Again? {
        var next := at + |got.events| + 1;
        var rest := WaitFrom(fetch, judge, fail, next, k + 1);
        WaitStep(fetch, judge, fail, at, k, got);
        WaitFound(fetch, judge, fail, next, k + 1);
        var p: nat :| next <= p && judge(fetch(p).r) == Found(rest.r.value) && EndsIn(rest.events, fetch(p).events);
        EndsInPrepend(got.events + [Pause], rest.events, fetch(p).events);
        assert at <= p && judge(fetch(p).r) == Found(run.r.value) && EndsIn(run.events, fetch(p).events);
      } else {
        WaitStop(fetch, judge, fail, at, k, got);
        assert got.events[|got.events| - |got.events|..] == got.events;
        assert judge(fetch(at).r) == Found(run.r.value) && EndsIn(run.events, fetch(at).events);
      }
    }
  }

  /**
   * When no receipt is ever signed the wait raises its failure, "Не вдалось
   * підписати чек", after a request and a pause for each remaining iteration.
   */
  lemma {:induction false} WaitGivesUp(fetch: nat -> Run<Json>, judge: Result<Json> -> Look, fail: Error, at: nat, k: nat)
    requires k <= 10
    requires forall n :: judge(fetch(n).r).Again? && fetch(n).events != []
    ensures var run := WaitFrom(fetch, judge, fail, at, k);
            run.r == Err(fail) && |run.events| >= 2 * (10 - k)
            && (k < 10 ==> run.events[|run.events| - 1] == Pause)
    decreases 10 - k
  {
    if k < 10 {
      var got := fetch(at);
      var next := at + |got.events| + 1;
      WaitStep(fetch, judge, fail, at, k, got);
      WaitGivesUp(fetch, judge, fail, next, k + 1);
      var rest := WaitFrom(fetch, judge, fail, next, k + 1);
      assert WaitFrom(fetch, judge, fail, at, k) == Run(rest.r, got.events + [Pause] + rest.events);
    }
  }

  /** Iterations k to 9 of fetches of at most twelve events take at most thirteen events each. */
  lemma {:induction false} WaitFromBounded(fetch: nat -> Run<Json>, judge: Result<Json> -> Look, fail: Error, at: nat, k: nat)
    requires k <= 10
    requires forall n :: |fetch(n).events| <= 12
    ensures |WaitFrom(fetch, judge, fail, at, k).events| <= 13 * (10 - k)
    decreases 10 - k
  {
    if k < 10 {
      var got := fetch(at);
      if judge(got.r).Again? {
        WaitStep(fetch, judge, fail, at, k, got);
        WaitFromBounded(fetch, judge, fail, at + |got.events| + 1, k + 1);
      } else {
        WaitStop(fetch, judge, fail, at, k, got);
      }
    }
  }

  /** A wait takes at most 130 events: ten get_retry calls of at most twelve, and ten pauses. */
  lemma WaitBounded(replies: nat -> Attempt, at: nat, id: Json)
    ensures |WaitRun(replies, at, id).events| <= 130
  {
    var fetch := Fetching(replies, ReceiptPath(id), LoadJson, ReceiptError);
    forall n ensures |fetch(n).events| <= 12 {
      RetryBounded(replies, n, ReceiptPath(id), LoadJson, ReceiptError);
    }
    WaitFromBounded(fetch, Signed, ReceiptUnsigned, at, 0);
  }

  /** One get_retry: what fetch says of the request at the end of the trace. */
  method Fetched(s: Session, path: string, loader: Loader, exc: CheckboxKind, ghost fetch: nat -> Run<Json>)
    returns (got: Result<Json>)
    requires Fetches(fetch, s.replies, path, loader, exc)
    modifies s
    ensures got == fetch(|old(s.trace)|).r && s.trace == old(s.trace) + fetch(|old(s.trace)|).events
  {
    assert At(|s.trace|);
    got := s.GetRetry(path, loader, exc);
  }

  /**
   * wait_receipt_sign's loop on path: up to ten get_retry calls, judge
   * reading each outcome, a pause after each that does not settle it, and
   * fail raised after the tenth.
   */
  method WaitFor(s: Session, path: string, judge: Result<Json> -> Look, fail: Error, ghost fetch: nat -> Run<Json>)
    returns (r: Result<Json>)
    requires Fetches(fetch, s.replies, path, LoadJson, ReceiptError)
    modifies s
    ensures var run := WaitFrom(fetch, judge, fail, |old(s.trace)|, 0);
            r == run.r && s.trace == old(s.trace) + run.events
  {
    ghost var at := |s.trace|;
    ghost var wait := WaitFrom(fetch, judge, fail, at, 0);
    ghost var done: seq<Event> := [];
    assert [] + wait.events == wait.events;
    var k := 0;
    while k < 10
      invariant k <= 10
      invariant s.trace == old(s.trace) + done
      invariant wait == After(done, WaitFrom(fetch, judge, fail, at + |done|, k))
    {
      ghost var step := fetch(at + |done|);
      var got := Fetched(s, path, LoadJson, ReceiptError, fetch);
      var look := judge(got);
      if !look.Again? {
        r := Settled(look);
        WaitSettles(fetch, judge, fail, at, done, k, step);
        Appended(old(s.trace), done, step.events);
        return;
      }
      s.Sleep();
      WaitGoesOn(fetch, judge, fail, at, done, k, step);
      Paused(old(s.trace), done, step.events);
      done := done + (step.events + [Pause]);
      k := k + 1;
    }
    r := Err(fail);
    assert WaitFrom(fetch, judge, fail, at + |done|, k) == Run(r, []);
    assert done + [] == done;
  }

  /** wait_receipt_sign: the receipt's tax_url once it is DONE or SIGNED, at most ten tries. */
  method WaitReceiptSign(s: Session, id: Json) returns (r: Result<Json>)
    modifies s
    ensures var run := WaitRun(s.replies, |old(s.trace)|, id);
            r == run.r && s.trace == old(s.trace) + run.events
  {
    r := WaitFor(s, ReceiptPath(id), Signed, ReceiptUnsigned, Fetching(s.replies, ReceiptPath(id), LoadJson, ReceiptError));
  }

  // ---------------------------------------------------------------- search

  /** get_retry's `fiscal_code` parameter, carried in the request's path as its query. */
  function SearchQuery(code: string): string {
    SearchPath + "?fiscal_code=" + code
  }

  /**
   * `results = found["results"]; if results: return results[0]["id"]`: the
   * first hit's id, None when there is no hit. A dict of results fails
   * with KeyError at `[0]`, any other truthy value with TypeError.
   */
  function FirstId(found: Result<Json>): (r: Result<Option<Json>>)
    ensures found.Err? ==> r == Err(found.error)
  {
    if found.Err? then Err(found.error)
    else match Subscript(found.value, "results")
      case Err(e) => Err(e)
      case Ok(results) =>
        if !Truthy(results) then Ok(None)
        else if results.JArr? then
          match Subscript(results.items[0], "id")
          case Err(e) => Err(e)
          case Ok(id) => Ok(Some(id))
        else if results.JObj? then Err(KeyError)
        else Err(TypeError)
  }

  /**
   * A search returns an id exactly when the body's `results` is a non-empty
   * list whose first hit has an `id`, and returns None exactly when
   * `results` is falsy.
   */
  lemma FirstIdCases(found: Result<Json>)
    ensures forall id :: FirstId(found) == Ok(Some(id)) <==>
              found.Ok? && Subscript(found.value, "results").Ok?
              && var results := Subscript(found.value, "results").value;
                 results.JArr? && results.items != [] && Subscript(results.items[0], "id") == Ok(id)
    ensures FirstId(found) == Ok(None) <==>
              found.Ok? && Subscript(found.value, "results").Ok? && !Truthy(Subscript(found.value, "results").value)
  {
  }

  /** search_receipt whose first request is the event at position at. */
  function SearchRun(replies: nat -> Attempt, at: nat, code: string): Run<Option<Json>> {
    var got := Retry(replies, at, SearchQuery(code), LoadJson, ApiError);
    Run(FirstId(got.r), got.events)
  }

  /**
   * A search sends only the search request (and pauses), at most six
   * times, and an id it returns comes from an ok JSON response to its
   * last request.
   */
  lemma SearchOnlySearches(replies: nat -> Attempt, at: nat, code: string)
    ensures var run := SearchRun(replies, at, code);
            Only(run.events, SearchQuery(code)) && 0 < |run.events| <= 12
            && (run.r.Ok? && run.r.value.Some? ==> EndsWithOk(replies, at, LoadJson, SearchQuery(code), Retry(replies, at, SearchQuery(code), LoadJson, ApiError)))
  {
    var got := Retry(replies, at, SearchQuery(code), LoadJson, ApiError);
    RetryBounded(replies, at, SearchQuery(code), LoadJson, ApiError);
    AlternatesOnly(got.events, SearchQuery(code));
    RetryOk(replies, at, SearchQuery(code), LoadJson, ApiError);
  }

  /** search_receipt: the id of the receipt with this fiscal code, if any. */
  method SearchReceipt(s: Session, code: string) returns (r: Result<Option<Json>>)
    modifies s
    ensures var run := SearchRun(s.replies, |old(s.trace)|, code);
            r == run.r && s.trace == old(s.trace) + run.events
  {
    var found := s.GetRetry(SearchQuery(code), LoadJson, ApiError);
    r := FirstId(found);
  }

  // ----------------------------------------------------------------- extra

  function PngPath(id: Json): string {
    ReceiptPath(id) + "/png"
  }

  function QrPath(id: Json): string {
    ReceiptPath(id) + "/qrcode"
  }

  /**
   * The text's path; get_receipt_params adds the configured print width
   * (`Config().get("print", "width")`, JNull when unset) as the `width`
   * query parameter when it is truthy.
   */
  function TextPath(id: Json, width: Json): string {
    ReceiptPath(id) + "/text" + (if Truthy(width) then "?width=" + PyStr(width) else "")
  }

  /** A receipt's image (its PNG or its QR code) and, with the QR code, its text. */
  datatype Extra = Extra(image: Json, text: Option<Json>)

  /**
   * get_receipt_extra over its get_retry calls, each a function of where
   * its first request falls: the PNG alone, or the QR code and then the
   * text.
   */
  function ExtraFrom(png: nat -> Run<Json>, qr: nat -> Run<Json>, text: nat -> Run<Json>, at: nat, asImage: bool): Run<Extra> {
    if asImage then
      var image := png(at);
      Run(if image.r.Err? then Err(image.r.error) else Ok(Extra(image.r.value, None)), image.events)
    else
      var code := qr(at);
      if code.r.Err? then Run(Err(code.r.error), code.events)
      else
        var words := text(at + |code.events|);
        Run(if words.r.Err? then Err(words.r.error) else Ok(Extra(code.r.value, Some(words.r.value))), code.events + words.events)
  }

  /**
   * get_receipt_extra whose first request is the event at position at;
   * asImage is the truthiness of `Config().get("receipt_as_image")`.
   */
  function ExtraRun(replies: nat -> Attempt, at: nat, id: Json, asImage: bool, width: Json): Run<Extra> {
    ExtraFrom(Fetching(replies, PngPath(id), LoadRaw, ReceiptError), Fetching(replies, QrPath(id), LoadRaw, ReceiptError),
              Fetching(replies, TextPath(id, width), LoadRaw, ReceiptError), at, asImage)
  }

  /** The order of get_receipt_extra's requests, for get_retry calls that each request one path. */
  lemma ExtraFromFetches(png: nat -> Run<Json>, qr: nat -> Run<Json>, text: nat -> Run<Json>, at: nat, asImage: bool,
                         pngPath: string, qrPath: string, textPath: string)
    requires forall n: nat :: Only(png(n).events, pngPath) && Only(qr(n).events, qrPath) && Only(text(n).events, textPath)
    ensures var run := ExtraFrom(png, qr, text, at, asImage);
            (asImage ==> Only(run.events, pngPath) && (run.r.Ok? ==> run.r.value.text.None?))
            && (!asImage ==>
                  var code := qr(at);
                  Only(code.events, qrPath)
                  && (code.r.Err? ==> run.events == code.events)
                  && (code.r.Ok? ==>
                        var words := text(at + |code.events|);
                        run.events == code.events + words.events && Only(words.events, textPath)
                        && (run.r.Ok? ==> run.r.value == Extra(code.r.value, Some(words.r.value)))))
  {
  }

  /** Every get_retry call of path requests path only, and pauses. */
  lemma FetchingOnly(replies: nat -> Attempt, path: string, loader: Loader, exc: CheckboxKind)
    ensures forall n: nat :: Only(Fetching(replies, path, loader, exc)(n).events, path)
  {
    forall n: nat ensures Only(Fetching(replies, path, loader, exc)(n).events, path) {
      RetryBounded(replies, n, path, loader, exc);
      AlternatesOnly(Retry(replies, n, path, loader, exc).events, path);
    }
  }

  /**
   * With receipt_as_image only the PNG is fetched and no text is returned;
   * otherwise the QR code is fetched first, the text only after the QR
   * code was read, and both are returned.
   */
  lemma ExtraFetches(replies: nat -> Attempt, at: nat, id: Json, asImage: bool, width: Json)
    ensures var run := ExtraRun(replies, at, id, asImage, width);
            var qr := Fetching(replies, QrPath(id), LoadRaw, ReceiptError);
            var text := Fetching(replies, TextPath(id, width), LoadRaw, ReceiptError);
            (asImage ==> Only(run.events, PngPath(id)) && (run.r.Ok? ==> run.r.value.text.None?))
            && (!asImage ==>
                  var code := qr(at);
                  Only(code.events, QrPath(id))
                  && (code.r.Err? ==> run.events == code.events)
                  && (code.r.Ok? ==>
                        var words := text(at + |code.events|);
                        run.events == code.events + words.events && Only(words.events, TextPath(id, width))
                        && (run.r.Ok? ==> run.r.value == Extra(code.r.value, Some(words.r.value)))))
  {
    FetchingOnly(replies, PngPath(id), LoadRaw, ReceiptError);
    FetchingOnly(replies, QrPath(id), LoadRaw, ReceiptError);
    FetchingOnly(replies, TextPath(id, width), LoadRaw, ReceiptError);
    ExtraFromFetches(Fetching(replies, PngPath(id), LoadRaw, ReceiptError), Fetching(replies, QrPath(id), LoadRaw, ReceiptError),
                     Fetching(replies, TextPath(id, width), LoadRaw, ReceiptError), at, asImage, PngPath(id), QrPath(id), TextPath(id, width));
  }

  /** get_receipt_extra on the given paths. */
  method ExtraFor(s: Session, asImage: bool, pngPath: string, qrPath: string, textPath: string,
                  ghost png: nat -> Run<Json>, ghost qr: nat -> Run<Json>, ghost text: nat -> Run<Json>)
    returns (r: Result<Extra>)
    requires Fetches(png, s.replies, pngPath, LoadRaw, ReceiptError)
    requires Fetches(qr, s.replies, qrPath, LoadRaw, ReceiptError)
    requires Fetches(text, s.replies, textPath, LoadRaw, ReceiptError)
    modifies s
    ensures var run := ExtraFrom(png, qr, text, |old(s.trace)|, asImage);
            r == run.r && s.trace == old(s.trace) + run.events
  {
    if asImage {
      var image := Fetched(s, pngPath, LoadRaw, ReceiptError, png);
      r := if image.Err? then Err(image.error) else Ok(Extra(image.value, None));
      return;
    }
    var code := Fetched(s, qrPath, LoadRaw, ReceiptError, qr);
    if code.Err? {
      return Err(code.error);
    }
    ghost var mid := |s.trace|;
    var words := Fetched(s, textPath, LoadRaw, ReceiptError, text);
    r := if words.Err? then Err(words.error) else Ok(Extra(code.value, Some(words.value)));
    Appended(old(s.trace), qr(|old(s.trace)|).events, text(mid).events);
  }

  /** get_receipt_extra: the receipt's image and, unless the image is the full PNG, its text. */
  method GetReceiptExtra(s: Session, id: Json, asImage: bool, width: Json) returns (r: Result<Extra>)
    modifies s
    ensures var run := ExtraRun(s.replies, |old(s.trace)|, id, asImage, width);
            r == run.r && s.trace == old(s.trace) + run.events
  {
    r := ExtraFor(s, asImage, PngPath(id), QrPath(id), TextPath(id, width),
                  Fetching(s.replies, PngPath(id), LoadRaw, ReceiptError), Fetching(s.replies, QrPath(id), LoadRaw, ReceiptError),
                  Fetching(s.replies, TextPath(id, width), LoadRaw, ReceiptError));
  }

  // ------------------------------------------------------------------ data

  /** What get_receipt_data returns: the image, the receipt's JSON body and the text. */
  datatype Data = Data(image: Json, receipt: Json, text: Option<Json>)

  function WithReceipt(extra: Result<Extra>, receipt: Json): Result<Data> {
    if extra.Err? then Err(extra.error) else Ok(Data(extra.value.image, receipt, extra.value.text))
  }

  /** get_receipt_data over its get_retry calls: the receipt, then get_receipt_extra's. */
  function DataFrom(fetch: nat -> Run<Json>, png: nat -> Run<Json>, qr: nat -> Run<Json>, text: nat -> Run<Json>,
                    at: nat, asImage: bool): Run<Data> {
    var got := fetch(at);
    if got.r.Err? then Run(Err(got.r.error), got.events)
    else
      var extra := ExtraFrom(png, qr, text, at + |got.events|, asImage);
      Run(WithReceipt(extra.r, got.r.value), got.events + extra.events)
  }

  /** get_receipt_data whose first request is the event at position at. */
  function DataRun(replies: nat -> Attempt, at: nat, id: Json, asImage: bool, width: Json): Run<Data> {
    DataFrom(Fetching(replies, ReceiptPath(id), LoadJson, ReceiptError),
             Fetching(replies, PngPath(id), LoadRaw, ReceiptError), Fetching(replies, QrPath(id), LoadRaw, ReceiptError),
             Fetching(replies, TextPath(id, width), LoadRaw, ReceiptError), at, asImage)
  }

  /**
   * The receipt data holds the receipt's own JSON body, read first, and
   * the image and text get_receipt_extra fetched after it.
   */
  lemma DataHoldsReceipt(replies: nat -> Attempt, at: nat, id: Json, asImage: bool, width: Json)
    ensures var run := DataRun(replies, at, id, asImage, width);
            var got := Fetching(replies, ReceiptPath(id), LoadJson, ReceiptError)(at);
            run.r.Ok? ==>
              got.r.Ok? && run.r.value.receipt == got.r.value
              && var extra := ExtraRun(replies, at + |got.events|, id, asImage, width);
                 extra.r == Ok(Extra(run.r.value.image, run.r.value.text)) && run.events == got.events + extra.events
  {
  }

  /** get_receipt_data on the given paths. */
  method DataFor(s: Session, asImage: bool, receiptPath: string, pngPath: string, qrPath: string, textPath: string,
                 ghost fetch: nat -> Run<Json>, ghost png: nat -> Run<Json>, ghost qr: nat -> Run<Json>, ghost text: nat -> Run<Json>)
    returns (r: Result<Data>)
    requires Fetches(fetch, s.replies, receiptPath, LoadJson, ReceiptError)
    requires Fetches(png, s.replies, pngPath, LoadRaw, ReceiptError)
    requires Fetches(qr, s.replies, qrPath, LoadRaw, ReceiptError)
    requires Fetches(text, s.replies, textPath, LoadRaw, ReceiptError)
    modifies s
    ensures var run := DataFrom(fetch, png, qr, text, |old(s.trace)|, asImage);
            r == run.r && s.trace == old(s.trace) + run.events
  {
    var got := Fetched(s, receiptPath, LoadJson, ReceiptError, fetch);
    if got.Err? {
      return Err(got.error);
    }
    ghost var mid := |s.trace|;
    var extra := ExtraFor(s, asImage, pngPath, qrPath, textPath, png, qr, text);
    r := WithReceipt(extra, got.value);
    Appended(old(s.trace), fetch(|old(s.trace)|).events, ExtraFrom(png, qr, text, mid, asImage).events);
  }

  /** get_receipt_data: the receipt, then its image and text. */
  method GetReceiptData(s: Session, id: Json, asImage: bool, width: Json) returns (r: Result<Data>)
    modifies s
    ensures var run := DataRun(s.replies, |old(s.trace)|, id, asImage, width);
            r == run.r && s.trace == old(s.trace) + run.events
  {
    r := DataFor(s, asImage, ReceiptPath(id), PngPath(id), QrPath(id), TextPath(id, width),
                 Fetching(s.replies, ReceiptPath(id), LoadJson, ReceiptError),
                 Fetching(s.replies, PngPath(id), LoadRaw, ReceiptError), Fetching(s.replies, QrPath(id), LoadRaw, ReceiptError),
                 Fetching(s.replies, TextPath(id, width), LoadRaw, ReceiptError));
  }

  // ------------------------------------------------------------------ sell

  /**
   * `any(good["quantity"] <= 0 for good in goods)` from the i-th dict on:
   * the generator stops at the first quantity that is not positive, and a
   * dict without a quantity met before it raises KeyError.
   */
  function QuantityGuard(goods: seq<Good>, i: nat): (stop: Option<Error>)
    requires i <= |goods|
    reads goods
    decreases |goods| - i
  {
    if i == |goods| then None
    else if goods[i].quantity.None? then Some(KeyError)
    else if goods[i].quantity.value <= 0 then Some(BadQuantity)
    else QuantityGuard(goods, i + 1)
  }

  /** sell's two checks on the goods: a price that is not positive first, then the quantities. */
  function Guard(goods: seq<Good>): (stop: Option<Error>)
    reads goods
  {
    if exists i | 0 <= i < |goods| :: goods[i].price <= 0 then Some(BadPrice)
    else QuantityGuard(goods, 0)
  }

  /** The quantity check from the i-th dict on, by what the dicts hold. */
  lemma {:induction false} QuantityGuardCases(goods: seq<Good>, i: nat)
    requires i <= |goods|
    ensures var stop := QuantityGuard(goods, i);
            (stop.None? <==> forall j | i <= j < |goods| :: goods[j].quantity.Some? && goods[j].quantity.value > 0)
            && (stop == Some(KeyError) <==>
                  exists j | i <= j < |goods| :: goods[j].quantity.None?
                    && forall m | i <= m < j :: goods[m].quantity.Some? && goods[m].quantity.value > 0)
            && (stop.None? || stop == Some(KeyError) || stop == Some(BadQuantity))
    decreases |goods| - i
  {
    if i < |goods| {
      QuantityGuardCases(goods, i + 1);
      if goods[i].quantity.Some? && goods[i].quantity.value > 0 {
        var stop := QuantityGuard(goods, i + 1);
        if stop == Some(KeyError) {
          var j :| i + 1 <= j < |goods| && goods[j].quantity.None?
                   && forall m | i + 1 <= m < j :: goods[m].quantity.Some? && goods[m].quantity.value > 0;
          assert forall m | i <= m < j :: goods[m].quantity.Some? && goods[m].quantity.value > 0;
        }
      }
    }
  }

  /**
   * The goods pass sell's checks exactly when every price and every
   * quantity is positive; a price that is not positive is reported first,
   * and KeyError only for a dict without a quantity before any quantity
   * that is not positive. Goods that pass all have their quantity.
   */
  lemma GuardCases(goods: seq<Good>)
    ensures Guard(goods).None? <==>
              forall i | 0 <= i < |goods| :: goods[i].price > 0 && goods[i].quantity.Some? && goods[i].quantity.value > 0
    ensures Guard(goods) == Some(BadPrice) <==> exists i | 0 <= i < |goods| :: goods[i].price <= 0
    ensures Guard(goods) == Some(KeyError) <==>
              (forall i | 0 <= i < |goods| :: goods[i].price > 0)
              && exists j | 0 <= j < |goods| :: goods[j].quantity.None?
                   && forall m | 0 <= m < j :: goods[m].quantity.Some? && goods[m].quantity.value > 0
    ensures Guard(goods).None? ==> Counted(goods) && Total(goods).Ok?
  {
    QuantityGuardCases(goods, 0);
  }

  /** `if not await current_shift(): await open_shift()`, whose first request is the event at position at. */
  function ShiftReadyRun(replies: nat -> Attempt, at: nat): Run<Json> {
    var current := Checked(replies(at));
    if current.Err? || Truthy(current.value) then Run(current, [HttpGet(ShiftPath)])
    else After([HttpGet(ShiftPath)], OpenShiftRun(replies, at + 1))
  }

  /** sell past its checks: a shift opened if none is, then create_receipt; the current-shift request is the event at position at. */
  function OpenAndCreateRun(replies: nat -> Attempt, at: nat, body: Result<Body>): Run<Json> {
    var shift := ShiftReadyRun(replies, at);
    if shift.r.Err? then Run(Err(shift.r.error), shift.events)
    else After(shift.events, CreateRun(replies, at + |shift.events|, body))
  }

  /** sell (under require_sign) whose first signature-check request is the event at position at. */
  function SellRun(replies: nat -> Attempt, at: nat, guard: Option<Error>, body: Result<Body>): Run<Json> {
    var sign := SignRun(replies, at);
    var stop := SignGate(sign.r);
    if stop.Some? then Run(Err(stop.value), sign.events)
    else if guard.Some? then Run(Err(guard.value), sign.events)
    else After(sign.events, OpenAndCreateRun(replies, at + |sign.events|, body))
  }

  /** Whether a sale gets as far as create_receipt. */
  predicate SellCreates(replies: nat -> Attempt, at: nat, guard: Option<Error>) {
    var sign := SignRun(replies, at);
    SignGate(sign.r).None? && guard.None? && ShiftReadyRun(replies, at + |sign.events|).r.Ok?
  }

  /** Making sure a shift is open sends no sale. */
  lemma ShiftReadySellsNothing(replies: nat -> Attempt, at: nat, b: Body)
    ensures HttpPost(SellPath, false, b) !in ShiftReadyRun(replies, at).events
  {
    var current := Checked(replies(at));
    if current.Ok? && !Truthy(current.value) {
      var id := IdOf(Rebrand(Checked(replies(at + 1)), OpenFailed));
      if id.Ok? {
        var poll := Poll(replies, at + 2, ShiftPath, Opened, 10, OpenUnsigned);
        PollBounded(replies, at + 2, ShiftPath, Opened, 10, OpenUnsigned);
        AlternatesOnly(poll.events, ShiftPath);
        assert ShiftReadyRun(replies, at).events == [HttpGet(ShiftPath), HttpPost(OpenPath, true, Empty)] + poll.events;
      }
    }
  }

  /** The signature check sends no sale and opens no shift. */
  lemma SignSellsNothing(replies: nat -> Attempt, at: nat, b: Body)
    ensures var sign := SignRun(replies, at).events;
            HttpPost(SellPath, false, b) !in sign && HttpPost(OpenPath, true, Empty) !in sign
  {
    var sign := SignRun(replies, at);
    RetryBounded(replies, at, SignPath, LoadJson, SignError);
    AlternatesOnly(sign.events, SignPath);
  }

  /**
   * A sale is posted only after the signature check passed, the goods
   * passed their checks and a shift is open, and it is the receipt built
   * from the goods.
   */
  lemma SellPostsOnlyValid(replies: nat -> Attempt, at: nat, guard: Option<Error>, body: Result<Body>, b: Body)
    ensures HttpPost(SellPath, false, b) in SellRun(replies, at, guard, body).events ==>
              SellCreates(replies, at, guard) && body == Ok(b)
  {
    var sign := SignRun(replies, at);
    SignSellsNothing(replies, at, b);
    if SignGate(sign.r).None? && guard.None? {
      var shift := ShiftReadyRun(replies, at + |sign.events|);
      ShiftReadySellsNothing(replies, at + |sign.events|, b);
      assert HttpPost(SellPath, false, b) !in sign.events + shift.events;
    }
  }

  /** The id sell returns is the id in the response to the sale, its last request. */
  lemma SellReturnsId(replies: nat -> Attempt, at: nat, guard: Option<Error>, body: Result<Body>)
    ensures var run := SellRun(replies, at, guard, body);
            run.r.Ok? ==>
              SellCreates(replies, at, guard) && body.Ok? && |run.events| > 0
              && run.events[|run.events| - 1] == HttpPost(SellPath, false, body.value)
              && run.r == IdOf(PostResult(replies(at + |run.events| - 1), ReceiptError))
  {
  }

  /**
   * sell opens a shift exactly when the signature check and the goods
   * passed and the current shift read as falsy (null: none is open).
   */
  lemma SellOpensWhenClosed(replies: nat -> Attempt, at: nat, guard: Option<Error>, body: Result<Body>)
    ensures var sign := SignRun(replies, at);
            var current := Checked(replies(at + |sign.events|));
            HttpPost(OpenPath, true, Empty) in SellRun(replies, at, guard, body).events <==>
              SignGate(sign.r).None? && guard.None? && current.Ok? && !Truthy(current.value)
  {
    var sign := SignRun(replies, at);
    var mid := at + |sign.events|;
    SignSellsNothing(replies, at, Empty);
    SellSteps(replies, at, guard, body, mid);
    if SignGate(sign.r).None? && guard.None? {
      OpenAndCreateOpens(replies, mid, body);
    }
  }

  /** Past its checks, sell opens a shift exactly when the current shift reads as falsy. */
  lemma OpenAndCreateOpens(replies: nat -> Attempt, at: nat, body: Result<Body>)
    ensures var current := Checked(replies(at));
            HttpPost(OpenPath, true, Empty) in OpenAndCreateRun(replies, at, body).events <==> current.Ok? && !Truthy(current.value)
  {
    var open := HttpPost(OpenPath, true, Empty);
    var shift := ShiftReadyRun(replies, at);
    var current := Checked(replies(at));
    if current.Ok? && !Truthy(current.value) {
      assert shift.events[1] == open;
    } else {
      assert shift.events == [HttpGet(ShiftPath)];
    }
  }

  /** sell in its steps, the current-shift request being the event at position mid. */
  lemma SellSteps(replies: nat -> Attempt, at: nat, guard: Option<Error>, body: Result<Body>, mid: nat)
    requires mid == at + |SignRun(replies, at).events|
    ensures var sign := SignRun(replies, at);
            var run := SellRun(replies, at, guard, body);
            (SellCreates(replies, at, guard) <==> SignGate(sign.r).None? && guard.None? && ShiftReadyRun(replies, mid).r.Ok?)
            && (SignGate(sign.r).Some? ==> run == Run(Err(SignGate(sign.r).value), sign.events))
            && (SignGate(sign.r).None? && guard.Some? ==> run == Run(Err(guard.value), sign.events))
            && (SignGate(sign.r).None? && guard.None? ==> run == After(sign.events, OpenAndCreateRun(replies, mid, body)))
  {
  }

  /** `if not await current_shift(): await open_shift()`. */
  method ShiftReady(s: Session) returns (r: Result<Json>)
    modifies s
    ensures var run := ShiftReadyRun(s.replies, |old(s.trace)|);
            r == run.r && s.trace == old(s.trace) + run.events
  {
    ghost var at := |s.trace|;
    r := CurrentShift(s);
    if r.Err? || Truthy(r.value) {
      return;
    }
    r := OpenShift(s);
    Appended(old(s.trace), [HttpGet(ShiftPath)], OpenShiftRun(s.replies, at + 1).events);
  }

  /** sell past its checks: a shift opened if none is, then create_receipt. */
  method OpenAndCreate(s: Session, goods: seq<Good>, cashless: bool) returns (r: Result<Json>)
    modifies s, goods
    ensures var run := OpenAndCreateRun(s.replies, |old(s.trace)|, old(ReceiptBody(goods, cashless)));
            r == run.r && s.trace == old(s.trace) + run.events
    ensures forall g | g in goods ::
              g.quantity == if ShiftReadyRun(s.replies, |old(s.trace)|).r.Ok? && g in goods[..old(Popped(goods))]
                            then None else old(g.quantity)
  {
    ghost var at := |s.trace|;
    ghost var body := ReceiptBody(goods, cashless);
    var shift := ShiftReady(s);
    ghost var ready := ShiftReadyRun(s.replies, at).events;
    if shift.Err? {
      return Err(shift.error);
    }
    ghost var last := |s.trace|;
    assert ReceiptBody(goods, cashless) == body;
    r := CreateReceipt(s, goods, cashless);
    Appended(old(s.trace), ready, CreateRun(s.replies, last, body).events);
  }

  /**
   * sell: the signature check, the checks on prices and quantities, a
   * shift opened if none is, then create_receipt; the goods lose their
   * quantities only when create_receipt is reached.
   */
  method Sell(s: Session, goods: seq<Good>, cashless: bool) returns (r: Result<Json>)
    modifies s, goods
    ensures var run := SellRun(s.replies, |old(s.trace)|, old(Guard(goods)), old(ReceiptBody(goods, cashless)));
            r == run.r && s.trace == old(s.trace) + run.events
    ensures forall g | g in goods ::
              g.quantity == if SellCreates(s.replies, |old(s.trace)|, old(Guard(goods))) && g in goods[..old(Popped(goods))]
                            then None else old(g.quantity)
  {
    ghost var at := |s.trace|;
    ghost var body := ReceiptBody(goods, cashless);
    // the checks on the goods read only the goods, which the signature check leaves alone
    var guard := Guard(goods);
    var stop := s.RequireSign();
    ghost var sign := SignRun(s.replies, at).events;
    ghost var mid := |s.trace|;
    SellSteps(s.replies, at, guard, body, mid);
    if stop.Some? {
      return Err(stop.value);
    }
    if guard.Some? {
      return Err(guard.value);
    }
    assert ReceiptBody(goods, cashless) == body;
    r := OpenAndCreate(s, goods, cashless);
    Appended(old(s.trace), sign, OpenAndCreateRun(s.replies, mid, body).events);
  }
}
