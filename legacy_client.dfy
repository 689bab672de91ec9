/**
 * The older single-file fiscal client (checkbox451_bot/checkbox_api.py):
 * a GET context manager that retries, raise_for_status, and the sale,
 * receipt and shift operations on top of them. Requests meet the same
 * reply oracle as the newer client; the paths and the error messages are
 * those of the older file.
 */
module LegacyClient {
  import opened Wrappers
  import opened Json
  import opened FiscalHttp
  import FiscalShift
  import FiscalReceipt

  const CreateFailed := Checkbox(ReceiptError, "Не вдалось створити чек")
  /** The older file spells this one "вдалося". */
  const ReceiptUnsigned := Checkbox(ReceiptError, "Не вдалося підписати чек")

  // ---------------------------------------------------------- raise_for_status

  /**
   * raise_for_status: an ok response is returned; for any other the body is
   * read for the log line inside a `try ... except Exception`, and then
   * aiohttp's ClientResponseError is raised whatever the body held.
   */
  function StatusChecked(resp: Response): (r: Result<Response>)
    ensures r.Ok? <==> IsOk(resp)
    ensures r.Ok? ==> r.value == resp
    ensures r.Err? ==> r.error == HttpStatus(resp.status)
  {
    if IsOk(resp) then Ok(resp) else Err(HttpStatus(resp.status))
  }

  /**
   * The older raise_for_status agrees with the newer one exactly when the
   * newer one does not trip over a JSON body without `message`: the older
   * one swallows that lookup's error.
   */
  lemma StatusCheckedAgrees(resp: Response)
    ensures StatusChecked(resp) == RaiseForStatus(resp) <==>
              IsOk(resp) || resp.json.None? || Subscript(resp.json.value, "message").Ok?
  {
  }

  /** A response through raise_for_status, then `response.json()`. */
  function Read(resp: Response): (r: Result<Json>)
    ensures r.Ok? <==> IsOk(resp) && resp.json.Some?
    ensures r.Ok? ==> r.value == resp.json.value
    ensures !IsOk(resp) ==> r == Err(HttpStatus(resp.status))
    ensures IsOk(resp) && resp.json.None? ==> r == Err(JsonDecode)
  {
    match StatusChecked(resp)
    case Err(e) => Err(e)
    case Ok(_) => if resp.json.None? then Err(JsonDecode) else Ok(resp.json.value)
  }

  /**
   * A post's reply read: the transport's exceptions escape; a refused
   * post raises failure when the caller catches ClientResponseError for
   * it, aiohttp's own error otherwise.
   */
  function Posted(a: Attempt, failure: Option<Error>): Result<Json> {
    match a
    case TimedOut => Err(Timeout)
    case Failed(e) => Err(e)
    case Late(_) => Err(Timeout)  // the JSON read of an ok body, or the text() fallback of a failed one, times out
    case Answered(resp) => if failure.Some? then FiscalShift.Rebrand(Read(resp), failure.value) else Read(resp)
  }

  /**
   * What a post raises: the transport's own exceptions, then for a refused
   * post the caller's failure or aiohttp's error; an accepted post is read
   * as any response is.
   */
  lemma PostedCases(a: Attempt, failure: Option<Error>)
    ensures var r := Posted(a, failure);
            (a.TimedOut? ==> r == Err(Timeout))
            && (a.Late? ==> r == Err(Timeout))
            && (a.Failed? ==> r == Err(a.error))
            && (a.Answered? && !IsOk(a.response) ==>
                  r == Err(if failure.Some? then failure.value else HttpStatus(a.response.status)))
            && (a.Answered? && IsOk(a.response) ==> r == Read(a.response))
  {
  }

  // -------------------------------------------------------------------- get

  /** Did the request meet a response, whether or not its body arrived in time. */
  predicate Arrived(a: Attempt) {
    a.Answered? || a.Late?
  }

  /** The exception a request that got no response raises. */
  function Thrown(a: Attempt): Error
    requires !Arrived(a)
  {
    if a.TimedOut? then Timeout else a.error
  }

  /**
   * The block run on the response a request met. Every block here reads
   * the body, raise_for_status's text() fallback included, so a body that
   * does not arrive within the attempt's timeout makes it raise the timeout.
   */
  function Blocked<T>(a: Attempt, block: Response -> Result<T>): (r: Result<T>)
    requires Arrived(a)
    ensures r.Ok? ==> a.Answered?
  {
    if a.Late? then Err(Timeout) else block(a.response)
  }

  /** k requests to path. */
  function Gets(path: string, k: nat): seq<Event> {
    seq(k, _ => HttpGet(path))
  }

  lemma GetsSnoc(path: string, k: nat)
    ensures Gets(path, k + 1) == Gets(path, k) + [HttpGet(path)]
  {
  }

  lemma GetsOnly(path: string, k: nat, e: Event)
    requires e in Gets(path, k)
    ensures e == HttpGet(path)
  {
  }

  /**
   * The `get` context manager around a block, AS WRITTEN, from attempt
   * `attempt` on. Each of six attempts sends the request; an exception
   * escaping the request is caught and the next attempt made. The block
   * runs on the first response. An exception escaping the block is thrown
   * into the generator at its `yield`, where the same `except Exception`
   * catches it and goes on retrying: the next response makes the generator
   * yield a second time, and contextlib raises RuntimeError. After the last
   * attempt `raise err` raises the last exception caught (the block's own,
   * when nothing failed after it). thrown records that the block raised.
   */
  function GetAsWrittenFrom<T>(replies: nat -> Attempt, at: nat, path: string, block: Response -> Result<T>,
                               attempt: nat, thrown: bool, err: Error): Run<T>
    decreases 6 - attempt
  {
    if attempt >= 6 then Run(Err(err), [])
    else
      var a := replies(at);
      if !Arrived(a) then After([HttpGet(path)], GetAsWrittenFrom(replies, at + 1, path, block, attempt + 1, thrown, Thrown(a)))
      else if thrown then Run(Err(Runtime), [HttpGet(path)])
      else match Blocked(a, block)
        case Ok(v) => Run(Ok(v), [HttpGet(path)])
        case Err(e) => After([HttpGet(path)], GetAsWrittenFrom(replies, at + 1, path, block, attempt + 1, true, e))
  }

  /**
   * `async with get(session, path) as response: block`, as written; err
   * starts as None, and `raise None` would be a TypeError, but six
   * attempts always set it first.
   */
  function GetAsWritten<T>(replies: nat -> Attempt, at: nat, path: string, block: Response -> Result<T>): Run<T> {
    GetAsWrittenFrom(replies, at, path, block, 0, false, TypeError)
  }

  /**
   * An exception from the block on the first response, followed by a
   * second response, is not what the block raised: the request is sent
   * again and RuntimeError escapes.
   */
  lemma BlockErrorBecomesRuntime<T>(replies: nat -> Attempt, at: nat, path: string, block: Response -> Result<T>)
    requires replies(at).Answered? && block(replies(at).response).Err?
    requires replies(at + 1).Answered?
    ensures GetAsWritten(replies, at, path, block) == Run(Err(Runtime), [HttpGet(path), HttpGet(path)])
  {
    var e := block(replies(at).response).error;
    assert GetAsWrittenFrom(replies, at + 1, path, block, 1, true, e) == Run(Err(Runtime), [HttpGet(path)]);
  }

  /**
   * The context manager as intended: exceptions of the request are
   * retried, up to six attempts; the block runs on the first response, and
   * what it returns or raises is the outcome.
   */
  function FetchFrom<T>(replies: nat -> Attempt, at: nat, path: string, block: Response -> Result<T>,
                        attempt: nat, err: Error): Run<T>
    decreases 6 - attempt, at  // `at` keeps calls with a literal attempt from being unrolled
  {
    if attempt >= 6 then Run(Err(err), [])
    else
      var a := replies(at);
      if Arrived(a) then Run(Blocked(a, block), [HttpGet(path)])
      else After([HttpGet(path)], FetchFrom(replies, at + 1, path, block, attempt + 1, Thrown(a)))
  }

  /** `async with get(session, path) as response: block`, as intended. */
  function Fetch<T>(replies: nat -> Attempt, at: nat, path: string, block: Response -> Result<T>): Run<T> {
    FetchFrom(replies, at, path, block, 0, TypeError)
  }

  /** An exception from the block, as intended, escapes as itself after the one request. */
  lemma BlockErrorEscapes<T>(replies: nat -> Attempt, at: nat, path: string, block: Response -> Result<T>)
    requires replies(at).Answered? && block(replies(at).response).Err?
    ensures Fetch(replies, at, path, block) == Run(block(replies(at).response), [HttpGet(path)])
  {
  }

  /** A block that never raises on the responses met cannot tell the two apart. */
  lemma {:induction false} FetchAgrees<T>(replies: nat -> Attempt, at: nat, path: string, block: Response -> Result<T>,
                                          attempt: nat, err: Error)
    requires forall n: nat :: Arrived(replies(n)) ==> Blocked(replies(n), block).Ok?
    ensures GetAsWrittenFrom(replies, at, path, block, attempt, false, err) == FetchFrom(replies, at, path, block, attempt, err)
    decreases 6 - attempt
  {
    if attempt < 6 && !Arrived(replies(at)) {
      FetchAgrees(replies, at + 1, path, block, attempt + 1, Thrown(replies(at)));
    }
  }

  /**
   * The first attempt that meets a response settles the get: the block's
   * outcome on it, after one request per attempt so far. Attempt n's
   * request is the event at position base + n.
   */
  lemma {:induction false} FetchFromSettles<T>(replies: nat -> Attempt, base: nat, path: string, block: Response -> Result<T>,
                                               k: nat, err: Error, i: nat)
    requires k <= i < 6
    requires forall n | base + k <= n < base + i :: !Arrived(replies(n))
    requires Arrived(replies(base + i))
    ensures FetchFrom(replies, base + k, path, block, k, err) == Run(Blocked(replies(base + i), block), Gets(path, i - k + 1))
    decreases i - k
  {
    if k < i {
      assert base + k + 1 == base + (k + 1);
      FetchFromSettles(replies, base, path, block, k + 1, Thrown(replies(base + k)), i);
      assert Gets(path, i - k + 1) == [HttpGet(path)] + Gets(path, i - (k + 1) + 1);
    }
  }

  /** Six requests without a response: the last one's exception escapes. */
  lemma {:induction false} FetchFromGivesUp<T>(replies: nat -> Attempt, base: nat, path: string, block: Response -> Result<T>,
                                               k: nat, err: Error)
    requires k <= 6
    requires forall n | base + k <= n < base + 6 :: !Arrived(replies(n))
    ensures FetchFrom(replies, base + k, path, block, k, err) == Run(Err(if k < 6 then Thrown(replies(base + 5)) else err), Gets(path, 6 - k))
    decreases 6 - k
  {
    if k < 6 {
      assert base + k + 1 == base + (k + 1);
      FetchFromGivesUp(replies, base, path, block, k + 1, Thrown(replies(base + k)));
      assert Gets(path, 6 - k) == [HttpGet(path)] + Gets(path, 6 - (k + 1));
    }
  }

  /** A get sends one to six requests to path and nothing else. */
  lemma {:induction false} FetchFromShape<T>(replies: nat -> Attempt, at: nat, path: string, block: Response -> Result<T>,
                                             attempt: nat, err: Error)
    requires attempt < 6
    ensures var run := FetchFrom(replies, at, path, block, attempt, err);
            1 <= |run.events| <= 6 - attempt && run.events == Gets(path, |run.events|)
    decreases 6 - attempt
  {
    var a := replies(at);
    if !Arrived(a) && attempt < 5 {
      FetchFromShape(replies, at + 1, path, block, attempt + 1, Thrown(a));
      var rest := FetchFrom(replies, at + 1, path, block, attempt + 1, Thrown(a));
      assert [HttpGet(path)] + Gets(path, |rest.events|) == Gets(path, |rest.events| + 1);
    }
  }

  lemma FetchShape<T>(replies: nat -> Attempt, at: nat, path: string, block: Response -> Result<T>)
    ensures var run := Fetch(replies, at, path, block);
            1 <= |run.events| <= 6 && run.events == Gets(path, |run.events|)
  {
    FetchFromShape(replies, at, path, block, 0, TypeError);
  }

  /** What a get returns its block returned on a response at or after its first request. */
  lemma {:induction false} FetchFromAnswered<T>(replies: nat -> Attempt, at: nat, path: string, block: Response -> Result<T>,
                                                attempt: nat, err: Error)
    ensures var run := FetchFrom(replies, at, path, block, attempt, err);
            run.r.Ok? ==> exists q: nat | at <= q :: replies(q).Answered? && block(replies(q).response) == run.r
    decreases 6 - attempt
  {
    var a := replies(at);
    if attempt < 6 && !Arrived(a) {
      FetchFromAnswered(replies, at + 1, path, block, attempt + 1, Thrown(a));
    }
  }

  /** The get as intended: up to six requests, the block run on the first response. */
  method GetWith<T>(s: Session, path: string, block: Response -> Result<T>) returns (r: Result<T>)
    modifies s
    ensures var run := Fetch(s.replies, |old(s.trace)|, path, block);
            r == run.r && s.trace == old(s.trace) + run.events
  {
    ghost var at := |s.trace|;
    var err := TypeError;  // err = None
    var attempt := 0;
    while attempt < 6
      invariant attempt <= 6
      invariant s.trace == old(s.trace) + Gets(path, attempt)
      invariant forall n | at <= n < at + attempt :: !Arrived(s.replies(n))
      invariant 0 < attempt ==> err == Thrown(s.replies(at + attempt - 1))
    {
      var a := s.Request(HttpGet(path));
      GetsSnoc(path, attempt);
      if Arrived(a) {
        r := Blocked(a, block);
        FetchFromSettles(s.replies, at, path, block, 0, TypeError, attempt);
        return;
      }
      err := Thrown(a);
      attempt := attempt + 1;
    }
    r := Err(err);
    FetchFromGivesUp(s.replies, at, path, block, 0, TypeError);
  }

  /** get(path) as a function of where its first request falls. */
  function Fetcher<T>(replies: nat -> Attempt, path: string, block: Response -> Result<T>): nat -> Run<T> {
    (n: nat) => Fetch(replies, n, path, block)
  }

  /** fetch(n) is the get of path whose first request is the event at position n. */
  ghost predicate Feeds<T>(fetch: nat -> Run<T>, replies: nat -> Attempt, path: string, block: Response -> Result<T>) {
    forall n: nat {:trigger FiscalReceipt.At(n)} :: FiscalReceipt.At(n) ==> fetch(n) == Fetch(replies, n, path, block)
  }

  /** One get: what fetch says of the request at the end of the trace. */
  method Fetched<T>(s: Session, path: string, block: Response -> Result<T>, ghost fetch: nat -> Run<T>) returns (got: Result<T>)
    requires Feeds(fetch, s.replies, path, block)
    modifies s
    ensures got == fetch(|old(s.trace)|).r && s.trace == old(s.trace) + fetch(|old(s.trace)|).events
  {
    assert FiscalReceipt.At(|s.trace|);
    got := GetWith(s, path, block);
  }

  // ------------------------------------------------------------------- polls

  /**
   * What one poll's block saw: a body that is not JSON (passed over), a
   * JSON body that does not settle the poll, or the value the block
   * returns.
   */
  datatype Sight = Unread | Seen | Got(value: Json)

  /**
   * Iterations k to 9 of a poll, the first request being the event at
   * position at: a get, and a one-second pause after each that does not
   * settle it. After the tenth the poll logs the last body it read and
   * raises fail; bound says whether a body was ever read into the logged
   * variable, and when none was the log line's read of it raises
   * UnboundLocalError first.
   */
  function WatchFrom(fetch: nat -> Run<Sight>, fail: Error, at: nat, k: nat, bound: bool): Run<Json>
    decreases 10 - k, at  // `at` keeps calls with a literal k from being unrolled
  {
    if k >= 10 then Run(Err(if bound then fail else UnboundLocal), [])
    else
      var got := fetch(at);
      if got.r.Err? then Run(Err(got.r.error), got.events)
      else if got.r.value.Got? then Run(Ok(got.r.value.value), got.events)
      else After(got.events + [Pause], WatchFrom(fetch, fail, at + |got.events| + 1, k + 1, bound || got.r.value.Seen?))
  }

  /** One iteration that goes round again, after the events done so far. */
  lemma WatchGoesOn(fetch: nat -> Run<Sight>, fail: Error, at: nat, done: seq<Event>, k: nat, bound: bool, seen: bool,
                    step: Run<Sight>)
    requires k < 10 && step == fetch(at + |done|) && step.r.Ok? && !step.r.value.Got?
    requires seen == (bound || step.r.value.Seen?)
    ensures var more := done + (step.events + [Pause]);
            After(done, WatchFrom(fetch, fail, at + |done|, k, bound))
              == After(more, WatchFrom(fetch, fail, at + |more|, k + 1, seen))
  {
    var more := step.events + [Pause];
    var rest := WatchFrom(fetch, fail, at + |done| + |more|, k + 1, seen);
    assert WatchFrom(fetch, fail, at + |done|, k, bound) == After(more, rest);
    Appended(done, more, rest.events);
  }

  /** One iteration that settles the poll, after the events done so far. */
  lemma WatchSettles(fetch: nat -> Run<Sight>, fail: Error, at: nat, done: seq<Event>, k: nat, bound: bool, step: Run<Sight>)
    requires k < 10 && step == fetch(at + |done|) && (step.r.Err? || step.r.value.Got?)
    ensures After(done, WatchFrom(fetch, fail, at + |done|, k, bound))
         == Run(if step.r.Err? then Err(step.r.error) else Ok(step.r.value.value), done + step.events)
  {
  }

  /** A poll: up to ten gets of path, a pause after each that does not settle it. */
  method Watch(s: Session, path: string, block: Response -> Result<Sight>, fail: Error, bound: bool,
               ghost fetch: nat -> Run<Sight>) returns (r: Result<Json>)
    requires Feeds(fetch, s.replies, path, block)
    modifies s
    ensures var run := WatchFrom(fetch, fail, |old(s.trace)|, 0, bound);
            r == run.r && s.trace == old(s.trace) + run.events
  {
    ghost var at := |s.trace|;
    ghost var watch := WatchFrom(fetch, fail, at, 0, bound);
    ghost var done: seq<Event> := [];
    assert [] + watch.events == watch.events;
    var read := bound;
    var k := 0;
    while k < 10
      invariant k <= 10
      invariant s.trace == old(s.trace) + done
      invariant watch == After(done, WatchFrom(fetch, fail, at + |done|, k, read))
    {
      ghost var step := fetch(at + |done|);
      var got := Fetched(s, path, block, fetch);
      if got.Err? || got.value.Got? {
        r := if got.Err? then Err(got.error) else Ok(got.value.value);
        WatchSettles(fetch, fail, at, done, k, read, step);
        Appended(old(s.trace), done, step.events);
        return;
      }
      s.Sleep();
      var seen := read || got.value.Seen?;
      WatchGoesOn(fetch, fail, at, done, k, read, seen, step);
      FiscalReceipt.Paused(old(s.trace), done, step.events);
      done := done + (step.events + [Pause]);
      read := seen;
      k := k + 1;
    }
    r := Err(if read then fail else UnboundLocal);
    assert WatchFrom(fetch, fail, at + |done|, k, read) == Run(r, []);
    assert done + [] == done;
  }

  /**
   * A poll that returns took its value from a get whose block returned it,
   * and that get's events end the poll.
   */
  lemma {:induction false} WatchFound(fetch: nat -> Run<Sight>, fail: Error, at: nat, k: nat, bound: bool)
    requires k <= 10
    ensures var run := WatchFrom(fetch, fail, at, k, bound);
            run.r.Ok? ==> exists p: nat | at <= p ::
                            fetch(p).r == Ok(Got(run.r.value)) && FiscalReceipt.EndsIn(run.events, fetch(p).events)
    decreases 10 - k
  {
    var run := WatchFrom(fetch, fail, at, k, bound);
    if k < 10 && run.r.Ok? {
      var got := fetch(at);
      if got.r.Ok? && !got.r.value.Got? {
        var next := at + |got.events| + 1;
        var rest := WatchFrom(fetch, fail, next, k + 1, bound || got.r.value.Seen?);
        assert run == After(got.events + [Pause], rest);
        WatchFound(fetch, fail, next, k + 1, bound || got.r.value.Seen?);
        var p: nat :| next <= p && fetch(p).r == Ok(Got(rest.r.value)) && FiscalReceipt.EndsIn(rest.events, fetch(p).events);
        FiscalReceipt.EndsInPrepend(got.events + [Pause], rest.events, fetch(p).events);
        assert at <= p && fetch(p).r == Ok(Got(run.r.value)) && FiscalReceipt.EndsIn(run.events, fetch(p).events);
      } else {
        assert got.events[|got.events| - |got.events|..] == got.events;
        assert fetch(at).r == Ok(Got(run.r.value)) && FiscalReceipt.EndsIn(run.events, fetch(at).events);
      }
    }
  }

  /**
   * When no get settles the poll it raises after ten gets: fail once a
   * body was read into the logged variable, or when it was bound before
   * the poll; UnboundLocalError when it never was.
   */
  lemma {:induction false} WatchGivesUp(fetch: nat -> Run<Sight>, fail: Error, at: nat, k: nat, bound: bool)
    requires k <= 10
    requires forall n | at <= n :: fetch(n).r.Ok? && !fetch(n).r.value.Got?
    ensures var run := WatchFrom(fetch, fail, at, k, bound);
            (run.r == Err(fail) || run.r == Err(UnboundLocal)) && (bound ==> run.r == Err(fail))
    decreases 10 - k
  {
    if k < 10 {
      var got := fetch(at);
      assert got.r.Ok? && !got.r.value.Got?;
      var next := at + |got.events| + 1;
      var seen := bound || got.r.value.Seen?;
      var rest := WatchFrom(fetch, fail, next, k + 1, seen);
      assert WatchFrom(fetch, fail, at, k, bound) == After(got.events + [Pause], rest);
      WatchGivesUp(fetch, fail, next, k + 1, seen);
    }
  }

  /** A poll whose gets each take one request and settle nothing takes ten requests and ten pauses. */
  lemma {:induction false} WatchLength(fetch: nat -> Run<Sight>, fail: Error, at: nat, k: nat, bound: bool)
    requires k <= 10
    requires forall n | at <= n :: fetch(n).r.Ok? && !fetch(n).r.value.Got? && |fetch(n).events| == 1
    ensures |WatchFrom(fetch, fail, at, k, bound).events| == 2 * (10 - k)
    decreases 10 - k
  {
    if k < 10 {
      var got := fetch(at);
      assert got.r.Ok? && !got.r.value.Got? && |got.events| == 1;
      var next := at + 2;
      var seen := bound || got.r.value.Seen?;
      var rest := WatchFrom(fetch, fail, next, k + 1, seen);
      assert WatchFrom(fetch, fail, at, k, bound) == After(got.events + [Pause], rest);
      WatchLength(fetch, fail, next, k + 1, seen);
    }
  }

  /** A poll whose every body fails to read as JSON, with nothing bound before it, ends in UnboundLocalError. */
  lemma {:induction false} WatchUnbound(fetch: nat -> Run<Sight>, fail: Error, at: nat, k: nat)
    requires k <= 10
    requires forall n | at <= n :: fetch(n).r == Ok(Unread)
    ensures WatchFrom(fetch, fail, at, k, false).r == Err(UnboundLocal)
    decreases 10 - k
  {
    if k < 10 {
      var got := fetch(at);
      assert got.r == Ok(Unread);
      var next := at + |got.events| + 1;
      var rest := WatchFrom(fetch, fail, next, k + 1, false);
      assert WatchFrom(fetch, fail, at, k, false) == After(got.events + [Pause], rest);
      WatchUnbound(fetch, fail, next, k + 1);
    }
  }

  /** Iterations k to 9 of gets of at most six requests each take at most seven events each. */
  lemma {:induction false} WatchFromBounded(fetch: nat -> Run<Sight>, fail: Error, at: nat, k: nat, bound: bool)
    requires k <= 10
    requires forall n :: |fetch(n).events| <= 6
    ensures |WatchFrom(fetch, fail, at, k, bound).events| <= 7 * (10 - k)
    decreases 10 - k
  {
    if k < 10 {
      var got := fetch(at);
      if got.r.Ok? && !got.r.value.Got? {
        WatchFromBounded(fetch, fail, at + |got.events| + 1, k + 1, bound || got.r.value.Seen?);
      }
    }
  }

  /** A get of at most six requests. */
  lemma FetcherBounded<T>(replies: nat -> Attempt, path: string, block: Response -> Result<T>)
    ensures forall n :: |Fetcher(replies, path, block)(n).events| <= 6
  {
    forall n ensures |Fetcher(replies, path, block)(n).events| <= 6 {
      FetchShape(replies, n, path, block);
    }
  }

  // ------------------------------------------------------------- the blocks

  /** open_shift's poll block: a body that is not JSON is passed over; a status of OPENED settles it. */
  function OpenedBlock(resp: Response): Result<Sight> {
    if resp.json.None? then Ok(Unread)
    else match Subscript(resp.json.value, "status")
      case Err(e) => Err(e)
      case Ok(status) => if status == JStr("OPENED") then Ok(Got(resp.json.value)) else Ok(Seen)
  }

  lemma OpenedBlockCases(resp: Response)
    ensures var b := OpenedBlock(resp);
            (b.Ok? && b.value.Got? <==> resp.json.Some? && Holds(resp.json.value, "status", JStr("OPENED")))
            && (b == Ok(Unread) <==> resp.json.None?)
            && (b.Err? <==> resp.json.Some? && Subscript(resp.json.value, "status").Err?)
  {
  }

  /**
   * wait_receipt_sign's block: a body that is not JSON is passed over; a
   * status of DONE, and no other, settles it with the receipt's tax_url.
   */
  function SignedBlock(resp: Response): Result<Sight> {
    if resp.json.None? then Ok(Unread)
    else match Subscript(resp.json.value, "status")
      case Err(e) => Err(e)
      case Ok(status) =>
        if status != JStr("DONE") then Ok(Seen)
        else match Subscript(resp.json.value, "tax_url")
          case Err(e) => Err(e)
          case Ok(url) => Ok(Got(url))
  }

  lemma SignedBlockCases(resp: Response)
    ensures var b := SignedBlock(resp);
            (forall url :: b == Ok(Got(url)) <==>
               resp.json.Some? && Holds(resp.json.value, "status", JStr("DONE")) && Holds(resp.json.value, "tax_url", url))
            && (b == Ok(Unread) <==> resp.json.None?)
  {
  }

  /** shift_close's poll block: a shift that reads null settles it. */
  function GoneBlock(resp: Response): (r: Result<Sight>)
    ensures r.Ok?
    ensures r.value.Got? <==> resp.json == Some(JNull)
    ensures r.value == Unread <==> resp.json.None?
  {
    if resp.json.None? then Ok(Unread)
    else if resp.json.value == JNull then Ok(Got(JNull))
    else Ok(Seen)
  }

  // ------------------------------------------------------------- operations

  /** post(session, path, lic, **body), read as the caller reads it. */
  method PostWith(s: Session, path: string, lic: bool, body: Body, failure: Option<Error>) returns (r: Result<Json>)
    modifies s
    ensures s.trace == old(s.trace) + [HttpPost(path, lic, body)] && r == Posted(s.replies(|old(s.trace)|), failure)
  {
    var a := s.Request(HttpPost(path, lic, body));
    r := Posted(a, failure);
  }

  /** current_shift: the current shift read through raise_for_status. */
  method CurrentShift(s: Session) returns (r: Result<Json>)
    modifies s
    ensures var run := Fetch(s.replies, |old(s.trace)|, FiscalShift.ShiftPath, Read);
            r == run.r && s.trace == old(s.trace) + run.events
  {
    r := GetWith(s, FiscalShift.ShiftPath, Read);
  }

  /** open_shift's poll, its first request being the event at position at. */
  function OpenWatch(replies: nat -> Attempt, at: nat): Run<Json> {
    WatchFrom(Fetcher(replies, FiscalShift.ShiftPath, OpenedBlock), FiscalShift.OpenUnsigned, at, 0, true)
  }

  /**
   * open_shift once its post has answered, given the post's outcome and
   * the run of its poll: the new shift's id once the current shift reads
   * OPENED; a refused post raises "Не вдалось відкрити зміну" before any
   * poll, and ten polls without OPENED "Не вдалось підписати зміну".
   */
  function Opening(posted: Result<Json>, watch: Run<Json>): Run<Json> {
    var id := FiscalShift.IdOf(posted);
    if id.Err? then Run(Err(id.error), [])
    else Run(if watch.r.Err? then Err(watch.r.error) else id, watch.events)
  }

  /** open_shift whose post is the event at position at. */
  function OpenShiftRun(replies: nat -> Attempt, at: nat): Run<Json> {
    After([HttpPost(FiscalShift.OpenPath, true, Empty)],
          Opening(Posted(replies(at), Some(FiscalShift.OpenFailed)), OpenWatch(replies, at + 1)))
  }

  method AwaitOpened(s: Session, posted: Result<Json>) returns (r: Result<Json>)
    modifies s
    ensures var run := Opening(posted, OpenWatch(s.replies, |old(s.trace)|));
            r == run.r && s.trace == old(s.trace) + run.events
  {
    var id := FiscalShift.IdOf(posted);
    if id.Err? {
      return Err(id.error);
    }
    var started := Watch(s, FiscalShift.ShiftPath, OpenedBlock, FiscalShift.OpenUnsigned, true,
                         Fetcher(s.replies, FiscalShift.ShiftPath, OpenedBlock));
    r := if started.Err? then Err(started.error) else id;
  }

  method OpenShift(s: Session) returns (r: Result<Json>)
    modifies s
    ensures var run := OpenShiftRun(s.replies, |old(s.trace)|);
            r == run.r && s.trace == old(s.trace) + run.events
  {
    ghost var at := |s.trace|;
    var posted := PostWith(s, FiscalShift.OpenPath, true, Empty, Some(FiscalShift.OpenFailed));
    assert |s.trace| == at + 1;
    r := AwaitOpened(s, posted);
    Appended(old(s.trace), [HttpPost(FiscalShift.OpenPath, true, Empty)], Opening(posted, OpenWatch(s.replies, at + 1)).events);
  }

  /**
   * open_shift returns the id the post gave, and only after a poll found
   * the current shift OPENED.
   */
  lemma OpenShiftOpened(replies: nat -> Attempt, at: nat)
    ensures var run := OpenShiftRun(replies, at);
            run.r.Ok? ==>
              run.r == FiscalShift.IdOf(Posted(replies(at), Some(FiscalShift.OpenFailed)))
              && exists q: nat | at < q :: replies(q).Answered? && OpenedBlock(replies(q).response).Ok?
                                         && OpenedBlock(replies(q).response).value.Got?
  {
    var run := OpenShiftRun(replies, at);
    if run.r.Ok? {
      var fetch := Fetcher(replies, FiscalShift.ShiftPath, OpenedBlock);
      var watch := OpenWatch(replies, at + 1);
      WatchFound(fetch, FiscalShift.OpenUnsigned, at + 1, 0, true);
      var p: nat :| at + 1 <= p && fetch(p).r == Ok(Got(watch.r.value)) && FiscalReceipt.EndsIn(watch.events, fetch(p).events);
      FetchFromAnswered(replies, p, FiscalShift.ShiftPath, OpenedBlock, 0, TypeError);
    }
  }

  /** The one line and the payment the older create_receipt posts. */
  function LegacySale(good: Item): (b: Body)
    ensures b.Sale? && b.lines == [Line(good, 1000)]
    ensures b.payments == [Payment(None, FiscalReceipt.LinesTotal(b.lines), None)]
  {
    Sale([Line(good, 1000)], [Payment(None, good.price * 1000, None)])
  }

  /** create_receipt whose post is the event at position at: the receipt's id. */
  function CreateRun(replies: nat -> Attempt, at: nat, good: Item): Run<Json> {
    Run(FiscalShift.IdOf(Posted(replies(at), Some(CreateFailed))), [HttpPost(FiscalReceipt.SellPath, false, LegacySale(good))])
  }

  method CreateReceipt(s: Session, good: Item) returns (r: Result<Json>)
    modifies s
    ensures var run := CreateRun(s.replies, |old(s.trace)|, good);
            r == run.r && s.trace == old(s.trace) + run.events
  {
    var posted := PostWith(s, FiscalReceipt.SellPath, false, LegacySale(good), Some(CreateFailed));
    r := FiscalShift.IdOf(posted);
  }

  /**
   * sell(good) once the current shift has been read, the next request
   * being the event at position at, and started what open_shift would do
   * there: the shift is opened only when the current shift reads falsy;
   * then the receipt is created.
   */
  function Stocked(replies: nat -> Attempt, at: nat, good: Item, current: Result<Json>, started: Run<Json>): Run<Json> {
    if current.Err? then Run(Err(current.error), [])
    else if Truthy(current.value) then CreateRun(replies, at, good)
    else if started.r.Err? then Run(Err(started.r.error), started.events)
    else After(started.events, CreateRun(replies, at + |started.events|, good))
  }

  /**
   * sell(good) whose first request is the event at position at: a price
   * that is not positive raises "Невірна ціна" before any request.
   */
  function SellRun(replies: nat -> Attempt, at: nat, good: Item): Run<Json> {
    if good.price <= 0 then Run(Err(FiscalReceipt.BadPrice), []) else Priced(replies, at, good)
  }

  /** sell(good) past the price check: the current shift read, then the rest. */
  function Priced(replies: nat -> Attempt, at: nat, good: Item): Run<Json> {
    var current := Fetch(replies, at, FiscalShift.ShiftPath, Read);
    var mid := at + |current.events|;
    After(current.events, Stocked(replies, mid, good, current.r, OpenShiftRun(replies, mid)))
  }

  method SellInShift(s: Session, good: Item, current: Result<Json>) returns (r: Result<Json>)
    modifies s
    ensures var run := Stocked(s.replies, |old(s.trace)|, good, current, OpenShiftRun(s.replies, |old(s.trace)|));
            r == run.r && s.trace == old(s.trace) + run.events
  {
    ghost var at := |s.trace|;
    ghost var opening := OpenShiftRun(s.replies, at);
    if current.Err? {
      assert s.trace + [] == s.trace;
      return Err(current.error);
    }
    if Truthy(current.value) {
      r := CreateReceipt(s, good);
      return;
    }
    var started := OpenShift(s);
    if started.Err? {
      return Err(started.error);
    }
    assert |s.trace| == at + |opening.events|;
    ghost var create := CreateRun(s.replies, at + |opening.events|, good);
    ghost var mid := s.trace;
    assert CreateRun(s.replies, |mid|, good) == create;
    r := CreateReceipt(s, good);
    assert s.trace == mid + create.events;
    Appended(old(s.trace), opening.events, create.events);
  }

  /** The two steps of a priced sale, the shift read and the rest, make the sale. */
  lemma PricedSteps(replies: nat -> Attempt, good: Item, trace: seq<Event>, mid: seq<Event>, fin: seq<Event>,
                    current: Result<Json>, r: Result<Json>)
    requires var read := Fetch(replies, |trace|, FiscalShift.ShiftPath, Read);
             current == read.r && mid == trace + read.events
    requires var rest := Stocked(replies, |mid|, good, current, OpenShiftRun(replies, |mid|));
             r == rest.r && fin == mid + rest.events
    ensures var run := Priced(replies, |trace|, good);
            r == run.r && fin == trace + run.events
  {
    var read := Fetch(replies, |trace|, FiscalShift.ShiftPath, Read);
    Appended(trace, read.events, Stocked(replies, |mid|, good, current, OpenShiftRun(replies, |mid|)).events);
  }

  method SellPriced(s: Session, good: Item) returns (r: Result<Json>)
    modifies s
    ensures var run := Priced(s.replies, |old(s.trace)|, good);
            r == run.r && s.trace == old(s.trace) + run.events
  {
    var current := CurrentShift(s);
    ghost var mid := s.trace;
    r := SellInShift(s, good, current);
    PricedSteps(s.replies, good, old(s.trace), mid, s.trace, current, r);
  }

  method Sell(s: Session, good: Item) returns (r: Result<Json>)
    modifies s
    ensures var run := SellRun(s.replies, |old(s.trace)|, good);
            r == run.r && s.trace == old(s.trace) + run.events
  {
    if good.price <= 0 {
      assert s.trace + [] == s.trace;
      return Err(FiscalReceipt.BadPrice);
    }
    r := SellPriced(s, good);
  }

  /** A price that is not positive is refused before any request. */
  lemma SellChecksPriceFirst(replies: nat -> Attempt, at: nat, good: Item)
    requires good.price <= 0
    ensures SellRun(replies, at, good) == Run(Err(FiscalReceipt.BadPrice), [])
  {
  }

  /**
   * A shift is started exactly when the price is positive and the current
   * shift read succeeds and is falsy.
   */
  lemma SellOpensOnlyWithoutShift(replies: nat -> Attempt, at: nat, good: Item)
    ensures var current := Fetch(replies, at, FiscalShift.ShiftPath, Read);
            HttpPost(FiscalShift.OpenPath, true, Empty) in SellRun(replies, at, good).events <==>
              good.price > 0 && current.r.Ok? && !Truthy(current.r.value)
  {
    var current := Fetch(replies, at, FiscalShift.ShiftPath, Read);
    var open := HttpPost(FiscalShift.OpenPath, true, Empty);
    FetchShape(replies, at, FiscalShift.ShiftPath, Read);
    if open in current.events {
      GetsOnly(FiscalShift.ShiftPath, |current.events|, open);
    }
    if good.price > 0 && current.r.Ok? {
      var mid := at + |current.events|;
      if !Truthy(current.r.value) {
        var started := OpenShiftRun(replies, mid);
        assert started.events[0] == open;
        assert SellRun(replies, at, good).events[|current.events|] == open;
      }
    }
  }

  /**
   * A sale run from position at that succeeds ends with the sale post and
   * returns the id read from that post's reply.
   */
  ghost predicate SaleIdLast(run: Run<Json>, replies: nat -> Attempt, at: nat, good: Item) {
    run.r.Ok? ==>
      |run.events| > 0 && run.events[|run.events| - 1] == HttpPost(FiscalReceipt.SellPath, false, LegacySale(good))
      && run.r == FiscalShift.IdOf(Posted(replies(at + |run.events| - 1), Some(CreateFailed)))
  }

  /**
   * Whatever the shift read and open_shift did, a sale that succeeds
   * returns the id from the sale post, its last request.
   */
  lemma StockedReturnsId(replies: nat -> Attempt, at: nat, good: Item, read: Run<Json>, started: Run<Json>)
    ensures SaleIdLast(After(read.events, Stocked(replies, at + |read.events|, good, read.r, started)), replies, at, good)
  {
    var mid := at + |read.events|;
    var tail := Stocked(replies, mid, good, read.r, started);
    if tail.r.Ok? {
      var prefix := if Truthy(read.r.value) then read.events else read.events + started.events;
      var create := CreateRun(replies, at + |prefix|, good);
      assert tail == After(if Truthy(read.r.value) then [] else started.events, create);
      assert read.events + tail.events == prefix + create.events;
    }
  }

  /** Past the price check, a receipt id comes only from the sale post. */
  lemma PricedReturnsId(replies: nat -> Attempt, at: nat, good: Item)
    ensures SaleIdLast(Priced(replies, at, good), replies, at, good)
  {
    var current := Fetch(replies, at, FiscalShift.ShiftPath, Read);
    StockedReturnsId(replies, at, good, current, OpenShiftRun(replies, at + |current.events|));
  }

  /** A receipt id is returned only from the sale post, the last request. */
  lemma SellReturnsId(replies: nat -> Attempt, at: nat, good: Item)
    ensures SaleIdLast(SellRun(replies, at, good), replies, at, good)
  {
    if good.price > 0 {
      PricedReturnsId(replies, at, good);
    }
  }

  // ----------------------------------------------------------- the receipt

  /** wait_receipt_sign as written: the logged `receipt` is bound only by a body read as JSON. */
  function WaitAsWritten(replies: nat -> Attempt, at: nat, id: Json): Run<Json> {
    WatchFrom(Fetcher(replies, FiscalShift.ReceiptPath(id), SignedBlock), ReceiptUnsigned, at, 0, false)
  }

  /** wait_receipt_sign as intended: ten polls without DONE raise the receipt error. */
  function WaitRun(replies: nat -> Attempt, at: nat, id: Json): Run<Json> {
    WatchFrom(Fetcher(replies, FiscalShift.ReceiptPath(id), SignedBlock), ReceiptUnsigned, at, 0, true)
  }

  /** Replies that are never JSON, each answered at once. */
  ghost predicate NeverJson(replies: nat -> Attempt) {
    forall n :: replies(n).Answered? && replies(n).response.json.None?
  }

  lemma NeverJsonUnread(replies: nat -> Attempt, path: string, block: Response -> Result<Sight>)
    requires NeverJson(replies)
    requires forall resp: Response | resp.json.None? :: block(resp) == Ok(Unread)
    ensures forall n :: Fetcher(replies, path, block)(n) == Run(Ok(Unread), [HttpGet(path)])
  {
  }

  /** When no reply is ever JSON the wait as written ends in UnboundLocalError, not the receipt error. */
  lemma WaitAsWrittenUnbound(replies: nat -> Attempt, at: nat, id: Json)
    requires NeverJson(replies)
    ensures WaitAsWritten(replies, at, id).r == Err(UnboundLocal)
  {
    NeverJsonUnread(replies, FiscalShift.ReceiptPath(id), SignedBlock);
    WatchUnbound(Fetcher(replies, FiscalShift.ReceiptPath(id), SignedBlock), ReceiptUnsigned, at, 0);
  }

  /** As intended, the same replies raise "Не вдалося підписати чек" after ten requests and ten pauses. */
  lemma WaitGivesUp(replies: nat -> Attempt, at: nat, id: Json)
    requires NeverJson(replies)
    ensures var run := WaitRun(replies, at, id);
            run.r == Err(ReceiptUnsigned) && |run.events| == 20
  {
    NeverJsonUnread(replies, FiscalShift.ReceiptPath(id), SignedBlock);
    WatchGivesUp(Fetcher(replies, FiscalShift.ReceiptPath(id), SignedBlock), ReceiptUnsigned, at, 0, true);
    WatchLength(Fetcher(replies, FiscalShift.ReceiptPath(id), SignedBlock), ReceiptUnsigned, at, 0, true);
  }

  /** The wait returns a tax_url only from a reply whose status is DONE. */
  lemma WaitOnlyDone(replies: nat -> Attempt, at: nat, id: Json)
    ensures var run := WaitRun(replies, at, id);
            run.r.Ok? ==> exists q: nat | at <= q ::
                            replies(q).Answered? && replies(q).response.json.Some?
                            && Holds(replies(q).response.json.value, "status", JStr("DONE"))
                            && Holds(replies(q).response.json.value, "tax_url", run.r.value)
  {
    var run := WaitRun(replies, at, id);
    if run.r.Ok? {
      var path := FiscalShift.ReceiptPath(id);
      var fetch := Fetcher(replies, path, SignedBlock);
      WatchFound(fetch, ReceiptUnsigned, at, 0, true);
      var p: nat :| at <= p && fetch(p).r == Ok(Got(run.r.value)) && FiscalReceipt.EndsIn(run.events, fetch(p).events);
      FetchFromAnswered(replies, p, path, SignedBlock, 0, TypeError);
      var q: nat :| p <= q && replies(q).Answered? && SignedBlock(replies(q).response) == Ok(Got(run.r.value));
      SignedBlockCases(replies(q).response);
    }
  }

  /** A wait takes at most seventy events: ten gets of at most six requests, and ten pauses. */
  lemma WaitBounded(replies: nat -> Attempt, at: nat, id: Json)
    ensures |WaitRun(replies, at, id).events| <= 70
  {
    FetcherBounded(replies, FiscalShift.ReceiptPath(id), SignedBlock);
    WatchFromBounded(Fetcher(replies, FiscalShift.ReceiptPath(id), SignedBlock), ReceiptUnsigned, at, 0, true);
  }

  method WaitReceiptSign(s: Session, id: Json) returns (r: Result<Json>)
    modifies s
    ensures var run := WaitRun(s.replies, |old(s.trace)|, id);
            r == run.r && s.trace == old(s.trace) + run.events
  {
    var path := FiscalShift.ReceiptPath(id);
    r := Watch(s, path, SignedBlock, ReceiptUnsigned, true, Fetcher(s.replies, path, SignedBlock));
  }

  // ------------------------------------------------------------- the close

  /** shift_close's poll, its first request being the event at position at. */
  function GoneWatch(replies: nat -> Attempt, at: nat): Run<Json> {
    WatchFrom(Fetcher(replies, FiscalShift.ShiftPath, GoneBlock), FiscalShift.CloseUnsigned, at, 0, true)
  }

  /**
   * shift_close once its close post has answered, given the post's
   * outcome and the run of its poll: the closed shift's
   * `balance.balance` (in kopiykas), once the current shift reads null;
   * the post's failures escape before any poll, and ten polls without
   * null raise "Не вдалось підписати закриття зміни".
   */
  function Closing(closed: Result<Json>, gone: Run<Json>): Run<int> {
    if closed.Err? then Run(Err(closed.error), [])
    else
      var id := Subscript(closed.value, "id");
      var balance := FiscalShift.BalanceOf(closed.value, "balance");
      if id.Err? then Run(Err(id.error), [])
      else if balance.Err? then Run(Err(balance.error), [])
      else Run(if gone.r.Err? then Err(gone.r.error) else balance, gone.events)
  }

  /** shift_close whose close post is the event at position at. */
  function CloseRun(replies: nat -> Attempt, at: nat): Run<int> {
    After([HttpPost(FiscalShift.ClosePath, false, Empty)], Closing(Posted(replies(at), None), GoneWatch(replies, at + 1)))
  }

  method AwaitClosed(s: Session, closed: Result<Json>) returns (r: Result<int>)
    modifies s
    ensures var run := Closing(closed, GoneWatch(s.replies, |old(s.trace)|));
            r == run.r && s.trace == old(s.trace) + run.events
  {
    if closed.Err? {
      return Err(closed.error);
    }
    var id := Subscript(closed.value, "id");
    if id.Err? {
      return Err(id.error);
    }
    var balance := FiscalShift.BalanceOf(closed.value, "balance");
    if balance.Err? {
      return balance;
    }
    var gone := Watch(s, FiscalShift.ShiftPath, GoneBlock, FiscalShift.CloseUnsigned, true,
                      Fetcher(s.replies, FiscalShift.ShiftPath, GoneBlock));
    r := if gone.Err? then Err(gone.error) else balance;
  }

  method ShiftClose(s: Session) returns (r: Result<int>)
    modifies s
    ensures var run := CloseRun(s.replies, |old(s.trace)|);
            r == run.r && s.trace == old(s.trace) + run.events
  {
    ghost var at := |s.trace|;
    var closed := PostWith(s, FiscalShift.ClosePath, false, Empty, None);
    assert |s.trace| == at + 1;
    r := AwaitClosed(s, closed);
    Appended(old(s.trace), [HttpPost(FiscalShift.ClosePath, false, Empty)], Closing(closed, GoneWatch(s.replies, at + 1)).events);
  }

  /** The close returns the closed shift's balance, and only after a poll read the shift as null. */
  lemma CloseReturnsBalance(replies: nat -> Attempt, at: nat)
    ensures var run := CloseRun(replies, at);
            run.r.Ok? ==>
              Posted(replies(at), None).Ok? && run.r == FiscalShift.BalanceOf(Posted(replies(at), None).value, "balance")
              && exists q: nat | at < q :: replies(q).Answered? && replies(q).response.json == Some(JNull)
  {
    var run := CloseRun(replies, at);
    if run.r.Ok? {
      var fetch := Fetcher(replies, FiscalShift.ShiftPath, GoneBlock);
      var gone := GoneWatch(replies, at + 1);
      WatchFound(fetch, FiscalShift.CloseUnsigned, at + 1, 0, true);
      var p: nat :| at + 1 <= p && fetch(p).r == Ok(Got(gone.r.value)) && FiscalReceipt.EndsIn(gone.events, fetch(p).events);
      FetchFromAnswered(replies, p, FiscalShift.ShiftPath, GoneBlock, 0, TypeError);
    }
  }

  /**
   * A close whose post succeeded, while the shift keeps reading as a
   * JSON value other than null, raises "Не вдалось підписати закриття
   * зміни" after the post, ten requests and ten pauses.
   */
  lemma CloseGivesUp(replies: nat -> Attempt, at: nat)
    requires var closed := Posted(replies(at), None);
             closed.Ok? && Subscript(closed.value, "id").Ok? && FiscalShift.BalanceOf(closed.value, "balance").Ok?
    requires forall n | at < n :: replies(n).Answered? && replies(n).response.json.Some? && replies(n).response.json.value != JNull
    ensures var run := CloseRun(replies, at);
            run.r == Err(FiscalShift.CloseUnsigned) && |run.events| == 21
  {
    var fetch := Fetcher(replies, FiscalShift.ShiftPath, GoneBlock);
    forall n | at + 1 <= n
      ensures fetch(n).r == Ok(Seen) && |fetch(n).events| == 1
    {
      assert replies(n).Answered?;
      assert fetch(n) == Run(GoneBlock(replies(n).response), [HttpGet(FiscalShift.ShiftPath)]);
    }
    var gone := GoneWatch(replies, at + 1);
    WatchGivesUp(fetch, FiscalShift.CloseUnsigned, at + 1, 0, true);
    WatchLength(fetch, FiscalShift.CloseUnsigned, at + 1, 0, true);
    assert gone.r == Err(FiscalShift.CloseUnsigned) && |gone.events| == 20;
    assert Closing(Posted(replies(at), None), gone) == Run(Err(FiscalShift.CloseUnsigned), gone.events);
  }
}
