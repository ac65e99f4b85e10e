/** Fetching candles with retries and exponential backoff (`fetch_ohlcv`
    in data.py) and reading the last candle (`get_last_closed_candle`).
    The exchange is an abstract function from a request and the attempt
    number to a response; sleeping is recorded as the list of delays
    slept, in order. */
module Data {
  import opened Base
  import opened Config

  /** One candle: open time (ms since the epoch) and prices/volume. */
  datatype Bar = Bar(time: int, open: real, high: real, low: real, close: real, volume: real)

  /** What one exchange call produces. `Empty` is a missing answer; a
      rate-limit and a network failure are retried, an exchange error or
      any other exception ends the fetch. */
  datatype Response = Ok(rows: seq<Bar>) | Empty | RateLimit | Network | ExchangeErr | Other

  /** The arguments of one exchange call. */
  datatype Request = Request(symbol: string, timeframe: string, limit: nat)

  /** The exchange: the response to a request on a given attempt (0-based). */
  type Exchange = (Request, nat) -> Response

  /** The result of a fetch: the candles (None on failure), the delays
      slept, and the number of exchange calls made. */
  datatype FetchTrace = FetchTrace(outcome: Option<seq<Bar>>, sleeps: seq<real>, calls: nat)

  /** Responses after which the fetch sleeps and tries again. */
  predicate Retryable(r: Response)
  {
    r.RateLimit? || r.Network?
  }

  /** What a response that ends the fetch yields: the candles when some
      were returned, None otherwise. */
  function Final(r: Response): (o: Option<seq<Bar>>)
    ensures o.Some? <==> r.Ok? && |r.rows| > 0
    ensures o.Some? ==> o.value == r.rows
  {
    if r.Ok? && |r.rows| > 0 then Some(r.rows) else None
  }

  /** The delays of `n` consecutive retries starting from `delay`: the
      k-th (0-based) is delay x 2^k. */
  function Backoff(delay: real, n: nat): (s: seq<real>)
    ensures |s| == n
    ensures forall k :: 0 <= k < n ==> s[k] == delay * (Pow2(k) as real)
  {
    seq(n, k requires 0 <= k < n => delay * (Pow2(k) as real))
  }

  /** The retry loop from attempt `retryCount` on, with the current delay.
      While attempts remain: a non-empty answer is returned; an empty or
      missing answer, an exchange error or any other failure gives None at
      once; a rate-limit or network failure sleeps the current delay,
      doubles it and tries again. With no attempts left the result is
      None. */
  function Attempt(ex: Exchange, req: Request, retryCount: nat, delay: real, maxRetries: int)
    : (t: FetchTrace)
    ensures t.calls <= (if maxRetries > retryCount then maxRetries - retryCount else 0)
    ensures |t.sleeps| <= t.calls
    ensures t.outcome.Some? ==> |t.outcome.value| > 0
    decreases maxRetries - retryCount
  {
    if retryCount >= maxRetries then FetchTrace(None, [], 0)
    else
      var r := ex(req, retryCount);
      if Retryable(r) then
        var rest := Attempt(ex, req, retryCount + 1, delay * 2.0, maxRetries);
        FetchTrace(rest.outcome, [delay] + rest.sleeps, rest.calls + 1)
      else FetchTrace(Final(r), [], 1)
  }

  /** The request a fetch makes: a missing timeframe or limit falls back
      to TIMEFRAME or MIN_OHLCV_BARS. */
  function MakeRequest(cfg: ScanConfig, symbol: string, timeframe: Option<string>, limit: Option<nat>)
    : Request
  {
    Request(symbol,
            if timeframe.None? then cfg.timeframe else timeframe.value,
            if limit.None? then cfg.minOhlcvBars else limit.value)
  }

  /** `fetch_ohlcv`: at most MAX_RETRIES attempts, starting with a delay
      of RETRY_DELAY. */
  function FetchOhlcv(ex: Exchange, cfg: ScanConfig, symbol: string,
                      timeframe: Option<string>, limit: Option<nat>)
    : (t: FetchTrace)
    ensures t.calls <= (if cfg.maxRetries > 0 then cfg.maxRetries else 0)
    ensures t.outcome.Some? ==> |t.outcome.value| > 0
  {
    Attempt(ex, MakeRequest(cfg, symbol, timeframe, limit), 0, cfg.retryDelay, cfg.maxRetries)
  }

  /** Omitting the timeframe and the limit is the same as passing the
      configured defaults. */
  lemma DefaultRequest(ex: Exchange, cfg: ScanConfig, symbol: string)
    ensures FetchOhlcv(ex, cfg, symbol, None, None)
            == FetchOhlcv(ex, cfg, symbol, Some(cfg.timeframe), Some(cfg.minOhlcvBars))
    ensures MakeRequest(cfg, symbol, None, None).timeframe == cfg.timeframe
    ensures MakeRequest(cfg, symbol, None, None).limit == cfg.minOhlcvBars
  {
  }

  /** Retrying once more with a doubled delay continues the backoff. */
  lemma BackoffStep(delay: real, n: nat)
    ensures [delay] + Backoff(delay * 2.0, n) == Backoff(delay, n + 1)
  {
    var a := [delay] + Backoff(delay * 2.0, n);
    var b := Backoff(delay, n + 1);
    forall k | 0 <= k < n + 1
      ensures a[k] == b[k]
    {
      if k > 0 {
        assert a[k] == delay * 2.0 * (Pow2(k - 1) as real);
        assert Pow2(k) == 2 * Pow2(k - 1);
      }
    }
  }

  /** Closed form of a fetch that stops on attempt `j`: every earlier
      attempt was retried, so attempts retryCount..j were made, the delays
      slept are delay, 2 delay, 4 delay, ..., and the outcome is what
      attempt `j` returned. */
  lemma {:induction false} StopsAt(ex: Exchange, req: Request, retryCount: nat, delay: real,
                                   maxRetries: int, j: nat)
    requires retryCount <= j < maxRetries
    requires forall k :: retryCount <= k < j ==> Retryable(ex(req, k))
    requires !Retryable(ex(req, j))
    ensures Attempt(ex, req, retryCount, delay, maxRetries)
            == FetchTrace(Final(ex(req, j)), Backoff(delay, j - retryCount), j - retryCount + 1)
    decreases j - retryCount
  {
    if retryCount < j {
      StopsAt(ex, req, retryCount + 1, delay * 2.0, maxRetries, j);
      BackoffStep(delay, j - retryCount - 1);
    }
  }

  /** Closed form of a fetch whose every attempt is retried: it gives up
      with None after using all attempts, having slept after each one
      (including the last). */
  lemma {:induction false} Exhausted(ex: Exchange, req: Request, retryCount: nat, delay: real,
                                     maxRetries: int)
    requires retryCount <= maxRetries
    requires forall k :: retryCount <= k < maxRetries ==> Retryable(ex(req, k))
    ensures Attempt(ex, req, retryCount, delay, maxRetries)
            == FetchTrace(None, Backoff(delay, maxRetries - retryCount), maxRetries - retryCount)
    decreases maxRetries - retryCount
  {
    if retryCount < maxRetries {
      Exhausted(ex, req, retryCount + 1, delay * 2.0, maxRetries);
      BackoffStep(delay, maxRetries - retryCount - 1);
    }
  }

  /** An exchange error or any other failure on the first attempt ends the
      fetch with None after one call and no sleep; so does an empty or
      missing answer. */
  lemma TerminalFailure(ex: Exchange, cfg: ScanConfig, symbol: string,
                        timeframe: Option<string>, limit: Option<nat>)
    requires cfg.maxRetries >= 1
    requires var r := ex(MakeRequest(cfg, symbol, timeframe, limit), 0);
             r.ExchangeErr? || r.Other? || r.Empty? || r == Ok([])
    ensures FetchOhlcv(ex, cfg, symbol, timeframe, limit) == FetchTrace(None, [], 1)
  {
  }

  /** With the shipped settings, two network failures and then candles
      give the candles after sleeping 2 s and 4 s; three retryable
      failures give None after sleeping 2 s, 4 s and 8 s. */
  lemma DefaultBackoff(ex: Exchange, symbol: string, rows: seq<Bar>)
    requires |rows| > 0
    ensures var req := MakeRequest(Default, symbol, None, None);
            ex(req, 0).Network? && ex(req, 1).Network? && ex(req, 2) == Ok(rows) ==>
              FetchOhlcv(ex, Default, symbol, None, None) == FetchTrace(Some(rows), [2.0, 4.0], 3)
    ensures var req := MakeRequest(Default, symbol, None, None);
            Retryable(ex(req, 0)) && Retryable(ex(req, 1)) && Retryable(ex(req, 2)) ==>
              FetchOhlcv(ex, Default, symbol, None, None) == FetchTrace(None, [2.0, 4.0, 8.0], 3)
  {
    var req := MakeRequest(Default, symbol, None, None);
    assert Pow2(1) == 2 && Pow2(2) == 4;
    if ex(req, 0).Network? && ex(req, 1).Network? && ex(req, 2) == Ok(rows) {
      StopsAt(ex, req, 0, 2.0, 3, 2);
      assert Backoff(2.0, 2) == [2.0, 4.0];
    }
    if Retryable(ex(req, 0)) && Retryable(ex(req, 1)) && Retryable(ex(req, 2)) {
      Exhausted(ex, req, 0, 2.0, 3);
      assert Backoff(2.0, 3) == [2.0, 4.0, 8.0];
    }
  }

  /** The last candle of the fetched data, or None when there is none. */
  function GetLastClosedCandle(df: Option<seq<Bar>>): (c: Option<Bar>)
    ensures c.None? <==> df.None? || |df.value| == 0
    ensures c.Some? ==> c.value in df.value
  {
    if df.None? || |df.value| == 0 then None else Some(df.value[|df.value| - 1])
  }

  /** The candle appended last is the last closed one, whatever came
      before it. */
  lemma LastCandleOfAppend(rows: seq<Bar>, b: Bar)
    ensures GetLastClosedCandle(Some(rows + [b])) == Some(b)
  {
  }
}
