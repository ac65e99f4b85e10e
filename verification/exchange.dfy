/** The market-universe filter (`filter_pairs` in exchange.py): which
    symbols of the loaded markets the scanner looks at. Loading the
    markets is external; the markets arrive as a sequence of
    (symbol, market) entries in the exchange's order. */
module Markets {
  import opened Base
  import opened Config

  /** The fields of a market the filter reads; each may be missing. */
  datatype Market = Market(active: Option<bool>, kind: Option<string>,
                           quote: Option<string>, base: Option<string>)

  /** The stable coins whose pairs can be excluded. */
  const Stablecoins: seq<string> := ["USDT", "USDC", "BUSD", "DAI", "TUSD", "USDP", "FDUSD"]

  /** The base currency is a stable coin (a missing base is not). */
  predicate StableBase(m: Market)
  {
    m.base.Some? && m.base.value in Stablecoins
  }

  /** A market is in scope when it is active, of the configured type, has
      the configured quote, and (when stable pairs are excluded) its base
      is not a stable coin. */
  predicate InScope(cfg: ScanConfig, m: Market)
  {
    m.active == Some(true)
    && m.kind == Some(cfg.marketType)
    && m.quote == Some(cfg.quoteFilter)
    && !(cfg.excludeStablePairs && StableBase(m))
  }

  /** The symbols of the markets, in order. */
  function Symbols(markets: seq<(string, Market)>): (r: seq<string>)
    ensures |r| == |markets|
    ensures forall i :: 0 <= i < |markets| ==> r[i] == markets[i].0
  {
    seq(|markets|, i requires 0 <= i < |markets| => markets[i].0)
  }

  /** No symbol occurs twice (the markets come from a dictionary). */
  predicate UniqueSymbols(markets: seq<(string, Market)>)
  {
    forall i, j :: 0 <= i < j < |markets| ==> markets[i].0 != markets[j].0
  }

  /** `xs` is a subsequence of `ys`: it can be obtained by deleting
      elements of `ys` without reordering the rest. */
  predicate Subsequence<T(==)>(xs: seq<T>, ys: seq<T>)
    decreases |ys|
  {
    if |xs| == 0 then true
    else if |ys| == 0 then false
    else if xs[0] == ys[0] then Subsequence(xs[1..], ys[1..])
    else Subsequence(xs, ys[1..])
  }

  /** The symbols of the in-scope markets, in the markets' order. */
  function InScopeSymbols(cfg: ScanConfig, markets: seq<(string, Market)>): (r: seq<string>)
    ensures |r| <= |markets|
    ensures forall k :: 0 <= k < |r| ==>
              exists i :: 0 <= i < |markets| && markets[i].0 == r[k] && InScope(cfg, markets[i].1)
    ensures forall i :: 0 <= i < |markets| && InScope(cfg, markets[i].1) ==> markets[i].0 in r
  {
    if |markets| == 0 then []
    else
      var rest := InScopeSymbols(cfg, markets[1..]);
      assert forall i :: 1 <= i < |markets| ==> markets[i] == markets[1..][i - 1];
      if InScope(cfg, markets[0].1) then [markets[0].0] + rest else rest
  }

  /** The MAX_PAIRS cap: a positive cap keeps that many symbols from the
      front; a missing or non-positive cap keeps all. */
  function Cap(xs: seq<string>, maxPairs: Option<int>): (r: seq<string>)
    ensures maxPairs.Some? && maxPairs.value > 0 ==> |r| <= maxPairs.value
    ensures !(maxPairs.Some? && maxPairs.value > 0) ==> r == xs
    ensures r <= xs
    ensures |r| == |xs| || (maxPairs.Some? && |r| == maxPairs.value)
  {
    if maxPairs.Some? && maxPairs.value > 0 && maxPairs.value < |xs| then xs[..maxPairs.value]
    else xs
  }

  /** `filter_pairs`: the in-scope symbols, capped at MAX_PAIRS. */
  function FilterPairs(cfg: ScanConfig, markets: seq<(string, Market)>): (r: seq<string>)
    ensures forall k :: 0 <= k < |r| ==>
              exists i :: 0 <= i < |markets| && markets[i].0 == r[k] && InScope(cfg, markets[i].1)
    ensures cfg.maxPairs.Some? && cfg.maxPairs.value > 0 ==> |r| <= cfg.maxPairs.value
    ensures !(cfg.maxPairs.Some? && cfg.maxPairs.value > 0) ==> r == InScopeSymbols(cfg, markets)
    ensures r <= InScopeSymbols(cfg, markets)
    ensures |r| == |InScopeSymbols(cfg, markets)| || (cfg.maxPairs.Some? && |r| == cfg.maxPairs.value)
  {
    var all := InScopeSymbols(cfg, markets);
    var r := Cap(all, cfg.maxPairs);
    assert forall k :: 0 <= k < |r| ==> r[k] == all[k];
    r
  }

  /** With stable pairs excluded, every returned symbol comes from a
      market whose base is not a stable coin. */
  lemma NoStablePairs(cfg: ScanConfig, markets: seq<(string, Market)>, k: int)
    requires cfg.excludeStablePairs
    requires 0 <= k < |FilterPairs(cfg, markets)|
    ensures exists i :: 0 <= i < |markets| && markets[i].0 == FilterPairs(cfg, markets)[k]
                        && !StableBase(markets[i].1)
  {
    var r := FilterPairs(cfg, markets);
    var all := InScopeSymbols(cfg, markets);
    assert r[k] == all[k];
    var i :| 0 <= i < |markets| && markets[i].0 == all[k] && InScope(cfg, markets[i].1);
    assert !StableBase(markets[i].1);
  }

  /** A prefix of a subsequence is a subsequence. */
  lemma {:induction false} PrefixSubsequence<T>(xs: seq<T>, ys: seq<T>, n: nat)
    requires n <= |xs| && Subsequence(xs, ys)
    ensures Subsequence(xs[..n], ys)
    decreases |ys|
  {
    if n > 0 {
      assert |ys| > 0;
      if xs[0] == ys[0] {
        PrefixSubsequence(xs[1..], ys[1..], n - 1);
        assert xs[..n][1..] == xs[1..][..n - 1];
      } else {
        PrefixSubsequence(xs, ys[1..], n);
      }
    }
  }

  /** A subsequence of `ys` is also one of `[y] + ys`. */
  lemma {:induction false} SubsequenceCons<T>(xs: seq<T>, y: T, ys: seq<T>)
    requires Subsequence(xs, ys)
    ensures Subsequence(xs, [y] + ys)
    decreases |ys|, 1
  {
    assert ([y] + ys)[1..] == ys;
    if |xs| > 0 && xs[0] == y {
      SubsequenceTail(xs, ys);
    }
  }

  /** Dropping the first element of a non-empty subsequence leaves a
      subsequence. */
  lemma {:induction false} SubsequenceTail<T>(xs: seq<T>, ys: seq<T>)
    requires |xs| > 0 && Subsequence(xs, ys)
    ensures Subsequence(xs[1..], ys)
    decreases |ys|, 0
  {
    assert |ys| > 0;
    if xs[0] == ys[0] {
      SubsequenceCons(xs[1..], ys[0], ys[1..]);
    } else {
      SubsequenceTail(xs, ys[1..]);
      SubsequenceCons(xs[1..], ys[0], ys[1..]);
    }
    assert [ys[0]] + ys[1..] == ys;
  }

  /** The in-scope symbols appear in the markets' order. */
  lemma {:induction false} InScopeOrdered(cfg: ScanConfig, markets: seq<(string, Market)>)
    ensures Subsequence(InScopeSymbols(cfg, markets), Symbols(markets))
  {
    if |markets| > 0 {
      var keys := Symbols(markets);
      InScopeOrdered(cfg, markets[1..]);
      assert Symbols(markets[1..]) == keys[1..];
      var rest := InScopeSymbols(cfg, markets[1..]);
      if InScope(cfg, markets[0].1) {
        assert ([markets[0].0] + rest)[1..] == rest;
      } else {
        SubsequenceCons(rest, keys[0], keys[1..]);
        assert [keys[0]] + keys[1..] == keys;
      }
    }
  }

  /** The filter's output is a subsequence of the market symbols in their
      original order. */
  lemma FilterOrdered(cfg: ScanConfig, markets: seq<(string, Market)>)
    ensures Subsequence(FilterPairs(cfg, markets), Symbols(markets))
  {
    var all := InScopeSymbols(cfg, markets);
    InScopeOrdered(cfg, markets);
    PrefixSubsequence(all, Symbols(markets), |FilterPairs(cfg, markets)|);
    assert all[..|FilterPairs(cfg, markets)|] == FilterPairs(cfg, markets);
  }

  /** The markets whose symbol is listed in `keys`, in their order. */
  function Restrict(markets: seq<(string, Market)>, keys: seq<string>): seq<(string, Market)>
  {
    if |markets| == 0 then []
    else (if markets[0].0 in keys then [markets[0]] else []) + Restrict(markets[1..], keys)
  }

  /** Adding a key that no market carries does not change a restriction. */
  lemma {:induction false} RestrictIgnores(markets: seq<(string, Market)>, s: string, keys: seq<string>)
    requires forall i :: 0 <= i < |markets| ==> markets[i].0 != s
    ensures Restrict(markets, [s] + keys) == Restrict(markets, keys)
  {
    if |markets| > 0 {
      RestrictIgnores(markets[1..], s, keys);
    }
  }

  /** Restricting to no keys leaves no markets. */
  lemma {:induction false} RestrictNone(markets: seq<(string, Market)>)
    ensures Restrict(markets, []) == []
  {
    if |markets| > 0 {
      RestrictNone(markets[1..]);
    }
  }

  /** The in-scope symbols of a market followed by more markets. */
  lemma InScopeCons(cfg: ScanConfig, m: (string, Market), ms: seq<(string, Market)>)
    ensures InScopeSymbols(cfg, [m] + ms)
            == (if InScope(cfg, m.1) then [m.0] else []) + InScopeSymbols(cfg, ms)
  {
    assert ([m] + ms)[1..] == ms;
  }

  /** The restriction of a market followed by more markets. */
  lemma RestrictCons(m: (string, Market), ms: seq<(string, Market)>, keys: seq<string>)
    ensures Restrict([m] + ms, keys) == (if m.0 in keys then [m] else []) + Restrict(ms, keys)
  {
    assert ([m] + ms)[1..] == ms;
  }

  /** Inductive step of RestrictToPrefix for an in-scope first market. */
  lemma StepInScope(cfg: ScanConfig, m: (string, Market), rest: seq<(string, Market)>, r: seq<string>)
    requires InScope(cfg, m.1)
    requires forall i :: 0 <= i < |rest| ==> rest[i].0 != m.0
    requires InScopeSymbols(cfg, Restrict(rest, r)) == r
    ensures InScopeSymbols(cfg, Restrict([m] + rest, [m.0] + r)) == [m.0] + r
  {
    RestrictCons(m, rest, [m.0] + r);
    RestrictIgnores(rest, m.0, r);
    InScopeCons(cfg, m, Restrict(rest, r));
  }

  /** Inductive step of RestrictToPrefix for an out-of-scope first market. */
  lemma StepOutOfScope(cfg: ScanConfig, m: (string, Market), rest: seq<(string, Market)>, r: seq<string>)
    requires !InScope(cfg, m.1)
    requires InScopeSymbols(cfg, Restrict(rest, r)) == r
    ensures InScopeSymbols(cfg, Restrict([m] + rest, r)) == r
  {
    var tail := Restrict(rest, r);
    RestrictCons(m, rest, r);
    if m.0 in r {
      InScopeCons(cfg, m, tail);
      assert InScopeSymbols(cfg, [m] + tail) == [] + InScopeSymbols(cfg, tail);
    } else {
      assert Restrict([m] + rest, r) == [] + tail;
      assert [] + tail == tail;
    }
  }

  /** Restricting the markets to a prefix of their in-scope symbols and
      filtering again gives back that prefix. */
  lemma {:induction false} RestrictToPrefix(cfg: ScanConfig, markets: seq<(string, Market)>, r: seq<string>)
    requires UniqueSymbols(markets)
    requires r <= InScopeSymbols(cfg, markets)
    ensures InScopeSymbols(cfg, Restrict(markets, r)) == r
  {
    if |r| == 0 {
      RestrictNone(markets);
    } else if |markets| > 0 {
      var m0, rest := markets[0], markets[1..];
      assert markets == [m0] + rest;
      assert forall i :: 0 <= i < |rest| ==> rest[i] == markets[i + 1];
      assert UniqueSymbols(rest);
      InScopeCons(cfg, m0, rest);
      if InScope(cfg, m0.1) {
        assert r == [m0.0] + r[1..];
        RestrictToPrefix(cfg, rest, r[1..]);
        StepInScope(cfg, m0, rest, r[1..]);
      } else {
        RestrictToPrefix(cfg, rest, r);
        StepOutOfScope(cfg, m0, rest, r);
      }
    }
  }

  /** Filtering is idempotent: filtering the markets restricted to the
      filter's output gives that output again. */
  lemma FilterIdempotent(cfg: ScanConfig, markets: seq<(string, Market)>)
    requires UniqueSymbols(markets)
    ensures var r := FilterPairs(cfg, markets);
            FilterPairs(cfg, Restrict(markets, r)) == r
  {
    RestrictToPrefix(cfg, markets, FilterPairs(cfg, markets));
  }
}
