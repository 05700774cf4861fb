/**
 * Properties of the gas telemetry store: what each action changes and what it leaves
 * alone, the history bound, the cost derivation laws, and two invariants that hold along
 * any sequence of actions.
 */
module StoreProperties {
  import opened Wrappers
  import opened GasStore

  // ---------------------------------------------------------------------------
  // History

  /** Trimming after a single append equals trimming the whole concatenation. */
  lemma CappedAfterCapped(x: seq<GasPoint>, p: GasPoint)
    ensures AppendCapped(Capped(x), p) == Capped(x + [p])
  {
    if |x| > HistoryCap {
      var c := Capped(x);
      assert c == x[|x| - HistoryCap..];
      assert (c + [p])[1..] == x[|x| - HistoryCap + 1..] + [p];
      assert (x + [p])[|x| + 1 - HistoryCap..] == x[|x| - HistoryCap + 1..] + [p];
    }
  }

  /**
   * Appending samples one `addGasPoint` at a time keeps exactly the newest 1000 of the
   * old history followed by the new samples; when they fit, nothing is dropped.
   */
  lemma {:induction false} AppendAllKeepsNewest(h: seq<GasPoint>, ps: seq<GasPoint>)
    requires ps != []
    ensures AppendAll(h, ps) == Capped(h + ps)
    ensures |h| + |ps| <= HistoryCap ==> AppendAll(h, ps) == h + ps
    decreases |ps|
  {
    var q, p := ps[..|ps| - 1], ps[|ps| - 1];
    assert ps == q + [p];
    assert h + q + [p] == h + ps;
    if q == [] {
      calc {
        AppendAll(h, ps);
        AppendCapped(AppendAll(h, q), p);
        AppendCapped(h, p);
        Capped(h + [p]);
      }
    } else {
      AppendAllKeepsNewest(h, q);
      CappedAfterCapped(h + q, p);
      calc {
        AppendAll(h, ps);
        AppendCapped(AppendAll(h, q), p);
        AppendCapped(Capped(h + q), p);
        Capped(h + q + [p]);
      }
    }
  }

  // ---------------------------------------------------------------------------
  // Sequences of actions

  /** Running two sequences of actions one after the other is running their concatenation. */
  lemma {:induction false} RunAppend(s: GasState, xs: seq<Action>, ys: seq<Action>)
    ensures Run(s, xs + ys) == Run(Run(s, xs), ys)
    decreases |ys|
  {
    if ys == [] {
      assert xs + ys == xs;
    } else {
      var init, last := ys[..|ys| - 1], ys[|ys| - 1];
      assert ys == init + [last];
      assert xs + ys == (xs + init) + [last];
      RunAppend(s, xs, init);
      RunSnoc(s, xs + init, last);
      RunSnoc(Run(s, xs), init, last);
    }
  }

  /** An action that writes nothing but the per-chain records. */
  predicate TouchesChainsOnly(a: Action) {
    a.UpdateChainData? || a.AddGasPoint?
  }

  /** A run of such actions leaves every other part of the state as it was. */
  lemma {:induction false} RunTouchesChainsOnly(s: GasState, actions: seq<Action>)
    requires forall i :: 0 <= i < |actions| ==> TouchesChainsOnly(actions[i])
    ensures Run(s, actions) == s.(chains := Run(s, actions).chains)
    decreases |actions|
  {
    if actions != [] {
      RunTouchesChainsOnly(s, actions[..|actions| - 1]);
      assert TouchesChainsOnly(actions[|actions| - 1]);
    }
  }

  /**
   * Actions that write only the chains, followed by a recalculation, leave everything but
   * the chains and the cost results as it was, and the results fresh for the final state.
   */
  lemma ChainsThenRecalculate(s: GasState, actions: seq<Action>)
    requires forall i :: 0 <= i < |actions| ==> TouchesChainsOnly(actions[i])
    ensures var t := Step(Run(s, actions), CalculateSimulationCosts);
      && t == s.(chains := t.chains, simulation := s.simulation.(results := t.simulation.results))
      && t.simulation.results == CostTable(t)
  {
    RunTouchesChainsOnly(s, actions);
    CalculateIsIdempotent(Run(s, actions));
  }

  /**
   * `addGasPoint` touches nothing but the named chain's history: no `lastUpdate` stamp,
   * the other chains and every other field unchanged. On a full history the oldest
   * sample is dropped.
   */
  lemma AddGasPointOnlyTouchesHistory(s: GasState, c: Chain, p: GasPoint)
    ensures var r := Step(s, AddGasPoint(c, p));
      && r == s.(chains := r.chains)
      && r.chains.Get(c) == s.chains.Get(c).(history := AppendCapped(s.chains.Get(c).history, p))
      && r.chains.Get(c).lastUpdate == s.chains.Get(c).lastUpdate
      && (forall o :: o != c ==> r.chains.Get(o) == s.chains.Get(o))
    ensures |s.chains.Get(c).history| == HistoryCap ==>
      Step(s, AddGasPoint(c, p)).chains.Get(c).history == s.chains.Get(c).history[1..] + [p]
  {
  }

  /** A chain's history is never longer than 1000 samples. */
  ghost predicate HistoriesBounded(s: GasState) {
    forall c :: |s.chains.Get(c).history| <= HistoryCap
  }

  /** An action that cannot lengthen a history past the cap by itself. */
  predicate KeepsBound(a: Action) {
    a.UpdateChainData? && a.data.history.Some? ==> |a.data.history.value| <= HistoryCap
  }

  lemma StepKeepsHistoriesBounded(s: GasState, a: Action)
    requires HistoriesBounded(s) && KeepsBound(a)
    ensures HistoriesBounded(Step(s, a))
  {
    var r := Step(s, a);
    forall c
      ensures |r.chains.Get(c).history| <= HistoryCap
    {
      match a
      case UpdateChainData(c', patch, now) =>
        if c' == c {
          assert Merged(patch.history, s.chains.Get(c).history, r.chains.Get(c).history);
        }
      case AddGasPoint(c', pt) =>
      case _ =>
    }
  }

  /**
   * Starting from the initial state (or any bounded one), every history stays within
   * 1000 samples along any sequence of actions, unless an `updateChainData` call passes
   * a longer history in its partial.
   */
  lemma {:induction false} RunKeepsHistoriesBounded(s: GasState, actions: seq<Action>)
    requires HistoriesBounded(s)
    requires forall i :: 0 <= i < |actions| ==> KeepsBound(actions[i])
    ensures HistoriesBounded(Run(s, actions))
    decreases |actions|
  {
    if actions != [] {
      var prefix := actions[..|actions| - 1];
      RunKeepsHistoriesBounded(s, prefix);
      StepKeepsHistoriesBounded(Run(s, prefix), actions[|actions| - 1]);
    }
  }

  lemma InitialStateBounded()
    ensures HistoriesBounded(InitialState)
    ensures InitialState.maticUsdPrice == 0.0 && InitialState.simulation.results == []
  {
  }

  // ---------------------------------------------------------------------------
  // Partial merges and setters

  /**
   * `updateChainData` merges the partial into the named chain, stamps `lastUpdate`, and
   * leaves the other chains and every non-chain field unchanged.
   */
  lemma UpdateChainDataIsPartialMerge(s: GasState, c: Chain, patch: ChainPatch, now: int)
    ensures var r := Step(s, UpdateChainData(c, patch, now));
      && r == s.(chains := r.chains)
      && r.chains.Get(c) == MergeChain(s.chains.Get(c), patch, now)
      && r.chains.Get(c).lastUpdate == now
      && (forall o :: o != c ==> r.chains.Get(o) == s.chains.Get(o))
  {
  }

  /** The empty partial only stamps the time; applying a partial twice equals applying it once. */
  lemma MergeChainFacts(d: ChainData, patch: ChainPatch, now: int, later: int)
    ensures MergeChain(d, NoChanges, now) == d.(lastUpdate := now)
    ensures MergeChain(MergeChain(d, patch, now), patch, later) == MergeChain(d, patch, later)
  {
  }

  /**
   * `updateUsdPrices` always sets the ETH price and the price timestamp; the MATIC price
   * changes only for a present, non-zero second argument. Nothing else changes.
   */
  lemma UpdateUsdPricesEffect(s: GasState, eth: real, matic: Option<real>, now: int)
    ensures var r := Step(s, UpdateUsdPrices(eth, matic, now));
      && r.ethUsdPrice == eth
      && r.lastPriceUpdate == now
      && r.maticUsdPrice == (if matic.Some? && matic.value != 0.0 then matic.value else s.maticUsdPrice)
      && r == s.(ethUsdPrice := eth, maticUsdPrice := r.maticUsdPrice, lastPriceUpdate := now)
  {
  }

  /**
   * Switching mode changes the mode and nothing else, so no chain or price data; switching
   * back restores the state exactly.
   */
  lemma ModeIsOrthogonal(s: GasState, m: Mode)
    ensures var r := Step(s, SetMode(m));
      && r.chains == s.chains
      && r.ethUsdPrice == s.ethUsdPrice && r.maticUsdPrice == s.maticUsdPrice
      && r.lastPriceUpdate == s.lastPriceUpdate
      && r.simulation == s.simulation
      && Step(r, SetMode(s.mode)) == s
  {
  }

  /** The remaining setters each change only their own field, or key of the flag map. */
  lemma SettersChangeOnlyTheirField(s: GasState, tf: Timeframe, c: Chain, svc: Service, b: bool, patch: SimulationPatch)
    ensures Step(s, SetChartTimeframe(tf)) == s.(chartTimeframe := tf)
    ensures Step(s, SetSelectedChain(c)) == s.(selectedChain := c)
    ensures var r := Step(s, UpdateConnectionStatus(svc, b));
      && r == s.(connectionStatus := r.connectionStatus)
      && r.connectionStatus.Get(svc) == b
      && forall o :: o != svc ==> r.connectionStatus.Get(o) == s.connectionStatus.Get(o)
    ensures var r := Step(s, UpdateSimulation(patch));
      && r == s.(simulation := r.simulation)
      && (patch.results.None? ==> r.simulation.results == s.simulation.results)
  {
  }

  // ---------------------------------------------------------------------------
  // Cost derivation

  /**
   * `calculateSimulationCosts` replaces `results` whole with exactly one entry per chain,
   * keyed ethereum, polygon and arbitrum, and keeps the transaction value and gas limit.
   */
  lemma CalculateReplacesResults(s: GasState)
    ensures var r := Step(s, CalculateSimulationCosts);
      && r == s.(simulation := r.simulation)
      && r.simulation.transactionValue == s.simulation.transactionValue
      && r.simulation.gasLimit == s.simulation.gasLimit
      && |r.simulation.results| == 3
      && r.simulation.results[0].chain == Ethereum
      && r.simulation.results[1].chain == Polygon
      && r.simulation.results[2].chain == Arbitrum
  {
  }

  /** Each entry's costs: fee times gas limit over 1e18, priced in MATIC for polygon. */
  lemma CostTableEntries(s: GasState, i: int)
    requires 0 <= i < |CostTable(s)|
    ensures var e := CostTable(s)[i];
      var usd := if e.chain == Polygon then s.maticUsdPrice else s.ethUsdPrice;
      var d := s.chains.Get(e.chain);
      && e.cost.gasCostETH * WeiPerEth == (d.baseFee + d.priorityFee) * s.simulation.gasLimit as real
      && e.cost.gasCostUSD == e.cost.gasCostETH * usd
      && e.cost.totalCostUSD == e.cost.gasCostUSD + s.simulation.transactionValue * usd
  {
  }

  /** Recomputing with nothing changed in between gives the same state. */
  lemma CalculateIsIdempotent(s: GasState)
    ensures Step(Step(s, CalculateSimulationCosts), CalculateSimulationCosts) == Step(s, CalculateSimulationCosts)
  {
    var r := Step(s, CalculateSimulationCosts);
    forall c ensures CostEntryFor(r, c) == CostEntryFor(s, c) {
    }
  }

  /** While the MATIC price is 0, polygon's USD costs are 0 whatever its fees. */
  lemma PolygonFreeWhileMaticUnpriced(s: GasState)
    requires s.maticUsdPrice == 0.0
    ensures CostTable(s)[1].chain == Polygon
    ensures CostTable(s)[1].cost.gasCostUSD == 0.0 && CostTable(s)[1].cost.totalCostUSD == 0.0
  {
  }

  /** An action that could give the MATIC price a non-zero value. */
  predicate PricesMatic(a: Action) {
    a.UpdateUsdPrices? && a.maticPrice.Some? && a.maticPrice.value != 0.0
  }

  /**
   * The MATIC price starts at 0 and stays 0 along any sequence of actions none of which
   * passes a non-zero second argument to `updateUsdPrices`; so does polygon's USD cost.
   */
  lemma {:induction false} MaticStaysZeroUntilPriced(s: GasState, actions: seq<Action>)
    requires s.maticUsdPrice == 0.0
    requires forall i :: 0 <= i < |actions| ==> !PricesMatic(actions[i])
    ensures Run(s, actions).maticUsdPrice == 0.0
    ensures CostTable(Run(s, actions))[1].cost.totalCostUSD == 0.0
    decreases |actions|
  {
    if actions != [] {
      var prefix := actions[..|actions| - 1];
      MaticStaysZeroUntilPriced(s, prefix);
      assert !PricesMatic(actions[|actions| - 1]);
    }
    PolygonFreeWhileMaticUnpriced(Run(s, actions));
  }

  /**
   * The worked example: ethereum at 20 + 2 gwei, gas limit 21000, ETH at 3000 USD and a
   * 0.1 ETH transfer costs 22 * 21000 / 1e18 ETH in gas, and its total is the gas cost
   * plus 300 USD.
   */
  lemma EthereumExample(s: GasState)
    requires s.chains.ethereum.baseFee == 20.0 && s.chains.ethereum.priorityFee == 2.0
    requires s.simulation.gasLimit == 21000 && s.simulation.transactionValue == 0.1
    requires s.ethUsdPrice == 3000.0
    ensures CostTable(s)[0].cost.gasCostETH == 462000.0 / WeiPerEth
    ensures CostTable(s)[0].cost.totalCostUSD == CostTable(s)[0].cost.gasCostUSD + 300.0
  {
  }
}
