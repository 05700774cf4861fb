/**
 * The demo data service: it marks every service connected, sets an opening ETH price,
 * back-fills 100 samples per chain, and then drives two periodic timers, a gas tick that
 * moves every chain's fees by a floored random walk and an ETH price tick.
 *
 * `Math.random()` is replaced by a sequence of draws passed in by the caller, in the
 * order the source draws them, and `Date.now()` by a clock reading `now`. The browser's
 * `setInterval`/`clearInterval` are modelled by the small `Timers` registry below.
 */
module DemoData {
  import opened Wrappers
  import opened GasStore
  import StoreProperties
  import GasPriceWidget
  import Dashboard

  /** Every draw of `Math.random()` lies in [0, 1). */
  predicate Uniform(rs: seq<real>) {
    forall i :: 0 <= i < |rs| ==> 0.0 <= rs[i] < 1.0
  }

  /** `Math.max` on two numbers. */
  function Max(a: real, b: real): (m: real)
    ensures m >= a && m >= b && (m == a || m == b)
  {
    if a >= b then a else b
  }

  /** The position of a chain in the order the service visits them. */
  function ChainIndex(c: Chain): (i: nat)
    ensures i < |AllChains| && AllChains[i] == c
  {
    match c
    case Ethereum => 0
    case Polygon => 1
    case Arbitrum => 2
  }

  // ---------------------------------------------------------------------------
  // The gas tick

  /** The floors and step widths of one chain's base-fee and priority-fee walks. */
  datatype WalkParams = WalkParams(baseFloor: real, baseStep: real, priorityFloor: real, priorityStep: real)

  function Walks(c: Chain): (w: WalkParams)
    ensures w.baseStep > 0.0 && w.priorityStep > 0.0
  {
    match c
    case Ethereum => WalkParams(5.0, 5.0, 0.1, 0.5)
    case Polygon => WalkParams(10.0, 10.0, 10.0, 5.0)
    case Arbitrum => WalkParams(0.05, 0.1, 0.01, 0.02)
  }

  /**
   * For a draw `r` in [0, 1), `after` is at most half a step below `before` and, unless it
   * sits on the floor, less than half a step above it.
   */
  predicate WalkedFrom(before: real, after: real, r: real, step: real, floor: real) {
    0.0 <= r < 1.0 ==> before - step / 2.0 <= after && (after == floor || after < before + step / 2.0)
  }

  /**
   * `Math.max(floor, current + (Math.random() - 0.5) * step)`: never below the floor, and
   * for a draw in [0, 1) at most half a step below `current` and, unless it was lifted
   * to the floor, less than half a step above it.
   */
  function Walk(current: real, r: real, step: real, floor: real): (fee: real)
    ensures fee >= floor
    ensures step > 0.0 ==> WalkedFrom(current, fee, r, step, floor)
  {
    var moved := current + (r - 0.5) * step;
    assert 0.0 <= r < 1.0 && step > 0.0 ==> current - step / 2.0 <= moved < current + step / 2.0 by {
      if 0.0 <= r < 1.0 && step > 0.0 {
        assert (r - 0.5) * step + step / 2.0 == r * step;
        assert (r - 0.5) * step - step / 2.0 == (r - 1.0) * step;
        assert r * step >= 0.0;
        assert (r - 1.0) * step < 0.0;
      }
    }
    Max(floor, moved)
  }

  /** The two fees a chain moves to in one tick, from its current record and two draws. */
  datatype Fees = Fees(baseFee: real, priorityFee: real)

  function NextFees(d: ChainData, c: Chain, rBase: real, rPriority: real): (f: Fees)
    ensures f.baseFee >= Walks(c).baseFloor && f.priorityFee >= Walks(c).priorityFloor
    ensures WalkedFrom(d.baseFee, f.baseFee, rBase, Walks(c).baseStep, Walks(c).baseFloor)
    ensures WalkedFrom(d.priorityFee, f.priorityFee, rPriority, Walks(c).priorityStep, Walks(c).priorityFloor)
  {
    var w := Walks(c);
    Fees(Walk(d.baseFee, rBase, w.baseStep, w.baseFloor), Walk(d.priorityFee, rPriority, w.priorityStep, w.priorityFloor))
  }

  /** The partial the tick passes to `updateChainData`. */
  function TickPatch(f: Fees): ChainPatch {
    NoChanges.(baseFee := Some(f.baseFee), priorityFee := Some(f.priorityFee), gasPrice := Some(f.baseFee + f.priorityFee))
  }

  /** The sample the tick passes to `addGasPoint`: stamped `now`, its total the sum of the fees. */
  function TickPoint(f: Fees, now: int): (p: GasPoint)
    ensures p.timestamp == now && p.baseFee == f.baseFee && p.priorityFee == f.priorityFee
    ensures p.totalFee == p.baseFee + p.priorityFee
  {
    GasPoint(now, f.baseFee, f.priorityFee, f.baseFee + f.priorityFee)
  }

  /** One chain's share of a tick, for a chain whose record was `d` when the tick began. */
  function ChainTick(d: ChainData, c: Chain, rBase: real, rPriority: real, now: int): seq<Action> {
    var f := NextFees(d, c, rBase, rPriority);
    [UpdateChainData(c, TickPatch(f), now), AddGasPoint(c, TickPoint(f, now))]
  }

  /**
   * The store actions of `updateGasPrices` from state `s`, with the six draws in source
   * order (ethereum base, ethereum priority, polygon base, ...): each chain's update and
   * sample, then a cost recalculation only in simulation mode. Every walk starts from the
   * state read when the tick began.
   */
  function TickActions(s: GasState, rs: seq<real>, now: int): seq<Action>
    requires |rs| == 6
  {
    ChainTicks(s, rs, now) + (if s.mode == Simulation then [CalculateSimulationCosts] else [])
  }

  /**
   * A chain's record after its tick: both fees at or above their floors and within half a
   * step of where they were (unless floored), the gas price equal to the displayed total,
   * the update time `now`, and the history extended by a sample of exactly these fees;
   * name, symbol, URLs, colour and connection flag unchanged.
   */
  function TickedChain(d: ChainData, c: Chain, rBase: real, rPriority: real, now: int): (r: ChainData)
    ensures r.baseFee >= Walks(c).baseFloor && r.priorityFee >= Walks(c).priorityFloor
    ensures WalkedFrom(d.baseFee, r.baseFee, rBase, Walks(c).baseStep, Walks(c).baseFloor)
    ensures WalkedFrom(d.priorityFee, r.priorityFee, rPriority, Walks(c).priorityStep, Walks(c).priorityFloor)
    ensures r.gasPrice == GasPriceWidget.DisplayedTotal(r) && r.lastUpdate == now
    ensures r.history == AppendCapped(d.history, GasPoint(now, r.baseFee, r.priorityFee, GasPriceWidget.DisplayedTotal(r)))
    ensures r == d.(baseFee := r.baseFee, priorityFee := r.priorityFee, gasPrice := r.gasPrice, lastUpdate := now, history := r.history)
  {
    var f := NextFees(d, c, rBase, rPriority);
    d.(baseFee := f.baseFee, priorityFee := f.priorityFee, gasPrice := f.baseFee + f.priorityFee,
       lastUpdate := now, history := AppendCapped(d.history, TickPoint(f, now)))
  }

  /** Running one chain's share of a tick turns that chain's record into its ticked record. */
  lemma ChainTickEffect(s: GasState, d: ChainData, c: Chain, rBase: real, rPriority: real, now: int)
    requires s.chains.Get(c) == d
    ensures Run(s, ChainTick(d, c, rBase, rPriority, now)) == s.(chains := s.chains.With(c, TickedChain(d, c, rBase, rPriority, now)))
  {
    var f := NextFees(d, c, rBase, rPriority);
    var update := UpdateChainData(c, TickPatch(f), now);
    var sample := AddGasPoint(c, TickPoint(f, now));
    assert ChainTick(d, c, rBase, rPriority, now) == [update] + [sample];
    assert [] + [update] == [update];
    RunSnoc(s, [], update);
    RunSnoc(s, [update], sample);
    var merged := MergeChain(d, TickPatch(f), now);
    var s1 := Step(s, update);
    assert s1 == s.(chains := s.chains.With(c, merged));
    var r := merged.(history := AppendCapped(merged.history, TickPoint(f, now)));
    assert r == TickedChain(d, c, rBase, rPriority, now);
    assert Step(s1, sample) == s1.(chains := s1.chains.With(c, r));
    assert s1.chains.With(c, r) == s.chains.With(c, r);
  }

  /** The chains' shares of a tick, in order. */
  function ChainTicks(s: GasState, rs: seq<real>, now: int): seq<Action>
    requires |rs| == 6
  {
    ChainTick(s.chains.ethereum, Ethereum, rs[0], rs[1], now)
    + ChainTick(s.chains.polygon, Polygon, rs[2], rs[3], now)
    + ChainTick(s.chains.arbitrum, Arbitrum, rs[4], rs[5], now)
  }

  /** The three chains' shares of a tick, run in order, tick each chain once. */
  lemma ChainTicksEffect(s: GasState, rs: seq<real>, now: int)
    requires |rs| == 6
    ensures Run(s, ChainTicks(s, rs, now))
      == s.(chains := Chains(TickedChain(s.chains.ethereum, Ethereum, rs[0], rs[1], now),
                             TickedChain(s.chains.polygon, Polygon, rs[2], rs[3], now),
                             TickedChain(s.chains.arbitrum, Arbitrum, rs[4], rs[5], now)))
  {
    var a := ChainTick(s.chains.ethereum, Ethereum, rs[0], rs[1], now);
    var b := ChainTick(s.chains.polygon, Polygon, rs[2], rs[3], now);
    var c := ChainTick(s.chains.arbitrum, Arbitrum, rs[4], rs[5], now);
    assert ChainTicks(s, rs, now) == a + b + c;
    StoreProperties.RunAppend(s, a + b, c);
    StoreProperties.RunAppend(s, a, b);
    ChainTickEffect(s, s.chains.ethereum, Ethereum, rs[0], rs[1], now);
    var s1 := Run(s, a);
    ChainTickEffect(s1, s.chains.polygon, Polygon, rs[2], rs[3], now);
    var s2 := Run(s1, b);
    ChainTickEffect(s2, s.chains.arbitrum, Arbitrum, rs[4], rs[5], now);
  }

  /** A tick is the chains' shares, followed by a recalculation in simulation mode. */
  lemma TickRun(s: GasState, rs: seq<real>, now: int)
    requires |rs| == 6
    ensures Run(s, TickActions(s, rs, now)) ==
      if s.mode == Simulation then Step(Run(s, ChainTicks(s, rs, now)), CalculateSimulationCosts)
      else Run(s, ChainTicks(s, rs, now))
  {
    if s.mode == Simulation {
      assert TickActions(s, rs, now) == ChainTicks(s, rs, now) + [CalculateSimulationCosts];
      RunSnoc(s, ChainTicks(s, rs, now), CalculateSimulationCosts);
    } else {
      assert TickActions(s, rs, now) == ChainTicks(s, rs, now);
    }
  }

  /** A whole gas tick turns every chain's record into its ticked record. */
  lemma TickChainsEffect(s: GasState, rs: seq<real>, now: int)
    requires |rs| == 6
    ensures Run(s, TickActions(s, rs, now)).chains ==
      Chains(TickedChain(s.chains.ethereum, Ethereum, rs[0], rs[1], now),
             TickedChain(s.chains.polygon, Polygon, rs[2], rs[3], now),
             TickedChain(s.chains.arbitrum, Arbitrum, rs[4], rs[5], now))
  {
    ChainTicksEffect(s, rs, now);
    TickRun(s, rs, now);
    StoreProperties.CalculateReplacesResults(Run(s, ChainTicks(s, rs, now)));
  }

  /**
   * Besides the chains, a gas tick changes only the cost results: prices, mode, chart
   * settings, connection flags and simulation inputs are untouched, and the results are
   * recomputed from the new state in simulation mode and left alone in live mode.
   */
  lemma TickOtherEffect(s: GasState, rs: seq<real>, now: int)
    requires |rs| == 6
    ensures var t := Run(s, TickActions(s, rs, now));
      && t == s.(chains := t.chains, simulation := s.simulation.(results := t.simulation.results))
      && (s.mode == Simulation ==> t.simulation.results == CostTable(t))
      && (s.mode == Live ==> t.simulation.results == s.simulation.results)
  {
    var ticks := ChainTicks(s, rs, now);
    assert forall i :: 0 <= i < |ticks| ==> StoreProperties.TouchesChainsOnly(ticks[i]);
    TickRun(s, rs, now);
    if s.mode == Simulation {
      StoreProperties.ChainsThenRecalculate(s, ticks);
    } else {
      StoreProperties.RunTouchesChainsOnly(s, ticks);
    }
  }

  /** Scaling a non-negative amount by a factor in [lo, hi] lands between the two scalings. */
  lemma ScaleWithin(x: real, m: real, lo: real, hi: real)
    requires x >= 0.0 && lo <= m <= hi
    ensures x * lo <= x * m <= x * hi
  {
    assert x * m - x * lo == x * (m - lo);
    assert x * hi - x * m == x * (hi - m);
  }

  /** A draw in [0, 1) moves a non-negative price by at most 2% either way. */
  lemma EthStepWithin(price: real, r: real)
    ensures price >= 0.0 && 0.0 <= r < 1.0 ==> price * 0.98 <= price * (1.0 + (r - 0.5) * 0.04) <= price * 1.02
  {
    if price >= 0.0 && 0.0 <= r < 1.0 {
      var m := 1.0 + (r - 0.5) * 0.04;
      assert 0.98 <= m < 1.02;
      ScaleWithin(price, m, 0.98, 1.02);
    }
  }

  /**
   * `updateEthPrice`'s new price: never below 1000, and otherwise within 2% of the old
   * (non-negative) price for a draw in [0, 1).
   */
  function NextEthPrice(currentPrice: real, r: real): (p: real)
    ensures p >= 1000.0
    ensures 0.0 <= r < 1.0 && currentPrice >= 0.0 ==> p == 1000.0 || currentPrice * 0.98 <= p <= currentPrice * 1.02
  {
    EthStepWithin(currentPrice, r);
    Max(1000.0, currentPrice * (1.0 + (r - 0.5) * 0.04))
  }

  // ---------------------------------------------------------------------------
  // The back-fill

  /** The base-fee and priority-fee ranges the back-filled samples are drawn from. */
  datatype SeedRange = SeedRange(baseLow: real, baseSpan: real, priorityLow: real, prioritySpan: real)

  function Seeds(c: Chain): (g: SeedRange)
    ensures g.baseLow > 0.0 && g.baseSpan > 0.0 && g.priorityLow > 0.0 && g.prioritySpan > 0.0
  {
    match c
    case Ethereum => SeedRange(20.0, 40.0, 1.0, 3.0)
    case Polygon => SeedRange(30.0, 60.0, 30.0, 20.0)
    case Arbitrum => SeedRange(0.1, 0.5, 0.01, 0.1)
  }

  /** The number of samples back-filled per chain, and their spacing in milliseconds. */
  const BackfillCount: nat := 100
  const BackfillSpacingMs: int := 15000

  /**
   * The `t`-th back-filled sample of chain `c` (loop counter `i = 99 - t`), using the two
   * draws that iteration makes for that chain: stamped `now - i * 15000`, with the total
   * fee the sum of the two fees, and each fee inside its seed range for uniform draws.
   */
  function InitialPoint(c: Chain, rs: seq<real>, now: int, t: int): (p: GasPoint)
    requires |rs| == 6 * BackfillCount && 0 <= t < BackfillCount
    ensures p.totalFee == p.baseFee + p.priorityFee
    ensures Uniform(rs) ==>
      && Seeds(c).baseLow <= p.baseFee < Seeds(c).baseLow + Seeds(c).baseSpan
      && Seeds(c).priorityLow <= p.priorityFee < Seeds(c).priorityLow + Seeds(c).prioritySpan
  {
    var i := 99 - t;
    var timestamp := now - i * BackfillSpacingMs;
    var g := Seeds(c);
    var k := 6 * t + 2 * ChainIndex(c);
    var baseFee := g.baseLow + rs[k] * g.baseSpan;
    var priorityFee := g.priorityLow + rs[k + 1] * g.prioritySpan;
    assert Uniform(rs) ==> rs[k] * g.baseSpan < g.baseSpan && rs[k + 1] * g.prioritySpan < g.prioritySpan by {
      if Uniform(rs) {
        assert rs[k] < 1.0 && rs[k + 1] < 1.0;
      }
    }
    GasPoint(timestamp, baseFee, priorityFee, baseFee + priorityFee)
  }

  /** The first `n` back-filled samples of chain `c`, oldest first. */
  function InitialPoints(c: Chain, rs: seq<real>, now: int, n: nat): (ps: seq<GasPoint>)
    requires |rs| == 6 * BackfillCount && n <= BackfillCount
    ensures |ps| == n
    ensures forall t :: 0 <= t < n ==> ps[t] == InitialPoint(c, rs, now, t)
    decreases n
  {
    if n == 0 then [] else InitialPoints(c, rs, now, n - 1) + [InitialPoint(c, rs, now, n - 1)]
  }

  /**
   * The back-filled series: 100 samples, 15 seconds apart and oldest first, the newest
   * stamped `now`, on the same timestamps for every chain.
   */
  lemma InitialSeriesTiming(c: Chain, other: Chain, rs: seq<real>, now: int)
    requires |rs| == 6 * BackfillCount
    ensures var ps := InitialPoints(c, rs, now, BackfillCount);
      && |ps| == 100 && ps[99].timestamp == now && ps[0].timestamp == now - 99 * 15000
      && (forall t :: 0 <= t < 99 ==> ps[t + 1].timestamp == ps[t].timestamp + 15000)
      && (forall t :: 0 <= t < 100 ==> ps[t].timestamp == InitialPoints(other, rs, now, BackfillCount)[t].timestamp)
  {
  }

  /** The store actions of back-fill iteration `t`: one sample per chain, Ethereum first. */
  function BackfillRound(rs: seq<real>, now: int, t: nat): seq<Action>
    requires |rs| == 6 * BackfillCount && t < BackfillCount
  {
    [ AddGasPoint(Ethereum, InitialPoint(Ethereum, rs, now, t)),
      AddGasPoint(Polygon, InitialPoint(Polygon, rs, now, t)),
      AddGasPoint(Arbitrum, InitialPoint(Arbitrum, rs, now, t)) ]
  }

  /** The store actions of the first `n` iterations of the back-fill loop. */
  function Backfill(rs: seq<real>, now: int, n: nat): (actions: seq<Action>)
    requires |rs| == 6 * BackfillCount && n <= BackfillCount
    ensures |actions| == 3 * n
    ensures forall i :: 0 <= i < |actions| ==> actions[i].AddGasPoint?
    decreases n
  {
    if n == 0 then [] else Backfill(rs, now, n - 1) + BackfillRound(rs, now, n - 1)
  }

  /** Chain record `d` once the first `n` back-filled samples of `c` have been appended. */
  function Backfilled(d: ChainData, c: Chain, rs: seq<real>, now: int, n: nat): ChainData
    requires |rs| == 6 * BackfillCount && n <= BackfillCount
  {
    d.(history := AppendAll(d.history, InitialPoints(c, rs, now, n)))
  }

  /** State `s` once the first `n` back-filled samples of every chain have been appended. */
  function BackfilledState(s: GasState, rs: seq<real>, now: int, n: nat): GasState
    requires |rs| == 6 * BackfillCount && n <= BackfillCount
  {
    s.(chains := Chains(Backfilled(s.chains.ethereum, Ethereum, rs, now, n),
                        Backfilled(s.chains.polygon, Polygon, rs, now, n),
                        Backfilled(s.chains.arbitrum, Arbitrum, rs, now, n)))
  }

  /** One more back-filled sample is one more capped append. */
  lemma BackfilledSnoc(d: ChainData, c: Chain, rs: seq<real>, now: int, n: nat)
    requires |rs| == 6 * BackfillCount && 0 < n <= BackfillCount
    ensures var e := Backfilled(d, c, rs, now, n - 1);
      Backfilled(d, c, rs, now, n) == e.(history := AppendCapped(e.history, InitialPoint(c, rs, now, n - 1)))
  {
    assert InitialPoints(c, rs, now, n)[..n - 1] == InitialPoints(c, rs, now, n - 1);
  }

  /** Running one back-fill iteration is the three `addGasPoint` calls in order. */
  lemma RunBackfillRound(s: GasState, rs: seq<real>, now: int, t: nat)
    requires |rs| == 6 * BackfillCount && t < BackfillCount
    ensures Run(s, BackfillRound(rs, now, t)) ==
      Step(Step(Step(s, AddGasPoint(Ethereum, InitialPoint(Ethereum, rs, now, t))),
                        AddGasPoint(Polygon, InitialPoint(Polygon, rs, now, t))),
                        AddGasPoint(Arbitrum, InitialPoint(Arbitrum, rs, now, t)))
  {
    var a := AddGasPoint(Ethereum, InitialPoint(Ethereum, rs, now, t));
    var b := AddGasPoint(Polygon, InitialPoint(Polygon, rs, now, t));
    var c := AddGasPoint(Arbitrum, InitialPoint(Arbitrum, rs, now, t));
    assert BackfillRound(rs, now, t) == [a] + [b] + [c];
    assert [] + [a] == [a];
    RunSnoc(s, [], a);
    RunSnoc(s, [a], b);
    RunSnoc(s, [a] + [b], c);
  }

  /** One back-fill iteration appends one sample to each chain and changes nothing else. */
  lemma BackfillRoundEffect(s: GasState, rs: seq<real>, now: int, t: nat)
    requires |rs| == 6 * BackfillCount && t < BackfillCount
    ensures Run(s, BackfillRound(rs, now, t)) == s.(chains := Chains(
      s.chains.ethereum.(history := AppendCapped(s.chains.ethereum.history, InitialPoint(Ethereum, rs, now, t))),
      s.chains.polygon.(history := AppendCapped(s.chains.polygon.history, InitialPoint(Polygon, rs, now, t))),
      s.chains.arbitrum.(history := AppendCapped(s.chains.arbitrum.history, InitialPoint(Arbitrum, rs, now, t)))))
  {
    RunBackfillRound(s, rs, now, t);
  }

  /**
   * The back-fill appends each chain's samples to its history, one capped append at a
   * time, and changes nothing else.
   */
  lemma {:induction false} BackfillEffect(s: GasState, rs: seq<real>, now: int, n: nat)
    requires |rs| == 6 * BackfillCount && n <= BackfillCount
    ensures Run(s, Backfill(rs, now, n)) == BackfilledState(s, rs, now, n)
    decreases n
  {
    if n > 0 {
      BackfillEffect(s, rs, now, n - 1);
      StoreProperties.RunAppend(s, Backfill(rs, now, n - 1), BackfillRound(rs, now, n - 1));
      BackfillRoundEffect(Run(s, Backfill(rs, now, n - 1)), rs, now, n - 1);
      BackfilledSnoc(s.chains.ethereum, Ethereum, rs, now, n);
      BackfilledSnoc(s.chains.polygon, Polygon, rs, now, n);
      BackfilledSnoc(s.chains.arbitrum, Arbitrum, rs, now, n);
    }
  }

  /** The partial that sets a chain's current reading from a sample and marks it connected. */
  function SnapshotPatch(latest: GasPoint): ChainPatch {
    NoChanges.(baseFee := Some(latest.baseFee), priorityFee := Some(latest.priorityFee),
               gasPrice := Some(latest.totalFee), isConnected := Some(true))
  }

  /** The "update current chain data" step for one chain, reading its history in `s`. */
  function SnapshotFor(s: GasState, c: Chain, now: int): (acts: seq<Action>)
    ensures |acts| <= 1 && (acts == [] <==> s.chains.Get(c).history == [])
    ensures forall i :: 0 <= i < |acts| ==> acts[i].UpdateChainData? && acts[i].chain == c
  {
    var h := s.chains.Get(c).history;
    if |h| > 0 then [UpdateChainData(c, SnapshotPatch(h[|h| - 1]), now)] else []
  }

  /**
   * The store actions of `generateInitialData` started in state `s`: the back-fill, then
   * the current-reading step for each chain. That step reads the histories from `s`, the
   * state the method read before the back-fill.
   */
  function InitialDataActions(s: GasState, rs: seq<real>, now: int): seq<Action>
    requires |rs| == 6 * BackfillCount
  {
    Backfill(rs, now, BackfillCount) + SnapshotFor(s, Ethereum, now) + SnapshotFor(s, Polygon, now) + SnapshotFor(s, Arbitrum, now)
  }

  /** Back-filling an empty history leaves exactly the back-filled samples. */
  lemma BackfilledFromEmpty(d: ChainData, c: Chain, rs: seq<real>, now: int)
    requires |rs| == 6 * BackfillCount && d.history == []
    ensures Backfilled(d, c, rs, now, BackfillCount) == d.(history := InitialPoints(c, rs, now, BackfillCount))
  {
    var ps := InitialPoints(c, rs, now, BackfillCount);
    StoreProperties.AppendAllKeepsNewest([], ps);
    assert [] + ps == ps;
  }

  /**
   * From a state whose histories are empty (as at start-up), `generateInitialData` leaves
   * each chain holding exactly its 100 back-filled samples, and the chain's current fees,
   * gas price, update time and connection flag as they were: the current-reading step sees
   * the empty histories it read before the back-fill and does nothing. Nothing outside the
   * chains changes.
   */
  lemma InitialDataFromEmpty(s: GasState, rs: seq<real>, now: int)
    requires |rs| == 6 * BackfillCount
    requires s.chains.ethereum.history == [] && s.chains.polygon.history == [] && s.chains.arbitrum.history == []
    ensures Run(s, InitialDataActions(s, rs, now)) == s.(chains := Chains(
      s.chains.ethereum.(history := InitialPoints(Ethereum, rs, now, BackfillCount)),
      s.chains.polygon.(history := InitialPoints(Polygon, rs, now, BackfillCount)),
      s.chains.arbitrum.(history := InitialPoints(Arbitrum, rs, now, BackfillCount))))
  {
    var backfill := Backfill(rs, now, BackfillCount);
    assert SnapshotFor(s, Ethereum, now) == [] && SnapshotFor(s, Polygon, now) == [] && SnapshotFor(s, Arbitrum, now) == [];
    assert InitialDataActions(s, rs, now) == backfill + [] + [] + [];
    assert backfill + [] + [] + [] == backfill;
    BackfillEffect(s, rs, now, BackfillCount);
    BackfilledFromEmpty(s.chains.ethereum, Ethereum, rs, now);
    BackfilledFromEmpty(s.chains.polygon, Polygon, rs, now);
    BackfilledFromEmpty(s.chains.arbitrum, Arbitrum, rs, now);
  }

  /** Every action of `generateInitialData` writes only the per-chain records. */
  lemma InitialDataTouchesChainsOnly(s: GasState, rs: seq<real>, now: int)
    requires |rs| == 6 * BackfillCount
    ensures forall i :: 0 <= i < |InitialDataActions(s, rs, now)| ==>
      StoreProperties.TouchesChainsOnly(InitialDataActions(s, rs, now)[i])
  {
  }

  // ---------------------------------------------------------------------------
  // Start-up

  /** The four `updateConnectionStatus(..., true)` calls and the opening ETH price. */
  function ConnectActions(now: int): seq<Action> {
    [ UpdateConnectionStatus(ChainFeed(Ethereum), true), UpdateConnectionStatus(ChainFeed(Polygon), true),
      UpdateConnectionStatus(ChainFeed(Arbitrum), true), UpdateConnectionStatus(Uniswap, true),
      UpdateUsdPrices(3200.0, None, now) ]
  }

  /**
   * Connecting marks every service connected and prices ETH at 3200 as of `now`; the
   * MATIC price and everything else stay as they were.
   */
  lemma ConnectEffect(s: GasState, now: int)
    ensures Run(s, ConnectActions(now)) == s.(connectionStatus := ConnectionStatus(true, true, true, true),
                                             ethUsdPrice := 3200.0, lastPriceUpdate := now)
  {
    var a := ConnectActions(now);
    assert a[..0] == [] && a[..1] == a[..0] + [a[0]] && a[..2] == a[..1] + [a[1]];
    assert a[..3] == a[..2] + [a[2]] && a[..4] == a[..3] + [a[3]] && a == a[..4] + [a[4]];
    RunSnoc(s, a[..0], a[0]);
    RunSnoc(s, a[..1], a[1]);
    RunSnoc(s, a[..2], a[2]);
    RunSnoc(s, a[..3], a[3]);
    RunSnoc(s, a[..4], a[4]);
  }

  /** The store actions of `startDemo` from state `s`. */
  function StartActions(s: GasState, rs: seq<real>, now: int): seq<Action>
    requires |rs| == 6 * BackfillCount
  {
    ConnectActions(now) + InitialDataActions(Run(s, ConnectActions(now)), rs, now)
  }

  /**
   * After start-up every service is connected (the header counts 4 of 4), ETH is priced
   * at 3200 as of `now`, the MATIC price, mode, simulation inputs and chart settings are
   * as they were.
   */
  lemma StartDemoEffect(s: GasState, rs: seq<real>, now: int)
    requires |rs| == 6 * BackfillCount
    ensures var t := Run(s, StartActions(s, rs, now));
      && (forall svc :: t.connectionStatus.Get(svc))
      && Dashboard.ConnectionCount(t.connectionStatus) == 4
      && t.ethUsdPrice == 3200.0 && t.lastPriceUpdate == now && t.maticUsdPrice == s.maticUsdPrice
      && t.mode == s.mode && t.simulation == s.simulation
      && t.chartTimeframe == s.chartTimeframe && t.selectedChain == s.selectedChain
  {
    var first := ConnectActions(now);
    var s1 := Run(s, first);
    ConnectEffect(s, now);
    StoreProperties.RunAppend(s, first, InitialDataActions(s1, rs, now));
    InitialDataTouchesChainsOnly(s1, rs, now);
    StoreProperties.RunTouchesChainsOnly(s1, InitialDataActions(s1, rs, now));
  }

  // ---------------------------------------------------------------------------
  // Timers and the service object

  /** What a timer runs when it fires. */
  datatype Task = GasTick | PriceTick

  datatype Timer = Timer(task: Task, periodMs: int)

  /** The gas tick every 6 seconds, the ETH price tick every 10. */
  const GasTimer: Timer := Timer(GasTick, 6000)
  const PriceTimer: Timer := Timer(PriceTick, 10000)

  /** The runtime's interval timers: live handles and the next handle to hand out. */
  class Timers {
    var active: map<nat, Timer>
    var nextId: nat

    ghost predicate Valid()
      reads this
    {
      forall h :: h in active ==> h < nextId
    }

    constructor ()
      ensures Valid() && active == map[]
    {
      active := map[];
      nextId := 1;
    }

    /** `setInterval`: registers a timer under a handle not in use. */
    method SetInterval(timer: Timer) returns (h: nat)
      requires Valid()
      modifies this
      ensures Valid()
      ensures h !in old(active) && active == old(active)[h := timer]
    {
      h := nextId;
      active := active[h := timer];
      nextId := nextId + 1;
    }

    /** `clearInterval`: removes the handle; an unknown handle is ignored. */
    method ClearInterval(h: nat)
      requires Valid()
      modifies this
      ensures Valid()
      ensures active == old(active) - {h}
    {
      active := active - {h};
    }
  }

  class DemoDataService {
    const store: Store
    const timers: Timers
    var intervals: seq<nat>

    /** The service starts the demo as soon as it is constructed. */
    constructor (store: Store, timers: Timers, rs: seq<real>, now: int)
      requires |rs| == 6 * BackfillCount && timers.Valid()
      modifies store, timers
      ensures this.store == store && this.timers == timers
      ensures store.state == Run(old(store.state), StartActions(old(store.state), rs, now))
      ensures timers.Valid() && |intervals| == 2
      ensures intervals[0] !in old(timers.active) && intervals[1] !in old(timers.active)
      ensures timers.active == old(timers.active)[intervals[0] := GasTimer][intervals[1] := PriceTimer]
    {
      this.store := store;
      this.timers := timers;
      intervals := [];
      new;
      StartDemo(rs, now);
    }

    /** Connects every service, prices ETH at 3200, back-fills, and starts the timers. */
    method StartDemo(rs: seq<real>, now: int)
      requires |rs| == 6 * BackfillCount && timers.Valid()
      modifies this, store, timers
      ensures store.state == Run(old(store.state), StartActions(old(store.state), rs, now))
      ensures timers.Valid() && |intervals| == |old(intervals)| + 2 && intervals[..|old(intervals)|] == old(intervals)
      ensures var g, p := intervals[|intervals| - 2], intervals[|intervals| - 1];
        && g !in old(timers.active) && p !in old(timers.active)
        && timers.active == old(timers.active)[g := GasTimer][p := PriceTimer]
    {
      ghost var s := store.state;
      store.UpdateConnectionStatus(ChainFeed(Ethereum), true);
      store.UpdateConnectionStatus(ChainFeed(Polygon), true);
      store.UpdateConnectionStatus(ChainFeed(Arbitrum), true);
      store.UpdateConnectionStatus(Uniswap, true);
      store.UpdateUsdPrices(3200.0, None, now);
      ghost var s1 := s.(connectionStatus := ConnectionStatus(true, true, true, true), ethUsdPrice := 3200.0, lastPriceUpdate := now);
      assert store.state == s1;
      ConnectEffect(s, now);
      GenerateInitialData(rs, now);
      assert store.state == Run(s1, InitialDataActions(s1, rs, now));
      StoreProperties.RunAppend(s, ConnectActions(now), InitialDataActions(s1, rs, now));
      assert store.state == Run(s, StartActions(s, rs, now));
      StartPeriodicUpdates();
    }

    /** Back-fills 100 samples per chain, then sets the current readings it had read. */
    method GenerateInitialData(rs: seq<real>, now: int)
      requires |rs| == 6 * BackfillCount
      modifies store
      ensures store.state == Run(old(store.state), InitialDataActions(old(store.state), rs, now))
    {
      var snapshot := store.state;
      var i := 99;
      while i >= 0
        invariant -1 <= i <= 99
        invariant store.state == BackfilledState(snapshot, rs, now, 99 - i)
      {
        var t := 99 - i;
        AddInitialPoints(rs, now, t);
        BackfilledSnoc(snapshot.chains.ethereum, Ethereum, rs, now, t + 1);
        BackfilledSnoc(snapshot.chains.polygon, Polygon, rs, now, t + 1);
        BackfilledSnoc(snapshot.chains.arbitrum, Arbitrum, rs, now, t + 1);
        i := i - 1;
      }
      BackfillEffect(snapshot, rs, now, BackfillCount);
      ghost var s1 := store.state;
      ghost var done := Backfill(rs, now, BackfillCount);

      SetCurrentReading(snapshot, Ethereum, now);
      StoreProperties.RunAppend(snapshot, done, SnapshotFor(snapshot, Ethereum, now));
      done := done + SnapshotFor(snapshot, Ethereum, now);

      SetCurrentReading(snapshot, Polygon, now);
      StoreProperties.RunAppend(snapshot, done, SnapshotFor(snapshot, Polygon, now));
      done := done + SnapshotFor(snapshot, Polygon, now);

      SetCurrentReading(snapshot, Arbitrum, now);
      StoreProperties.RunAppend(snapshot, done, SnapshotFor(snapshot, Arbitrum, now));
      done := done + SnapshotFor(snapshot, Arbitrum, now);
    }

    /** Back-fill iteration `t` (loop counter `99 - t`): one sample per chain. */
    method AddInitialPoints(rs: seq<real>, now: int, t: nat)
      requires |rs| == 6 * BackfillCount && t < BackfillCount
      modifies store
      ensures store.state == old(store.state).(chains := Chains(
        old(store.state).chains.ethereum.(history := AppendCapped(old(store.state).chains.ethereum.history, InitialPoint(Ethereum, rs, now, t))),
        old(store.state).chains.polygon.(history := AppendCapped(old(store.state).chains.polygon.history, InitialPoint(Polygon, rs, now, t))),
        old(store.state).chains.arbitrum.(history := AppendCapped(old(store.state).chains.arbitrum.history, InitialPoint(Arbitrum, rs, now, t)))))
    {
      var ethPoint := InitialPoint(Ethereum, rs, now, t);
      store.AddGasPoint(Ethereum, ethPoint);
      var polyPoint := InitialPoint(Polygon, rs, now, t);
      store.AddGasPoint(Polygon, polyPoint);
      var arbPoint := InitialPoint(Arbitrum, rs, now, t);
      store.AddGasPoint(Arbitrum, arbPoint);
    }

    /**
     * Sets chain `c`'s current reading from the newest sample of its history in
     * `snapshot`, the state read before the back-fill; nothing when that history is empty.
     */
    method SetCurrentReading(snapshot: GasState, c: Chain, now: int)
      modifies store
      ensures store.state == Run(old(store.state), SnapshotFor(snapshot, c, now))
    {
      var history := snapshot.chains.Get(c).history;
      if |history| > 0 {
        var latest := history[|history| - 1];
        store.UpdateChainData(c, SnapshotPatch(latest), now);
        RunSnoc(old(store.state), [], UpdateChainData(c, SnapshotPatch(latest), now));
      }
    }

    /** Starts the gas timer, then the price timer, and records both handles. */
    method StartPeriodicUpdates()
      requires timers.Valid()
      modifies this, timers
      ensures timers.Valid() && |intervals| == |old(intervals)| + 2 && intervals[..|old(intervals)|] == old(intervals)
      ensures var g, p := intervals[|intervals| - 2], intervals[|intervals| - 1];
        && g !in old(timers.active) && p !in old(timers.active)
        && timers.active == old(timers.active)[g := GasTimer][p := PriceTimer]
    {
      var gasInterval := timers.SetInterval(GasTimer);
      var priceInterval := timers.SetInterval(PriceTimer);
      intervals := intervals + [gasInterval, priceInterval];
    }

    /** One chain's walk, update and sample, from the record read when the tick began. */
    method TickChain(current: ChainData, chain: Chain, rBase: real, rPriority: real, now: int)
      modifies store
      ensures store.state == Run(old(store.state), ChainTick(current, chain, rBase, rPriority, now))
    {
      ghost var f := NextFees(current, chain, rBase, rPriority);
      var w := Walks(chain);
      var baseFee := Max(w.baseFloor, current.baseFee + (rBase - 0.5) * w.baseStep);
      var priorityFee := Max(w.priorityFloor, current.priorityFee + (rPriority - 0.5) * w.priorityStep);
      assert f == Fees(baseFee, priorityFee);
      store.UpdateChainData(chain, NoChanges.(baseFee := Some(baseFee), priorityFee := Some(priorityFee),
                                              gasPrice := Some(baseFee + priorityFee)), now);
      store.AddGasPoint(chain, GasPoint(now, baseFee, priorityFee, baseFee + priorityFee));
      assert TickPatch(f) == NoChanges.(baseFee := Some(baseFee), priorityFee := Some(priorityFee),
                                        gasPrice := Some(baseFee + priorityFee));
      assert TickPoint(f, now) == GasPoint(now, baseFee, priorityFee, baseFee + priorityFee);
      assert ChainTick(current, chain, rBase, rPriority, now)
        == [UpdateChainData(chain, TickPatch(f), now), AddGasPoint(chain, TickPoint(f, now))];
      RunPair(old(store.state), UpdateChainData(chain, TickPatch(f), now), AddGasPoint(chain, TickPoint(f, now)));
    }

    /** The gas tick: walks every chain from the state read at its start. */
    method UpdateGasPrices(rs: seq<real>, now: int)
      requires |rs| == 6
      modifies store
      ensures store.state == Run(old(store.state), TickActions(old(store.state), rs, now))
    {
      var snapshot := store.state;
      ghost var a := ChainTick(snapshot.chains.ethereum, Ethereum, rs[0], rs[1], now);
      ghost var b := ChainTick(snapshot.chains.polygon, Polygon, rs[2], rs[3], now);
      ghost var c := ChainTick(snapshot.chains.arbitrum, Arbitrum, rs[4], rs[5], now);
      TickChain(snapshot.chains.ethereum, Ethereum, rs[0], rs[1], now);
      TickChain(snapshot.chains.polygon, Polygon, rs[2], rs[3], now);
      TickChain(snapshot.chains.arbitrum, Arbitrum, rs[4], rs[5], now);
      StoreProperties.RunAppend(snapshot, a, b);
      StoreProperties.RunAppend(snapshot, a + b, c);
      assert ChainTicks(snapshot, rs, now) == a + b + c;
      if snapshot.mode == Simulation {
        store.CalculateSimulationCosts();
      }
      TickRun(snapshot, rs, now);
    }

    /** The price tick: moves ETH by at most 2%, keeping it at or above 1000. */
    method UpdateEthPrice(r: real, now: int)
      modifies store
      ensures store.state == Step(old(store.state), UpdateUsdPrices(NextEthPrice(old(store.state).ethUsdPrice, r), None, now))
    {
      var currentPrice := store.state.ethUsdPrice;
      var change := (r - 0.5) * 0.04;
      var newPrice := currentPrice * (1.0 + change);
      store.UpdateUsdPrices(Max(1000.0, newPrice), None, now);
    }

    /** Clears every timer the service started and forgets their handles. */
    method Stop()
      requires timers.Valid()
      modifies this, timers
      ensures intervals == [] && timers.Valid()
      ensures timers.active == old(timers.active) - (set h | h in old(intervals))
    {
      var i := 0;
      while i < |intervals|
        invariant 0 <= i <= |intervals| && intervals == old(intervals)
        invariant timers.Valid()
        invariant timers.active == old(timers.active) - (set j | 0 <= j < i :: intervals[j])
      {
        timers.ClearInterval(intervals[i]);
        i := i + 1;
      }
      assert (set j | 0 <= j < i :: intervals[j]) == (set h | h in old(intervals));
      intervals := [];
    }
  }
}
