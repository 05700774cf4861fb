/**
 * The gas telemetry store: a single state record holding the readings and bounded
 * histories of three chains, the ETH and MATIC USD prices, the simulation input and
 * results, the mode, the chart selection and four connection flags, and the
 * synchronous actions that replace parts of it.
 *
 * Every action is a constructor of `Action`; `Step` says what state it produces, and the
 * methods of class `Store` perform the update and are proved to agree with `Step`.
 * Fees and prices are exact reals, times are integer milliseconds, and the clock reading
 * an action stamps is an explicit `now` argument.
 */
module GasStore {
  import opened Wrappers

  datatype Chain = Ethereum | Polygon | Arbitrum

  /** The order in which the store's `chains` object lists its entries. */
  const AllChains: seq<Chain> := [Ethereum, Polygon, Arbitrum]

  /** Keys of the connection map: one feed per chain, and `uniswap`, the USD-price source. */
  datatype Service = ChainFeed(chain: Chain) | Uniswap

  datatype Mode = Live | Simulation

  /** The chart timeframes '15m', '1h', '4h' and '1d'. */
  datatype Timeframe = M15 | H1 | H4 | D1

  /** One history sample; fees are in gwei. */
  datatype GasPoint = GasPoint(timestamp: int, baseFee: real, priorityFee: real, totalFee: real)

  datatype ChainData = ChainData(
    name: string,
    symbol: string,
    baseFee: real,
    priorityFee: real,
    gasPrice: real,
    history: seq<GasPoint>,
    rpcUrl: string,
    explorer: string,
    color: string,
    lastUpdate: int,
    isConnected: bool)
  {
    /** The current total fee rate, base plus priority. */
    function CurrentTotal(): real {
      baseFee + priorityFee
    }
  }

  /** `Partial<ChainData>`: every field may be present or absent. */
  datatype ChainPatch = ChainPatch(
    name: Option<string>,
    symbol: Option<string>,
    baseFee: Option<real>,
    priorityFee: Option<real>,
    gasPrice: Option<real>,
    history: Option<seq<GasPoint>>,
    rpcUrl: Option<string>,
    explorer: Option<string>,
    color: Option<string>,
    lastUpdate: Option<int>,
    isConnected: Option<bool>)

  /** The empty partial `{}`. */
  const NoChanges: ChainPatch :=
    ChainPatch(None, None, None, None, None, None, None, None, None, None, None)

  /** The `chains` object: one record per chain. */
  datatype Chains = Chains(ethereum: ChainData, polygon: ChainData, arbitrum: ChainData) {

    function Get(c: Chain): ChainData {
      match c
      case Ethereum => ethereum
      case Polygon => polygon
      case Arbitrum => arbitrum
    }

    /** `{...chains, [c]: d}`: replaces one chain's record and keeps the others. */
    function With(c: Chain, d: ChainData): (r: Chains)
      ensures r.Get(c) == d
      ensures forall o :: o != c ==> r.Get(o) == Get(o)
    {
      match c
      case Ethereum => this.(ethereum := d)
      case Polygon => this.(polygon := d)
      case Arbitrum => this.(arbitrum := d)
    }
  }

  datatype ConnectionStatus = ConnectionStatus(ethereum: bool, polygon: bool, arbitrum: bool, uniswap: bool) {

    function Get(s: Service): bool {
      match s
      case ChainFeed(Ethereum) => ethereum
      case ChainFeed(Polygon) => polygon
      case ChainFeed(Arbitrum) => arbitrum
      case Uniswap => uniswap
    }

    /** `{...connectionStatus, [s]: b}`: sets one flag and keeps the others. */
    function With(s: Service, b: bool): (r: ConnectionStatus)
      ensures r.Get(s) == b
      ensures forall o :: o != s ==> r.Get(o) == Get(o)
    {
      match s
      case ChainFeed(Ethereum) => this.(ethereum := b)
      case ChainFeed(Polygon) => this.(polygon := b)
      case ChainFeed(Arbitrum) => this.(arbitrum := b)
      case Uniswap => this.(uniswap := b)
    }

    /** `Object.values(connectionStatus)`, in key order. */
    function Values(): seq<bool> {
      [ethereum, polygon, arbitrum, uniswap]
    }
  }

  datatype CostResult = CostResult(gasCostETH: real, gasCostUSD: real, totalCostUSD: real)

  /** One `[chainName, result]` entry of the `results` object, in insertion order. */
  datatype CostEntry = CostEntry(chain: Chain, cost: CostResult)

  datatype SimulationData = SimulationData(transactionValue: real, gasLimit: int, results: seq<CostEntry>)

  /** `Partial<SimulationData>`. */
  datatype SimulationPatch = SimulationPatch(
    transactionValue: Option<real>,
    gasLimit: Option<int>,
    results: Option<seq<CostEntry>>)

  datatype GasState = GasState(
    mode: Mode,
    chains: Chains,
    ethUsdPrice: real,
    maticUsdPrice: real,
    lastPriceUpdate: int,
    simulation: SimulationData,
    chartTimeframe: Timeframe,
    selectedChain: Chain,
    connectionStatus: ConnectionStatus)

  function InitialChain(name: string, symbol: string, rpcUrl: string, explorer: string, color: string): ChainData {
    ChainData(name, symbol, 0.0, 0.0, 0.0, [], rpcUrl, explorer, color, 0, false)
  }

  /** The state the store is created with. */
  const InitialState: GasState :=
    GasState(
      Live,
      Chains(
        InitialChain("Ethereum", "ETH", "wss://eth-mainnet.ws.alchemyapi.io/v2/demo", "https://etherscan.io", "ethereum"),
        InitialChain("Polygon", "MATIC", "wss://polygon-mainnet.ws.alchemyapi.io/v2/demo", "https://polygonscan.com", "polygon"),
        InitialChain("Arbitrum", "ETH", "wss://arb-mainnet.ws.alchemyapi.io/v2/demo", "https://arbiscan.io", "arbitrum")),
      0.0,
      0.0,
      0,
      SimulationData(0.1, 21000, []),
      M15,
      Ethereum,
      ConnectionStatus(false, false, false, false))

  // ---------------------------------------------------------------------------
  // History

  /** Number of samples a chain's history keeps. */
  const HistoryCap: nat := 1000

  /** `h.slice(-1000)`: the last 1000 samples, or all of them when there are fewer. */
  function Capped(h: seq<GasPoint>): (r: seq<GasPoint>)
    ensures |r| == if |h| < HistoryCap then |h| else HistoryCap
    ensures r == h[|h| - |r|..]
  {
    if |h| > HistoryCap then h[|h| - HistoryCap..] else h
  }

  /**
   * The history after `addGasPoint`: `p` appended, then trimmed to the newest 1000.
   * The result is a suffix of `h + [p]` (no reordering, no de-duplication) ending in `p`.
   */
  function AppendCapped(h: seq<GasPoint>, p: GasPoint): (r: seq<GasPoint>)
    ensures |r| == if |h| < HistoryCap then |h| + 1 else HistoryCap
    ensures r[|r| - 1] == p
    ensures r == (h + [p])[|h| + 1 - |r|..]
    ensures |h| < HistoryCap ==> r == h + [p]
    ensures |h| == HistoryCap ==> r == h[1..] + [p] && (h != [] ==> |r| == |h|)
  {
    var r := Capped(h + [p]);
    assert |h| == HistoryCap ==> r == h[1..] + [p] by {
      if |h| == HistoryCap {
        assert (h + [p])[1..] == h[1..] + [p];
      }
    }
    r
  }

  /** The history after `addGasPoint` has been called with each of `ps` in turn. */
  function AppendAll(h: seq<GasPoint>, ps: seq<GasPoint>): seq<GasPoint>
    decreases |ps|
  {
    if ps == [] then h else AppendCapped(AppendAll(h, ps[..|ps| - 1]), ps[|ps| - 1])
  }

  // ---------------------------------------------------------------------------
  // Partial merges

  /** The field after a spread merge: the patch's value when present, else the old one. */
  predicate Merged<T(==)>(field: Option<T>, before: T, after: T) {
    if field.Some? then after == field.value else after == before
  }

  /**
   * `{...d, ...p, lastUpdate: now}`: present fields are overwritten, absent ones kept,
   * and `lastUpdate` is the call time whatever the patch says.
   */
  function MergeChain(d: ChainData, p: ChainPatch, now: int): (r: ChainData)
    ensures r.lastUpdate == now
    ensures Merged(p.name, d.name, r.name) && Merged(p.symbol, d.symbol, r.symbol)
    ensures Merged(p.baseFee, d.baseFee, r.baseFee) && Merged(p.priorityFee, d.priorityFee, r.priorityFee)
    ensures Merged(p.gasPrice, d.gasPrice, r.gasPrice) && Merged(p.history, d.history, r.history)
    ensures Merged(p.rpcUrl, d.rpcUrl, r.rpcUrl) && Merged(p.explorer, d.explorer, r.explorer)
    ensures Merged(p.color, d.color, r.color) && Merged(p.isConnected, d.isConnected, r.isConnected)
  {
    ChainData(
      p.name.GetOr(d.name),
      p.symbol.GetOr(d.symbol),
      p.baseFee.GetOr(d.baseFee),
      p.priorityFee.GetOr(d.priorityFee),
      p.gasPrice.GetOr(d.gasPrice),
      p.history.GetOr(d.history),
      p.rpcUrl.GetOr(d.rpcUrl),
      p.explorer.GetOr(d.explorer),
      p.color.GetOr(d.color),
      now,
      p.isConnected.GetOr(d.isConnected))
  }

  /** `{...sim, ...p}`. */
  function MergeSimulation(sim: SimulationData, p: SimulationPatch): (r: SimulationData)
    ensures Merged(p.transactionValue, sim.transactionValue, r.transactionValue)
    ensures Merged(p.gasLimit, sim.gasLimit, r.gasLimit)
    ensures Merged(p.results, sim.results, r.results)
  {
    SimulationData(
      p.transactionValue.GetOr(sim.transactionValue),
      p.gasLimit.GetOr(sim.gasLimit),
      p.results.GetOr(sim.results))
  }

  /**
   * `maticPrice || current`: JavaScript's `||` treats an absent argument and 0 alike,
   * so the MATIC price is either kept or replaced by a non-zero argument.
   */
  function MaticAfter(current: real, maticPrice: Option<real>): (r: real)
    ensures r == current || (maticPrice == Some(r) && r != 0.0)
    ensures maticPrice.Some? && maticPrice.value != 0.0 ==> r == maticPrice.value
  {
    if maticPrice.Some? && maticPrice.value != 0.0 then maticPrice.value else current
  }

  // ---------------------------------------------------------------------------
  // Cost derivation

  /**
   * The program's own divisor, as written: it converts wei to ether, but the fees it divides
   * are in gwei, so every gas cost comes out 1e9 times smaller than the true ether cost.
   */
  const WeiPerEth: real := 1000000000000000000.0

  /** The USD price a chain's costs are converted with: MATIC for polygon, ETH otherwise. */
  function UsdPriceFor(c: Chain, ethUsdPrice: real, maticUsdPrice: real): real {
    if c == Polygon then maticUsdPrice else ethUsdPrice
  }

  /** The cost estimate for one chain, for a transaction of `transactionValue` ETH. */
  function CostOf(d: ChainData, gasLimit: int, transactionValue: real, usdPrice: real): (r: CostResult)
    ensures r.gasCostETH * WeiPerEth == d.CurrentTotal() * gasLimit as real
    ensures r.gasCostUSD == r.gasCostETH * usdPrice
    ensures r.totalCostUSD == r.gasCostUSD + transactionValue * usdPrice
  {
    var gasCostWei := (d.baseFee + d.priorityFee) * gasLimit as real;
    var gasCostETH := gasCostWei / WeiPerEth;
    var gasCostUSD := gasCostETH * usdPrice;
    var transactionValueUSD := transactionValue * usdPrice;
    CostResult(gasCostETH, gasCostUSD, gasCostUSD + transactionValueUSD)
  }

  function CostEntryFor(s: GasState, c: Chain): CostEntry {
    var usdPrice := UsdPriceFor(c, s.ethUsdPrice, s.maticUsdPrice);
    CostEntry(c, CostOf(s.chains.Get(c), s.simulation.gasLimit, s.simulation.transactionValue, usdPrice))
  }

  /**
   * The `results` object `calculateSimulationCosts` builds: one entry per chain, in the
   * order of `chains`, each obeying total = gas cost + transaction value, both in USD.
   */
  function CostTable(s: GasState): (r: seq<CostEntry>)
    ensures |r| == |AllChains|
    ensures forall i :: 0 <= i < |r| ==> r[i].chain == AllChains[i]
    ensures forall i :: 0 <= i < |r| ==>
      r[i].cost.totalCostUSD
        == r[i].cost.gasCostUSD + s.simulation.transactionValue * UsdPriceFor(r[i].chain, s.ethUsdPrice, s.maticUsdPrice)
  {
    [CostEntryFor(s, Ethereum), CostEntryFor(s, Polygon), CostEntryFor(s, Arbitrum)]
  }

  /** The loop body's arithmetic, step by step, yields the entry of `CostTable`. */
  lemma CostEntryOfFormula(s: GasState, c: Chain, usdPrice: real, gasCostETH: real, gasCostUSD: real, totalCostUSD: real)
    requires usdPrice == UsdPriceFor(c, s.ethUsdPrice, s.maticUsdPrice)
    requires gasCostETH == (s.chains.Get(c).baseFee + s.chains.Get(c).priorityFee) * s.simulation.gasLimit as real / WeiPerEth
    requires gasCostUSD == gasCostETH * usdPrice
    requires totalCostUSD == gasCostUSD + s.simulation.transactionValue * usdPrice
    ensures CostEntry(c, CostResult(gasCostETH, gasCostUSD, totalCostUSD)) == CostEntryFor(s, c)
  {
  }

  /** The loop of `calculateSimulationCosts`: fills `results` entry by entry. */
  method ComputeCosts(s: GasState) returns (results: seq<CostEntry>)
    ensures results == CostTable(s)
  {
    results := [];
    var i := 0;
    while i < |AllChains|
      invariant 0 <= i <= |AllChains|
      invariant results == CostTable(s)[..i]
    {
      var chainName := AllChains[i];
      var chainData := s.chains.Get(chainName);
      var gasCostWei := (chainData.baseFee + chainData.priorityFee) * s.simulation.gasLimit as real;
      var gasCostETH := gasCostWei / WeiPerEth;
      var usdPrice := s.ethUsdPrice;
      if chainName == Polygon {
        usdPrice := s.maticUsdPrice;
      }
      var gasCostUSD := gasCostETH * usdPrice;
      var transactionValueUSD := s.simulation.transactionValue * usdPrice;
      var totalCostUSD := gasCostUSD + transactionValueUSD;
      CostEntryOfFormula(s, chainName, usdPrice, gasCostETH, gasCostUSD, totalCostUSD);
      assert CostTable(s)[..i + 1] == CostTable(s)[..i] + [CostTable(s)[i]];
      results := results + [CostEntry(chainName, CostResult(gasCostETH, gasCostUSD, totalCostUSD))];
      i := i + 1;
    }
  }

  // ---------------------------------------------------------------------------
  // Actions

  datatype Action =
    | SetMode(mode: Mode)
    | UpdateChainData(chain: Chain, data: ChainPatch, now: int)
    | AddGasPoint(chain: Chain, point: GasPoint)
    | UpdateUsdPrices(ethPrice: real, maticPrice: Option<real>, now: int)
    | UpdateSimulation(patch: SimulationPatch)
    | SetChartTimeframe(timeframe: Timeframe)
    | SetSelectedChain(selected: Chain)
    | UpdateConnectionStatus(service: Service, status: bool)
    | CalculateSimulationCosts

  /** The state an action leaves behind. */
  function Step(s: GasState, a: Action): GasState {
    match a
    case SetMode(m) => s.(mode := m)
    case UpdateChainData(c, p, now) =>
      s.(chains := s.chains.With(c, MergeChain(s.chains.Get(c), p, now)))
    case AddGasPoint(c, pt) =>
      var d := s.chains.Get(c);
      s.(chains := s.chains.With(c, d.(history := AppendCapped(d.history, pt))))
    case UpdateUsdPrices(eth, matic, now) =>
      s.(ethUsdPrice := eth, maticUsdPrice := MaticAfter(s.maticUsdPrice, matic), lastPriceUpdate := now)
    case UpdateSimulation(p) => s.(simulation := MergeSimulation(s.simulation, p))
    case SetChartTimeframe(tf) => s.(chartTimeframe := tf)
    case SetSelectedChain(c) => s.(selectedChain := c)
    case UpdateConnectionStatus(svc, b) => s.(connectionStatus := s.connectionStatus.With(svc, b))
    case CalculateSimulationCosts => s.(simulation := s.simulation.(results := CostTable(s)))
  }

  /** The state after a sequence of actions, applied first to last. */
  function Run(s: GasState, actions: seq<Action>): GasState
    decreases |actions|
  {
    if actions == [] then s else Step(Run(s, actions[..|actions| - 1]), actions[|actions| - 1])
  }

  lemma RunSnoc(s: GasState, actions: seq<Action>, a: Action)
    ensures Run(s, actions + [a]) == Step(Run(s, actions), a)
  {
    assert (actions + [a])[..|actions|] == actions;
  }

  /** Two actions run one after the other. */
  lemma RunPair(s: GasState, a: Action, b: Action)
    ensures Run(s, [a, b]) == Step(Step(s, a), b)
  {
    RunSnoc(s, [a], b);
    RunSnoc(s, [], a);
    assert [a] + [b] == [a, b];
    assert [] + [a] == [a];
  }

  // ---------------------------------------------------------------------------
  // The store object

  class Store {
    var state: GasState

    constructor ()
      ensures state == InitialState
    {
      state := InitialState;
    }

    method SetMode(mode: Mode)
      modifies this
      ensures state == Step(old(state), Action.SetMode(mode))
    {
      state := state.(mode := mode);
    }

    method UpdateChainData(chain: Chain, data: ChainPatch, now: int)
      modifies this
      ensures state == Step(old(state), Action.UpdateChainData(chain, data, now))
    {
      var merged := MergeChain(state.chains.Get(chain), data, now);
      state := state.(chains := state.chains.With(chain, merged));
    }

    method AddGasPoint(chain: Chain, point: GasPoint)
      modifies this
      ensures state == Step(old(state), Action.AddGasPoint(chain, point))
    {
      var current := state.chains.Get(chain);
      var history := current.history + [point];
      var trimmedHistory := Capped(history);
      state := state.(chains := state.chains.With(chain, current.(history := trimmedHistory)));
    }

    method UpdateUsdPrices(ethPrice: real, maticPrice: Option<real>, now: int)
      modifies this
      ensures state == Step(old(state), Action.UpdateUsdPrices(ethPrice, maticPrice, now))
    {
      var matic := state.maticUsdPrice;
      if maticPrice.Some? && maticPrice.value != 0.0 {
        matic := maticPrice.value;
      }
      state := state.(ethUsdPrice := ethPrice, maticUsdPrice := matic, lastPriceUpdate := now);
    }

    method UpdateSimulation(data: SimulationPatch)
      modifies this
      ensures state == Step(old(state), Action.UpdateSimulation(data))
    {
      state := state.(simulation := MergeSimulation(state.simulation, data));
    }

    method SetChartTimeframe(timeframe: Timeframe)
      modifies this
      ensures state == Step(old(state), Action.SetChartTimeframe(timeframe))
    {
      state := state.(chartTimeframe := timeframe);
    }

    method SetSelectedChain(chain: Chain)
      modifies this
      ensures state == Step(old(state), Action.SetSelectedChain(chain))
    {
      state := state.(selectedChain := chain);
    }

    method UpdateConnectionStatus(service: Service, status: bool)
      modifies this
      ensures state == Step(old(state), Action.UpdateConnectionStatus(service, status))
    {
      state := state.(connectionStatus := state.connectionStatus.With(service, status));
    }

    /** Builds the whole `results` list from the current state, then commits it. */
    method CalculateSimulationCosts()
      modifies this
      ensures state == Step(old(state), Action.CalculateSimulationCosts)
    {
      var results := ComputeCosts(state);
      state := state.(simulation := state.simulation.(results := results));
    }
  }
}
