/**
 * The simulation panel: picking the cheapest chain from the results, the two input
 * handlers that parse-or-default what the user types, and the mode toggle.
 */
module SimulationPanel {
  import opened Wrappers
  import opened GasStore

  /** `{ chain, cost }` as the fold accumulates it. */
  datatype Cheapest = Cheapest(chain: Chain, cost: real)

  /** Entry `i` is a minimum, and every earlier entry is strictly dearer. */
  ghost predicate FirstMinimumAt(entries: seq<CostEntry>, i: int) {
    && 0 <= i < |entries|
    && (forall j :: 0 <= j < |entries| ==> entries[i].cost.totalCostUSD <= entries[j].cost.totalCostUSD)
    && (forall j :: 0 <= j < i ==> entries[j].cost.totalCostUSD > entries[i].cost.totalCostUSD)
  }

  /**
   * One step of the `reduce`: a strictly cheaper entry replaces the accumulator, so the
   * result costs no more than either, and an entry of equal cost keeps the earlier one.
   */
  function CheaperOf(acc: Option<Cheapest>, e: CostEntry): (r: Option<Cheapest>)
    ensures r.Some? && r.value.cost <= e.cost.totalCostUSD
    ensures acc.Some? ==> r.value.cost <= acc.value.cost
    ensures r == acc || r == Some(Cheapest(e.chain, e.cost.totalCostUSD))
    ensures acc.Some? && e.cost.totalCostUSD == acc.value.cost ==> r == acc
  {
    if acc.None? || e.cost.totalCostUSD < acc.value.cost then Some(Cheapest(e.chain, e.cost.totalCostUSD))
    else acc
  }

  /**
   * `entries.reduce(step, null)`: the first entry, in iteration order, among those of least
   * total cost; a later entry of equal cost never displaces it.
   */
  function ReduceCheapest(entries: seq<CostEntry>): (r: Option<Cheapest>)
    ensures r.None? <==> entries == []
    ensures r.Some? ==>
      exists i :: FirstMinimumAt(entries, i) && r.value == Cheapest(entries[i].chain, entries[i].cost.totalCostUSD)
    decreases |entries|
  {
    if entries == [] then None
    else
      var prefix := entries[..|entries| - 1];
      var acc := ReduceCheapest(prefix);
      var last := entries[|entries| - 1];
      var r := CheaperOf(acc, last);
      assert r.Some? ==>
        exists i :: FirstMinimumAt(entries, i) && r.value == Cheapest(entries[i].chain, entries[i].cost.totalCostUSD)
      by {
        if acc.None? {
          assert FirstMinimumAt(entries, 0);
        } else {
          var i :| FirstMinimumAt(prefix, i) && acc.value == Cheapest(prefix[i].chain, prefix[i].cost.totalCostUSD);
          if last.cost.totalCostUSD < acc.value.cost {
            assert FirstMinimumAt(entries, |entries| - 1);
          } else {
            assert FirstMinimumAt(entries, i);
          }
        }
      }
      r
  }

  /**
   * `getCheapestChain`: null exactly for an empty `results`; otherwise a chain of
   * `results` with that entry's total cost, no greater than any entry's total, and the
   * earliest such entry on ties.
   */
  function GetCheapestChain(results: seq<CostEntry>): (r: Option<Cheapest>)
    ensures r.None? <==> results == []
    ensures r.Some? ==>
      exists i :: (
        && 0 <= i < |results|
        && results[i].chain == r.value.chain && results[i].cost.totalCostUSD == r.value.cost
        && (forall j :: 0 <= j < i ==> results[j].cost.totalCostUSD > r.value.cost))
    ensures r.Some? ==> forall j :: 0 <= j < |results| ==> r.value.cost <= results[j].cost.totalCostUSD
  {
    if |results| == 0 then None else ReduceCheapest(results)
  }

  /** After a cost calculation there is always a cheapest chain. */
  lemma CheapestAfterCalculation(s: GasState)
    ensures GetCheapestChain(Step(s, CalculateSimulationCosts).simulation.results).Some?
  {
  }

  /**
   * `parseFloat(value) || 0`, given what `parseFloat` read (None for NaN): a number that
   * does not parse is stored as 0, and since a parsed 0 is stored as 0 too, this is the
   * parsed number whenever there is one.
   */
  function TransactionValueInput(parsed: Option<real>): (v: real)
    ensures v == parsed.GetOr(0.0)
  {
    if parsed.Some? && parsed.value != 0.0 then parsed.value else 0.0
  }

  /** The default gas limit of a plain transfer. */
  const DefaultGasLimit: int := 21000

  /**
   * `parseInt(value) || 21000`, given what `parseInt` read (None for NaN): an unparsable or
   * zero limit becomes 21000, any other integer, negatives included, is kept. The stored
   * limit is never 0.
   */
  function GasLimitInput(parsed: Option<int>): (g: int)
    ensures g != 0
    ensures parsed.Some? && parsed.value != 0 ==> g == parsed.value
    ensures parsed.None? || parsed.value == 0 ==> g == DefaultGasLimit
  {
    if parsed.Some? && parsed.value != 0 then parsed.value else DefaultGasLimit
  }

  /** The mode the toggle button switches to: always the other one. */
  function Toggled(m: Mode): (r: Mode)
    ensures r != m
  {
    if m == Live then Simulation else Live
  }

  lemma ToggleTwiceRestores(m: Mode)
    ensures Toggled(Toggled(m)) == m
  {
  }

  /** The panel's own input fields (React state), holding what the user typed. */
  class SimulationForm {
    var transactionValueText: string
    var gasLimitText: string

    /** The fields start as the store's values written out as text. */
    constructor (transactionValueText: string, gasLimitText: string)
      ensures this.transactionValueText == transactionValueText
      ensures this.gasLimitText == gasLimitText
    {
      this.transactionValueText := transactionValueText;
      this.gasLimitText := gasLimitText;
    }

    /** Keeps the typed text and stores the parsed-or-defaulted transaction value. */
    method HandleTransactionValueChange(store: Store, value: string, parsed: Option<real>)
      modifies this, store
      ensures transactionValueText == value && gasLimitText == old(gasLimitText)
      ensures store.state == Step(old(store.state), UpdateSimulation(SimulationPatch(Some(TransactionValueInput(parsed)), None, None)))
    {
      transactionValueText := value;
      var numValue := if parsed.Some? && parsed.value != 0.0 then parsed.value else 0.0;
      store.UpdateSimulation(SimulationPatch(Some(numValue), None, None));
    }

    /** Keeps the typed text and stores the parsed-or-defaulted gas limit. */
    method HandleGasLimitChange(store: Store, value: string, parsed: Option<int>)
      modifies this, store
      ensures gasLimitText == value && transactionValueText == old(transactionValueText)
      ensures store.state == Step(old(store.state), UpdateSimulation(SimulationPatch(None, Some(GasLimitInput(parsed)), None)))
    {
      gasLimitText := value;
      var numValue := if parsed.Some? && parsed.value != 0 then parsed.value else DefaultGasLimit;
      store.UpdateSimulation(SimulationPatch(None, Some(numValue), None));
    }

    /** Switches the store's mode between live and simulation. */
    method ToggleMode(store: Store)
      modifies store
      ensures store.state == Step(old(store.state), SetMode(Toggled(old(store.state).mode)))
    {
      store.SetMode(if store.state.mode == Live then Simulation else Live);
    }
  }
}
