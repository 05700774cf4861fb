/** The per-chain widget: trend icon, displayed total fee and last-update text. */
module GasPriceWidget {
  import opened GasStore
  import opened TimeAgo

  /** The three icons: trending up, trending down, and the neutral activity icon. */
  datatype Trend = Up | Down | Neutral

  /** The trend of the last two samples' total fees; neutral with fewer than two. */
  function TrendOf(h: seq<GasPoint>): (t: Trend)
    ensures |h| < 2 ==> t == Neutral
    ensures |h| >= 2 ==> (t == Up <==> h[|h| - 1].totalFee > h[|h| - 2].totalFee)
    ensures |h| >= 2 ==> (t == Down <==> h[|h| - 1].totalFee < h[|h| - 2].totalFee)
    ensures |h| >= 2 ==> (t == Neutral <==> h[|h| - 1].totalFee == h[|h| - 2].totalFee)
  {
    if |h| < 2 then Neutral
    else
      var current := h[|h| - 1];
      var previous := h[|h| - 2];
      if current.totalFee > previous.totalFee then Up
      else if current.totalFee < previous.totalFee then Down
      else Neutral
  }

  /**
   * The "Total Gas Price" figure (before formatting): the per-gas rate the cost
   * derivation charges this chain for any gas limit.
   */
  function DisplayedTotal(d: ChainData): (r: real)
    ensures forall gasLimit: int, value: real, usd: real ::
      CostOf(d, gasLimit, value, usd).gasCostETH * WeiPerEth == r * gasLimit as real
  {
    d.CurrentTotal()
  }

  /** The chain's last-update text; "Never" exactly while `lastUpdate` is 0. */
  function LastUpdateTime(d: ChainData, now: int): (r: Ago)
    ensures r.Never? <==> d.lastUpdate == 0
    ensures d.lastUpdate != 0 && 0 <= now - d.lastUpdate < 1000 ==> r == SecondsAgo(0)
  {
    Describe(d.lastUpdate, now)
  }

  /**
   * `updateChainData` refreshes the text to "0s ago" (for a non-zero clock), while
   * `addGasPoint` leaves it as it was.
   */
  lemma UpdateRefreshesLastUpdate(s: GasState, c: Chain, patch: ChainPatch, p: GasPoint, now: int)
    requires now != 0
    ensures LastUpdateTime(Step(s, UpdateChainData(c, patch, now)).chains.Get(c), now) == SecondsAgo(0)
    ensures LastUpdateTime(Step(s, AddGasPoint(c, p)).chains.Get(c), now) == LastUpdateTime(s.chains.Get(c), now)
  {
  }
}
