/** The dashboard header: the number of live connections and the price-update text. */
module Dashboard {
  import opened GasStore
  import opened TimeAgo

  /** `flags.filter(Boolean).length`. */
  function CountTrue(flags: seq<bool>): (n: nat)
    ensures n <= |flags|
    ensures n == 0 <==> forall i :: 0 <= i < |flags| ==> !flags[i]
    ensures n == |flags| <==> forall i :: 0 <= i < |flags| ==> flags[i]
    decreases |flags|
  {
    if flags == [] then 0
    else CountTrue(flags[..|flags| - 1]) + (if flags[|flags| - 1] then 1 else 0)
  }

  /** The number of connected services, out of the three chain feeds and the price source. */
  function ConnectionCount(cs: ConnectionStatus): (n: nat)
    ensures n <= 4
    ensures n == 4 <==> forall svc :: cs.Get(svc)
    ensures n == 0 <==> forall svc :: !cs.Get(svc)
  {
    var values := cs.Values();
    assert (forall svc :: cs.Get(svc)) <==> forall i :: 0 <= i < |values| ==> values[i] by {
      assert cs.Get(ChainFeed(Ethereum)) == values[0] && cs.Get(ChainFeed(Polygon)) == values[1];
      assert cs.Get(ChainFeed(Arbitrum)) == values[2] && cs.Get(Uniswap) == values[3];
    }
    assert (forall svc :: !cs.Get(svc)) <==> forall i :: 0 <= i < |values| ==> !values[i] by {
      assert cs.Get(ChainFeed(Ethereum)) == values[0] && cs.Get(ChainFeed(Polygon)) == values[1];
      assert cs.Get(ChainFeed(Arbitrum)) == values[2] && cs.Get(Uniswap) == values[3];
    }
    CountTrue(values)
  }

  /** The price-update text; "Never" exactly while `lastPriceUpdate` is 0. */
  function LastUpdateTime(s: GasState, now: int): (r: Ago)
    ensures r.Never? <==> s.lastPriceUpdate == 0
    ensures s.lastPriceUpdate != 0 && 0 <= now - s.lastPriceUpdate < 1000 ==> r == SecondsAgo(0)
  {
    Describe(s.lastPriceUpdate, now)
  }

  /** A price update read at the same (non-zero) clock shows "0s ago". */
  lemma PriceUpdateRefreshesText(s: GasState, eth: real, matic: Wrappers.Option<real>, now: int)
    requires now != 0
    ensures LastUpdateTime(Step(s, UpdateUsdPrices(eth, matic, now)), now) == SecondsAgo(0)
  {
  }

  function Bit(b: bool): nat {
    if b then 1 else 0
  }

  /** The count is the number of true flags, one by one. */
  lemma ConnectionCountIsSum(cs: ConnectionStatus)
    ensures ConnectionCount(cs) == Bit(cs.ethereum) + Bit(cs.polygon) + Bit(cs.arbitrum) + Bit(cs.uniswap)
  {
    var v1 := [cs.ethereum];
    var v2 := v1 + [cs.polygon];
    var v3 := v2 + [cs.arbitrum];
    var v4 := v3 + [cs.uniswap];
    assert v4 == cs.Values();
    assert v4[..3] == v3 && v3[..2] == v2 && v2[..1] == v1 && v1[..0] == [];
    assert CountTrue(v1) == Bit(cs.ethereum);
    assert CountTrue(v2) == CountTrue(v1) + Bit(cs.polygon);
    assert CountTrue(v3) == CountTrue(v2) + Bit(cs.arbitrum);
    assert CountTrue(v4) == CountTrue(v3) + Bit(cs.uniswap);
  }

  /** Setting one flag moves the count by at most one, in the flag's direction. */
  lemma ConnectionCountStep(cs: ConnectionStatus, svc: Service, b: bool)
    ensures var n, m := ConnectionCount(cs), ConnectionCount(cs.With(svc, b));
      if cs.Get(svc) == b then m == n
      else if b then m == n + 1
      else m + 1 == n
  {
    ConnectionCountIsSum(cs);
    ConnectionCountIsSum(cs.With(svc, b));
  }
}
