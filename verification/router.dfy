/**
 * The chain router `NetworkRouter` (talos/core/router.py).
 *
 * The network table is a dictionary kept in insertion order; here it is a
 * sequence of named entries.  A preferred chain that is ONLINE wins outright;
 * otherwise a scan in table order keeps the ONLINE chain with the strictly
 * smallest fee, starting from the fallback "SOLANA" at fee 999.0.
 */
module Router {
  import opened Wrappers

  const Online: string := "ONLINE"
  /** The route returned when no ONLINE chain is cheaper than the starting fee. */
  const DefaultChain: string := "SOLANA"
  /** The starting value of `min_fee`. */
  const StartingFee: real := 999.0

  datatype ChainStats = ChainStats(status: string, fee: real, speed: string)
  datatype Network = Network(name: string, stats: ChainStats)

  /** The table built by `NetworkRouter.__init__`, in insertion order. */
  function BuiltInNetworks(): seq<Network>
  {
    [ Network("SOLANA", ChainStats("ONLINE", 0.000005, "FAST")),
      Network("BASE", ChainStats("ONLINE", 0.0001, "MEDIUM")),
      Network("POLYGON", ChainStats("CONGESTED", 0.01, "SLOW")) ]
  }

  /** Dictionary keys are unique. */
  ghost predicate DistinctNames(nets: seq<Network>)
  {
    forall i, j | 0 <= i < j < |nets| :: nets[i].name != nets[j].name
  }

  /** `networks.get(name, {}).get("status")`: the status of the entry named `name`, if any. */
  function StatusOf(nets: seq<Network>, name: string): (r: Option<string>)
    ensures r.None? <==> forall i | 0 <= i < |nets| :: nets[i].name != name
    ensures r.Some? ==> exists i | 0 <= i < |nets| :: nets[i].name == name && nets[i].stats.status == r.value
  {
    if nets == [] then None
    else if nets[0].name == name then Some(nets[0].stats.status)
    else
      var r := StatusOf(nets[1..], name);
      assert forall i | 1 <= i < |nets| :: nets[i] == nets[1..][i - 1];
      r
  }

  /** The guard of the first branch: a non-empty preference whose entry is ONLINE. */
  predicate PreferenceApplies(nets: seq<Network>, preferred: Option<string>)
  {
    preferred.Some? && preferred.value != "" && StatusOf(nets, preferred.value) == Some(Online)
  }

  ghost predicate IsOnline(nets: seq<Network>, i: int)
    requires 0 <= i < |nets|
  {
    nets[i].stats.status == Online
  }

  /** An entry the fee scan can pick: ONLINE and cheaper than the starting fee. */
  ghost predicate Eligible(nets: seq<Network>, i: int)
    requires 0 <= i < |nets|
  {
    IsOnline(nets, i) && nets[i].stats.fee < StartingFee
  }

  /**
   * Entry `i` is the arg-min of the fee over the ONLINE entries, and the first
   * one in table order among those of that fee.
   */
  ghost predicate FirstCheapest(nets: seq<Network>, i: int)
  {
    && 0 <= i < |nets|
    && Eligible(nets, i)
    && (forall j | 0 <= j < |nets| && IsOnline(nets, j) :: nets[i].stats.fee <= nets[j].stats.fee)
    && (forall j | 0 <= j < i && IsOnline(nets, j) :: nets[i].stats.fee < nets[j].stats.fee)
  }

  /** The arg-min with first-seen tie-breaking names one entry at most. */
  lemma FirstCheapestIsUnique(nets: seq<Network>, i: int, k: int)
    requires FirstCheapest(nets, i) && FirstCheapest(nets, k)
    ensures i == k
  {
  }

  class NetworkRouter {
    var networks: seq<Network>

    constructor ()
      ensures networks == BuiltInNetworks() && DistinctNames(networks)
    {
      networks := BuiltInNetworks();
    }

    /** `get_best_route`; it reads the table and changes nothing. */
    method GetBestRoute(preferred: Option<string>) returns (route: string)
      ensures PreferenceApplies(networks, preferred) ==> route == preferred.value
      ensures (!PreferenceApplies(networks, preferred) && forall i | 0 <= i < |networks| :: !Eligible(networks, i))
        ==> route == DefaultChain
      ensures (!PreferenceApplies(networks, preferred) && exists i | 0 <= i < |networks| :: Eligible(networks, i))
        ==> exists i :: FirstCheapest(networks, i) && route == networks[i].name
    {
      if preferred.Some? && preferred.value != "" && StatusOf(networks, preferred.value) == Some(Online) {
        return preferred.value;
      }
      var nets := networks;
      var bestChain := DefaultChain;
      var minFee := StartingFee;
      ghost var best := -1;
      var n := 0;
      while n < |nets|
        invariant 0 <= n <= |nets|
        invariant -1 <= best < n
        invariant best == -1 ==> bestChain == DefaultChain && minFee == StartingFee
        invariant best == -1 ==> forall j | 0 <= j < n :: !Eligible(nets, j)
        invariant best >= 0 ==> Eligible(nets, best) && bestChain == nets[best].name && minFee == nets[best].stats.fee
        invariant forall j | 0 <= j < n && IsOnline(nets, j) :: minFee <= nets[j].stats.fee
        invariant best >= 0 ==> forall j | 0 <= j < best && IsOnline(nets, j) :: minFee < nets[j].stats.fee
      {
        if nets[n].stats.status == Online && nets[n].stats.fee < minFee {
          bestChain := nets[n].name;
          minFee := nets[n].stats.fee;
          best := n;
        }
        n := n + 1;
      }
      if best >= 0 {
        assert FirstCheapest(nets, best);
      }
      route := bestChain;
    }
  }

  /**
   * The built-in table: no preference routes to SOLANA, an ONLINE preference
   * (BASE) is honoured although SOLANA is cheaper, and a CONGESTED preference
   * (POLYGON) is ignored.
   */
  method BuiltInRoutes() returns (noPreference: string, preferBase: string, preferPolygon: string)
    ensures noPreference == "SOLANA" && preferBase == "BASE" && preferPolygon == "SOLANA"
  {
    var router := new NetworkRouter();
    noPreference := router.GetBestRoute(None);
    preferBase := router.GetBestRoute(Some("BASE"));
    preferPolygon := router.GetBestRoute(Some("POLYGON"));
  }
}
