/**
 * TimeNode classification by the number of DAY tokens the owner holds
 * (`TIMENODE_STATUS` and the `nodeStatus` getter of the TimeNode store).
 */
module NodeTiers {
  import opened JsValues

  datatype Tier = Loading | MasterChronoNode | ChronoNode | TimeNode | Disabled

  const MasterChronoNodeMinBalance: int := 3333
  const ChronoNodeMinBalance: int := 888
  const TimeNodeMinBalance: int := 333

  /** The name the user interface shows for a tier. */
  function Name(t: Tier): string
  {
    match t
    case Loading => "Loading"
    case MasterChronoNode => "Master ChronoNode"
    case ChronoNode => "ChronoNode"
    case TimeNode => "TimeNode"
    case Disabled => "Disabled"
  }

  /** The tiers ordered by eligibility; `Loading` is not ranked. */
  function Rank(t: Tier): int
  {
    match t
    case Loading => -1
    case Disabled => 0
    case TimeNode => 1
    case ChronoNode => 2
    case MasterChronoNode => 3
  }

  /** The tier of a DAY balance and a TimeMint flag: null balance means still
      loading, then the thresholds are tried from the highest down, and the
      TimeMint flag alone lifts a node to the lowest enabled tier. */
  function NodeStatus(balanceDAY: Value, isTimeMint: Value): (tier: Tier)
    ensures tier == Loading <==> balanceDAY == Null
    ensures tier == Disabled <==>
              balanceDAY != Null && !AtLeast(balanceDAY, TimeNodeMinBalance) && !Truthy(isTimeMint)
  {
    if balanceDAY == Null then Loading
    else if AtLeast(balanceDAY, MasterChronoNodeMinBalance) then MasterChronoNode
    else if AtLeast(balanceDAY, ChronoNodeMinBalance) then ChronoNode
    else if AtLeast(balanceDAY, TimeNodeMinBalance) || Truthy(isTimeMint) then TimeNode
    else Disabled
  }

  /** A larger numeric balance never gives a lower tier. */
  lemma NodeStatusMonotone(a: int, b: int, isTimeMint: Value)
    requires a <= b
    ensures Rank(NodeStatus(Num(a), isTimeMint)) <= Rank(NodeStatus(Num(b), isTimeMint))
  {
  }

  /** The TimeMint flag only matters below the TimeNode threshold: it never
      lifts a node above the TimeNode tier, and it never disables one. */
  lemma TimeMintOnlyLiftsDisabled(balanceDAY: Value, isTimeMint: Value)
    ensures NodeStatus(balanceDAY, isTimeMint) != NodeStatus(balanceDAY, Bool(false)) ==>
              NodeStatus(balanceDAY, Bool(false)) == Disabled && NodeStatus(balanceDAY, isTimeMint) == TimeNode
  {
  }

  /** The tier boundaries at and just below each threshold. */
  lemma TierBoundaries()
    ensures NodeStatus(Num(3333), Bool(false)) == MasterChronoNode
    ensures NodeStatus(Num(3332), Bool(false)) == ChronoNode
    ensures NodeStatus(Num(888), Bool(false)) == ChronoNode
    ensures NodeStatus(Num(887), Bool(false)) == TimeNode
    ensures NodeStatus(Num(333), Bool(false)) == TimeNode
    ensures NodeStatus(Num(332), Bool(true)) == TimeNode
    ensures NodeStatus(Num(332), Bool(false)) == Disabled
    ensures NodeStatus(Null, Bool(true)) == Loading
    ensures NodeStatus(Undefined, Bool(false)) == Disabled
  {
  }

  /** A balance held as a decimal string is compared by its numeric value. */
  lemma StringBalanceTier()
    ensures NodeStatus(Str("5000"), Null) == MasterChronoNode
  {
    var s := "5000";
    assert DotIndex(s) == 4 by {
      assert DotIndex(s[1..][1..][1..][1..]) == 0;
    }
    assert s[..4] == s;
    assert DigitsValue(s) == 5000 by {
      assert s[..3] == "500" && "500"[..2] == "50" && "50"[..1] == "5" && "5"[..0] == "";
    }
  }

  /** The five names are pairwise distinct, so comparing names (as the
      store does) is comparing tiers. */
  lemma NamesDistinct(a: Tier, b: Tier)
    ensures Name(a) == Name(b) ==> a == b
  {
  }
}
