/** The platform list: the platforms in ascending number order, each with a
    status badge and the detail lines its status calls for, and the
    Available/Occupied summary. */
module PlatformStatus {
  import opened Seqs
  import opened Sorting
  import opened StationTypes

  /** The badge text of each status. */
  function StatusText(st: PlatformState): (r: string)
    ensures |r| > 0
  {
    match st
    case Occupied => "OCCUPIED"
    case Free => "AVAILABLE"
    case Maintenance => "MAINTENANCE"
    case Reserved => "RESERVED"
  }

  /** Different statuses get different badges, so the badge tells the
      status back. */
  lemma StatusTextInjective(a: PlatformState, b: PlatformState)
    ensures StatusText(a) == StatusText(b) <==> a == b
  {
    if a != b {
      assert StatusText(a)[0] != StatusText(b)[0];
    }
  }

  function PlatformNumber(p: PlatformInfo): int
  {
    p.number
  }

  /** `a.number - b.number`: the smaller number first. */
  predicate LowerFirst(a: int, b: int)
  {
    a < b
  }

  lemma LowerFirstIsStrictTotalOrder()
    ensures StrictTotalOrder(LowerFirst)
  {
  }

  /** `[...platforms].sort(...)`: a reordered copy in ascending number
      order; the list it was made from is left as it was. */
  function SortedPlatforms(platforms: seq<PlatformInfo>): (r: seq<PlatformInfo>)
    ensures multiset(r) == multiset(platforms) && |r| == |platforms|
    ensures forall i, j :: 0 <= i < j < |r| ==> r[i].number <= r[j].number
  {
    LowerFirstIsStrictTotalOrder();
    SortBySorted(platforms, PlatformNumber, LowerFirst);
    SortBy(platforms, PlatformNumber, LowerFirst)
  }

  /** Platforms sharing a number keep their original relative order. */
  lemma {:induction false} SortedPlatformsStable(platforms: seq<PlatformInfo>, n: int)
    ensures KeyClass(SortedPlatforms(platforms), PlatformNumber, n) == KeyClass(platforms, PlatformNumber, n)
  {
    LowerFirstIsStrictTotalOrder();
    SortByStable(platforms, PlatformNumber, LowerFirst, n);
  }

  /** "Current Train: ...". */
  predicate ShowsCurrentTrain(p: PlatformInfo)
  {
    p.status == Occupied && Present(p.trainName)
  }

  /** "Est. Clear: ...", inside the current-train block. */
  predicate ShowsClearTime(p: PlatformInfo)
  {
    ShowsCurrentTrain(p) && Present(p.estimatedClearTime)
  }

  /** "Next: ...". */
  predicate ShowsNextTrain(p: PlatformInfo)
  {
    p.status == Free && Present(p.nextTrain)
  }

  /** "Under maintenance - unavailable". */
  predicate ShowsMaintenance(p: PlatformInfo)
  {
    p.status == Maintenance
  }

  /** "Reserved for: ...". */
  predicate ShowsReservedFor(p: PlatformInfo)
  {
    p.status == Reserved && Present(p.nextTrain)
  }

  /** A platform card shows at most one detail block, the one of its own
      status; the clear time only ever appears together with the current
      train. */
  lemma DetailsExclusive(p: PlatformInfo)
    ensures ShowsCurrentTrain(p) ==> !ShowsNextTrain(p) && !ShowsMaintenance(p) && !ShowsReservedFor(p)
    ensures ShowsNextTrain(p) ==> !ShowsMaintenance(p) && !ShowsReservedFor(p)
    ensures ShowsMaintenance(p) ==> !ShowsReservedFor(p)
    ensures ShowsClearTime(p) ==> ShowsCurrentTrain(p)
    ensures ShowsCurrentTrain(p) ==> p.status == Occupied && p.trainName.Some?
    ensures ShowsReservedFor(p) ==> p.status == Reserved && p.nextTrain.Some?
  {
  }

  /** The Available and Occupied figures: the free and the occupied
      platforms, which together are never more than all platforms. */
  lemma {:induction false} SummaryBounded(platforms: seq<PlatformInfo>)
    ensures |PlatformsWith(platforms, Free)| + |PlatformsWith(platforms, Occupied)|
         == |platforms| - |PlatformsWith(platforms, Maintenance)| - |PlatformsWith(platforms, Reserved)|
    ensures |PlatformsWith(platforms, Free)| + |PlatformsWith(platforms, Occupied)| <= |platforms|
  {
    StatusCountsPartition(platforms);
  }

  /** Sorting for display does not change the summary. */
  lemma {:induction false} SortingKeepsCounts(platforms: seq<PlatformInfo>, st: PlatformState)
    ensures |PlatformsWith(SortedPlatforms(platforms), st)| == |PlatformsWith(platforms, st)|
  {
    FilterPermutationCount(SortedPlatforms(platforms), platforms, (p: PlatformInfo) => p.status == st);
  }
}
