/** The station's live layout: which train is drawn on each platform, the
    list of approaching trains, and the four counters under the layout. */
module StationVisualization {
  import opened Seqs
  import opened StationTypes

  /** A train is drawn on its platform once it has arrived, or while it is
      delayed there. */
  predicate OnPlatform(t: TrainInfo, n: int)
  {
    t.platform == n && (t.status == Arrived || t.status == Delayed)
  }

  /** `getTrainOnPlatform(n)`: the first train in list order standing at
      platform `n`, if any. */
  function TrainOnPlatform(trains: seq<TrainInfo>, n: int): (r: Option<TrainInfo>)
    ensures r.None? <==> forall i :: 0 <= i < |trains| ==> !OnPlatform(trains[i], n)
    ensures r.Some? ==> exists k :: 0 <= k < |trains| && trains[k] == r.value && OnPlatform(trains[k], n)
                          && forall j :: 0 <= j < k ==> !OnPlatform(trains[j], n)
  {
    Find(trains, (t: TrainInfo) => OnPlatform(t, n))
  }

  /** The platform lookup never shows an approaching, on-time or departed
      train, nor one that belongs to another platform. */
  lemma TrainOnPlatformStatus(trains: seq<TrainInfo>, n: int)
    requires TrainOnPlatform(trains, n).Some?
    ensures var t := TrainOnPlatform(trains, n).value;
            t.platform == n && t.status != Approaching && t.status != OnTime && t.status != Departed
  {
    var k :| 0 <= k < |trains| && trains[k] == TrainOnPlatform(trains, n).value && OnPlatform(trains[k], n);
  }

  /** The "Approaching Trains" list, in schedule-list order. */
  function ApproachingTrains(trains: seq<TrainInfo>): (r: seq<TrainInfo>)
    ensures IsSubseq(r, trains)
    ensures forall i :: 0 <= i < |r| ==> r[i].status == Approaching
    ensures forall i :: 0 <= i < |trains| && trains[i].status == Approaching ==> trains[i] in r
    ensures forall t :: multiset(r)[t] == if t.status == Approaching then multiset(trains)[t] else 0
  {
    FilterIsSubseq(trains, (t: TrainInfo) => t.status == Approaching);
    Filter(trains, (t: TrainInfo) => t.status == Approaching)
  }

  /** A train is drawn in one place only: the train standing at a platform
      is never on the approaching list, and the approaching trains together
      with those at any one platform never outnumber the schedule. */
  lemma {:induction false} ApproachingDisjointFromPlatform(trains: seq<TrainInfo>, n: int)
    ensures TrainOnPlatform(trains, n).Some? ==> TrainOnPlatform(trains, n).value !in ApproachingTrains(trains)
    ensures |ApproachingTrains(trains)| + |Filter(trains, (t: TrainInfo) => OnPlatform(t, n))| <= |trains|
  {
    FilterDisjointCount(trains, (t: TrainInfo) => t.status == Approaching, (t: TrainInfo) => OnPlatform(t, n),
                        (t: TrainInfo) => t.status == Approaching || OnPlatform(t, n));
  }

  /** Free, Occupied and Maintenance leave reserved platforms out, so they
      add up to the number of platforms less the reserved ones. */
  lemma {:induction false} CountersBounded(platforms: seq<PlatformInfo>)
    ensures |PlatformsWith(platforms, Free)| + |PlatformsWith(platforms, Occupied)| + |PlatformsWith(platforms, Maintenance)|
         == |platforms| - |PlatformsWith(platforms, Reserved)|
    ensures |PlatformsWith(platforms, Free)| + |PlatformsWith(platforms, Occupied)| + |PlatformsWith(platforms, Maintenance)|
         <= |platforms|
  {
    StatusCountsPartition(platforms);
  }
}
