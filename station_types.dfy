/** The records the station master's page hands to its three station
    components (the visualisation, the platform list and the schedule):
    trains with a platform and a scheduled time, platforms with an
    occupancy status, and the station's summary figures. */
module StationTypes {
  import opened Seqs

  datatype TrainKind = Express | Passenger | Freight | Local
  datatype TrainState = OnTime | Delayed | Arrived | Departed | Approaching
  datatype Direction = Arrival | Departure

  datatype TrainInfo = TrainInfo(
    id: string, name: string, number: string, kind: TrainKind,
    platform: int, scheduledTime: string, actualTime: string,
    status: TrainState, delay: int, direction: Direction)

  datatype PlatformState = Occupied | Free | Maintenance | Reserved

  datatype PlatformInfo = PlatformInfo(
    number: int, status: PlatformState, trainId: Option<string>,
    trainName: Option<string>, estimatedClearTime: Option<string>,
    nextTrain: Option<string>)

  datatype StationData = StationData(
    id: string, name: string, code: string, totalPlatforms: int,
    activePlatforms: int, occupiedPlatforms: int, trainsInStation: int,
    upcomingArrivals: int, departuresNext30Min: int, avgDwellTime: real,
    lastUpdate: string)

  /** An optional text is truthy when it is present and not empty. */
  predicate Present(o: Option<string>)
  {
    o.Some? && o.value != ""
  }

  /** `platforms.filter(p => p.status === st)`. */
  function PlatformsWith(platforms: seq<PlatformInfo>, st: PlatformState): (r: seq<PlatformInfo>)
    ensures IsSubseq(r, platforms)
    ensures forall i :: 0 <= i < |r| ==> r[i].status == st
    ensures forall i :: 0 <= i < |platforms| && platforms[i].status == st ==> platforms[i] in r
    ensures forall p :: multiset(r)[p] == if p.status == st then multiset(platforms)[p] else 0
  {
    FilterIsSubseq(platforms, (p: PlatformInfo) => p.status == st);
    Filter(platforms, (p: PlatformInfo) => p.status == st)
  }

  /** Every platform has exactly one of the four statuses, so the four
      status counts add up to the number of platforms. */
  lemma {:induction false} StatusCountsPartition(platforms: seq<PlatformInfo>)
    ensures |PlatformsWith(platforms, Free)| + |PlatformsWith(platforms, Occupied)|
          + |PlatformsWith(platforms, Maintenance)| + |PlatformsWith(platforms, Reserved)| == |platforms|
  {
    var free := (p: PlatformInfo) => p.status == Free;
    var occupied := (p: PlatformInfo) => p.status == Occupied;
    var maintenance := (p: PlatformInfo) => p.status == Maintenance;
    var reserved := (p: PlatformInfo) => p.status == Reserved;
    var fo := (p: PlatformInfo) => p.status == Free || p.status == Occupied;
    var fom := (p: PlatformInfo) => p.status != Reserved;
    var any := (p: PlatformInfo) => true;
    FilterDisjointCount(platforms, free, occupied, fo);
    FilterDisjointCount(platforms, fo, maintenance, fom);
    FilterDisjointCount(platforms, fom, reserved, any);
    FilterAll(platforms, any);
  }
}
