/** The cargo record shared by the feed, the statistics, the insight message and the globe,
    and the four status strings the dashboard recognises. */
module CargoRecord {
  import opened Util

  const ON_TIME: string := "On Time"
  const DELAYED: string := "Delayed"
  const IN_TRANSIT: string := "In Transit"
  const DELIVERED: string := "Delivered"

  /** One shipment. Times are integer milliseconds since the epoch; `eta` is absent on records
      that carry no estimated arrival. Positions are degrees. */
  datatype Cargo = Cargo(
    id: string,
    kind: string,
    status: string,
    origin: string,
    destination: string,
    latitude: real,
    longitude: real,
    destLat: real,
    destLon: real,
    eta: Option<int>,
    progress: real,
    speed: real,
    size: real)

  /** The status counts as "on time" for the statistics: on time or already delivered. */
  predicate IsOnTimeOrDelivered(status: string) {
    status == ON_TIME || status == DELIVERED
  }

  /** Number of records whose status is on time or delivered. */
  function CountOnTimeOrDelivered(items: seq<Cargo>): (k: nat)
    ensures k <= |items|
    ensures k == 0 <==> forall i :: 0 <= i < |items| ==> !IsOnTimeOrDelivered(items[i].status)
    ensures k == |items| <==> forall i :: 0 <= i < |items| ==> IsOnTimeOrDelivered(items[i].status)
  {
    if items == [] then 0
    else (if IsOnTimeOrDelivered(items[0].status) then 1 else 0) + CountOnTimeOrDelivered(items[1..])
  }

  /** Number of records carrying exactly the given status. */
  function CountStatus(items: seq<Cargo>, status: string): (k: nat)
    ensures k <= |items|
    ensures k == 0 <==> forall i :: 0 <= i < |items| ==> items[i].status != status
  {
    if items == [] then 0
    else (if items[0].status == status then 1 else 0) + CountStatus(items[1..], status)
  }
}
