/** The mock cargo feed: generation of a fleet of shipments between six ports, and the
    per-interval movement step. The great-circle distance and the "move towards" step are
    floating-point trigonometry; they are parameters here (`distanceKm`, `move`), as are the
    random samples (values in [0, 1)) and the clock (`now`, integer milliseconds). */
module CargoService {
  import opened Util
  import opened CargoRecord

  datatype LatLon = LatLon(lat: real, lon: real)

  datatype Port = Port(name: string, position: LatLon)

  /** The ports in the order their names are enumerated. */
  const PORTS: seq<Port> := [
    Port("Shanghai", LatLon(31.2304, 121.4737)),
    Port("Singapore", LatLon(1.3521, 103.8198)),
    Port("Rotterdam", LatLon(51.9225, 4.4792)),
    Port("Los Angeles", LatLon(34.0522, -118.2437)),
    Port("Dubai", LatLon(25.276987, 55.296249)),
    Port("New York", LatLon(40.7128, -74.006))
  ]

  const CARGO_TYPES: seq<string> := ["Container", "Bulk", "Liquid", "Refrigerated"]

  const DEFAULT_COUNT: nat := 10
  /** Average ship speed in km/h. */
  const SPEED: real := 30.0
  /** Movement step handed to the "move towards" function, in degrees. */
  const STEP_DEGREES: real := 0.2
  /** A shipment this close to its destination (km) after moving counts as arrived. */
  const ARRIVAL_KM: real := 5.0
  const MS_PER_HOUR: real := 3600000.0

  /** The truncation `new Date(x)` applies to a millisecond count. */
  function Trunc(x: real): int {
    if x >= 0.0 then x.Floor else -((-x).Floor)
  }

  /** The random samples one generated shipment consumes, in the order they are drawn:
      the origin, the destination draws of the do-while loop, the cargo type and the size. */
  datatype ItemDraws = ItemDraws(origin: Sample, destinations: seq<Sample>, kind: Sample, size: Sample)

  function PortOf(u: Sample): Port {
    PORTS[Pick(u, |PORTS|)]
  }

  /** The position of the first draw that names a port other than `originName`, if any. */
  function FirstDifferent(draws: seq<Sample>, originName: string): (r: Option<nat>)
    ensures r.Some? ==> r.value < |draws| && PortOf(draws[r.value]).name != originName
    ensures r.Some? ==> forall k :: 0 <= k < r.value ==> PortOf(draws[k]).name == originName
    ensures r.None? ==> forall k :: 0 <= k < |draws| ==> PortOf(draws[k]).name == originName
  {
    if draws == [] then None
    else if PortOf(draws[0]).name != originName then Some(0)
    else match FirstDifferent(draws[1..], originName)
      case None => None
      case Some(k) => Some(k + 1)
  }

  /** The do-while loop ends: some destination draw names a port other than the origin. */
  predicate DrawsTerminate(d: ItemDraws) {
    FirstDifferent(d.destinations, PortOf(d.origin).name).Some?
  }

  /** The destination the do-while loop settles on. */
  function Destination(d: ItemDraws): (dest: Port)
    requires DrawsTerminate(d)
    ensures dest in PORTS && dest.name != PortOf(d.origin).name
  {
    PortOf(d.destinations[FirstDifferent(d.destinations, PortOf(d.origin).name).value])
  }

  /** The do-while loop of generateMockCargoData: draw destinations until one differs from
      the origin. The result is the first draw that does. */
  method PickDestination(d: ItemDraws) returns (dest: Port, drawn: nat)
    requires DrawsTerminate(d)
    ensures drawn < |d.destinations| && dest == PortOf(d.destinations[drawn])
    ensures dest.name != PortOf(d.origin).name
    ensures forall k :: 0 <= k < drawn ==> PortOf(d.destinations[k]).name == PortOf(d.origin).name
    ensures dest == Destination(d)
  {
    var origin := PortOf(d.origin);
    ghost var w := FirstDifferent(d.destinations, origin.name).value;
    drawn := 0;
    dest := PortOf(d.destinations[0]);
    while dest.name == origin.name
      invariant drawn <= w
      invariant dest == PortOf(d.destinations[drawn])
      invariant forall k :: 0 <= k < drawn ==> PortOf(d.destinations[k]).name == origin.name
      decreases w - drawn
    {
      drawn := drawn + 1;
      dest := PortOf(d.destinations[drawn]);
    }
  }

  /** The identifier of the i-th generated shipment. */
  function CargoId(i: nat): string {
    "CARGO-" + NatToString(1000 + i)
  }

  /** Different positions in the generated list get different identifiers. */
  lemma CargoIdInjective(i: nat, j: nat)
    requires i != j
    ensures CargoId(i) != CargoId(j)
  {
    NatToStringInjective(1000 + i, 1000 + j);
    PrefixCancel("CARGO-", NatToString(1000 + i), NatToString(1000 + j));
  }

  /** What the generator promises of one new shipment. */
  predicate IsFreshCargo(c: Cargo, i: nat, d: ItemDraws, now: nat, distanceKm: (LatLon, LatLon) -> real) {
    var origin := PortOf(d.origin);
    && c.id == CargoId(i)
    && c.origin == origin.name
    && DrawsTerminate(d)
    && var dest := Destination(d);
    && c.destination == dest.name && c.destination != c.origin
    && c.destLat == dest.position.lat && c.destLon == dest.position.lon
    && c.eta == Some(Trunc(now as real + distanceKm(origin.position, dest.position) / SPEED * MS_PER_HOUR))
    && c.latitude == origin.position.lat && c.longitude == origin.position.lon
    && c.status == IN_TRANSIT
    && c.kind == CARGO_TYPES[Pick(d.kind, |CARGO_TYPES|)]
    && c.progress == 0.0 && c.speed == SPEED
    && 2.0 <= c.size < 4.0
  }

  /** The i-th generated shipment, as a function of the samples it draws. */
  function MockCargo(i: nat, d: ItemDraws, now: nat, distanceKm: (LatLon, LatLon) -> real): Cargo
    requires DrawsTerminate(d)
  {
    var origin, dest := PortOf(d.origin), Destination(d);
    var etaMs := distanceKm(origin.position, dest.position) / SPEED * MS_PER_HOUR;
    Cargo(
      id := CargoId(i),
      kind := CARGO_TYPES[Pick(d.kind, |CARGO_TYPES|)],
      status := IN_TRANSIT,
      origin := origin.name,
      destination := dest.name,
      latitude := origin.position.lat,
      longitude := origin.position.lon,
      destLat := dest.position.lat,
      destLon := dest.position.lon,
      eta := Some(Trunc(now as real + etaMs)),
      progress := 0.0,
      speed := SPEED,
      size := d.size * 2.0 + 2.0)
  }

  /** Every generated shipment is fresh: it sits at its origin port, in transit, bound for a
      different port, with the fixed speed and no progress yet. */
  lemma MockCargoIsFresh(i: nat, d: ItemDraws, now: nat, distanceKm: (LatLon, LatLon) -> real)
    requires DrawsTerminate(d)
    ensures IsFreshCargo(MockCargo(i, d, now, distanceKm), i, d, now, distanceKm)
  {
  }

  /** generateMockCargoData(count): `count` shipments in index order, each drawn from its
      own samples. */
  method GenerateMockCargoData(count: nat, draws: seq<ItemDraws>, now: nat, distanceKm: (LatLon, LatLon) -> real)
    returns (items: seq<Cargo>)
    requires |draws| == count
    requires forall i :: 0 <= i < count ==> DrawsTerminate(draws[i])
    ensures |items| == count
    ensures forall i :: 0 <= i < count ==> items[i] == MockCargo(i, draws[i], now, distanceKm)
  {
    items := [];
    for i := 0 to count
      invariant |items| == i
      invariant forall k :: 0 <= k < i ==> items[k] == MockCargo(k, draws[k], now, distanceKm)
    {
      var c := NewCargo(i, draws[i], now, distanceKm);
      items := items + [c];
    }
  }

  /** One iteration of the generation loop: the shipment at position i. */
  method NewCargo(i: nat, d: ItemDraws, now: nat, distanceKm: (LatLon, LatLon) -> real)
    returns (c: Cargo)
    requires DrawsTerminate(d)
    ensures c == MockCargo(i, d, now, distanceKm)
  {
    var origin := PortOf(d.origin);
    var dest, _ := PickDestination(d);
    var etaMs := distanceKm(origin.position, dest.position) / SPEED * MS_PER_HOUR;
    c := Cargo(
      id := CargoId(i),
      kind := CARGO_TYPES[Pick(d.kind, |CARGO_TYPES|)],
      status := IN_TRANSIT,
      origin := origin.name,
      destination := dest.name,
      latitude := origin.position.lat,
      longitude := origin.position.lon,
      destLat := dest.position.lat,
      destLon := dest.position.lon,
      eta := Some(Trunc(now as real + etaMs)),
      progress := 0.0,
      speed := SPEED,
      size := d.size * 2.0 + 2.0);
  }

  /** Generated identifiers are pairwise distinct. */
  lemma GeneratedIdsDistinct(items: seq<Cargo>, draws: seq<ItemDraws>, now: nat, distanceKm: (LatLon, LatLon) -> real)
    requires |items| == |draws|
    requires forall i :: 0 <= i < |items| ==> DrawsTerminate(draws[i])
    requires forall i :: 0 <= i < |items| ==> items[i] == MockCargo(i, draws[i], now, distanceKm)
    ensures forall i, j :: 0 <= i < j < |items| ==> items[i].id != items[j].id
  {
    forall i, j | 0 <= i < j < |items|
      ensures items[i].id != items[j].id
    {
      CargoIdInjective(i, j);
    }
  }

  /** One shipment on one interval of subscribeToCargoMovements: delivered shipments stay as
      they are; the others move one step towards their destination and, once within 5 km of
      it, are snapped onto it and marked delivered. */
  function Advance(c: Cargo, move: (LatLon, LatLon, real) -> LatLon, distanceKm: (LatLon, LatLon) -> real): (r: Cargo)
    ensures c.status == DELIVERED ==> r == c
    ensures r == c.(latitude := r.latitude, longitude := r.longitude, status := r.status)
    ensures r.status == c.status || r.status == DELIVERED
    ensures c.status != DELIVERED ==>
      var target := LatLon(c.destLat, c.destLon);
      var moved := move(LatLon(c.latitude, c.longitude), target, STEP_DEGREES);
      if distanceKm(moved, target) < ARRIVAL_KM
      then r.status == DELIVERED && r.latitude == c.destLat && r.longitude == c.destLon
      else r.status == c.status && r.latitude == moved.lat && r.longitude == moved.lon
  {
    if c.status == DELIVERED then c
    else
      var target := LatLon(c.destLat, c.destLon);
      var moved := move(LatLon(c.latitude, c.longitude), target, STEP_DEGREES);
      if distanceKm(moved, target) < ARRIVAL_KM then
        c.(latitude := c.destLat, longitude := c.destLon, status := DELIVERED)
      else
        c.(latitude := moved.lat, longitude := moved.lon)
  }

  /** The per-interval map over the whole list. */
  function Tick(data: seq<Cargo>, move: (LatLon, LatLon, real) -> LatLon, distanceKm: (LatLon, LatLon) -> real): (r: seq<Cargo>)
    ensures |r| == |data|
    ensures forall i :: 0 <= i < |data| ==> r[i] == Advance(data[i], move, distanceKm)
  {
    seq(|data|, i requires 0 <= i < |data| => Advance(data[i], move, distanceKm))
  }

  /** n successive intervals. */
  function Ticks(data: seq<Cargo>, n: nat, move: (LatLon, LatLon, real) -> LatLon, distanceKm: (LatLon, LatLon) -> real): seq<Cargo>
    decreases n
  {
    if n == 0 then data else Ticks(Tick(data, move, distanceKm), n - 1, move, distanceKm)
  }

  /** Delivered is absorbing: a shipment that is delivered is never touched again, and every
      shipment keeps its place in the list, across any number of intervals. */
  lemma {:induction false} DeliveredIsAbsorbing(data: seq<Cargo>, n: nat, i: nat,
                                                 move: (LatLon, LatLon, real) -> LatLon,
                                                 distanceKm: (LatLon, LatLon) -> real)
    requires i < |data| && data[i].status == DELIVERED
    decreases n
    ensures |Ticks(data, n, move, distanceKm)| == |data|
    ensures Ticks(data, n, move, distanceKm)[i] == data[i]
  {
    if n > 0 {
      DeliveredIsAbsorbing(Tick(data, move, distanceKm), n - 1, i, move, distanceKm);
    }
  }

  /** Across any number of intervals a shipment keeps its identity, route and eta, and its
      status either stays what it was or has become delivered. */
  lemma {:induction false} TicksKeepIdentity(data: seq<Cargo>, n: nat, i: nat,
                                              move: (LatLon, LatLon, real) -> LatLon,
                                              distanceKm: (LatLon, LatLon) -> real)
    requires i < |data|
    decreases n
    ensures |Ticks(data, n, move, distanceKm)| == |data|
    ensures var r := Ticks(data, n, move, distanceKm)[i];
      && r.id == data[i].id && r.origin == data[i].origin && r.destination == data[i].destination
      && r.eta == data[i].eta && r.destLat == data[i].destLat && r.destLon == data[i].destLon
      && (r.status == data[i].status || r.status == DELIVERED)
  {
    if n > 0 {
      TicksKeepIdentity(Tick(data, move, distanceKm), n - 1, i, move, distanceKm);
    }
  }

  /** subscribeToCargoMovements: the feed's current list, replaced on every interval until
      the subscription is cancelled. */
  class CargoFeed {
    var data: seq<Cargo>
    var subscribed: bool

    constructor Subscribe(draws: seq<ItemDraws>, now: nat, distanceKm: (LatLon, LatLon) -> real)
      requires |draws| == DEFAULT_COUNT
      requires forall i :: 0 <= i < DEFAULT_COUNT ==> DrawsTerminate(draws[i])
      ensures subscribed && |data| == DEFAULT_COUNT
      ensures forall i :: 0 <= i < DEFAULT_COUNT ==> data[i] == MockCargo(i, draws[i], now, distanceKm)
    {
      var items := GenerateMockCargoData(DEFAULT_COUNT, draws, now, distanceKm);
      data := items;
      subscribed := true;
    }

    /** One interval: the list is replaced by its moved copy, which is handed to the callback. */
    method Interval(move: (LatLon, LatLon, real) -> LatLon, distanceKm: (LatLon, LatLon) -> real)
      returns (delivered: seq<Cargo>)
      requires subscribed
      modifies this
      ensures data == Tick(old(data), move, distanceKm) && subscribed
      ensures delivered == data
    {
      data := Tick(data, move, distanceKm);
      delivered := data;
    }

    /** unsubscribe: clears the interval; calling it again is harmless. */
    method Unsubscribe()
      modifies this
      ensures !subscribed && data == old(data)
    {
      subscribed := false;
    }
  }
}
