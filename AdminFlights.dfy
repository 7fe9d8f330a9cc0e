/** The flight administration screen: the three-part data fetch, the id
    lookups used when listing flights, and the shared add/update form with
    its numeric conversions. */
module AdminFlights {
  import opened Js
  import opened Outcomes

  /** Position of the first record whose `key` is strictly equal to `id`:
      `Array.prototype.find` with `r => r[key] === id`. */
  function FindFirst(list: seq<Record>, key: string, id: Value): (r: Option<nat>)
    ensures r.Some? ==> r.value < |list| && StrictEquals(Lookup(list[r.value], key), id)
    ensures r.Some? ==> forall j :: 0 <= j < r.value ==> !StrictEquals(Lookup(list[j], key), id)
    ensures r.None? ==> forall j :: 0 <= j < |list| ==> !StrictEquals(Lookup(list[j], key), id)
  {
    if |list| == 0 then None
    else if StrictEquals(Lookup(list[0], key), id) then Some(0)
    else
      match FindFirst(list[1..], key, id)
      case None => None
      case Some(i) => Some(i + 1)
  }

  /** `getAirportNameById`: the first matching airport's name, else the
      fixed fallback text. */
  function GetAirportNameById(airports: seq<Record>, id: Value): (name: Value)
    ensures (exists j :: 0 <= j < |airports| && StrictEquals(Lookup(airports[j], "id"), id)) ==>
      exists j :: 0 <= j < |airports| && StrictEquals(Lookup(airports[j], "id"), id) &&
        (forall k :: 0 <= k < j ==> !StrictEquals(Lookup(airports[k], "id"), id)) &&
        name == Lookup(airports[j], "airportName")
    ensures (forall j :: 0 <= j < |airports| ==> !StrictEquals(Lookup(airports[j], "id"), id)) ==>
      name == Str("Unknown Airport")
  {
    match FindFirst(airports, "id", id)
    case Some(j) => Lookup(airports[j], "airportName")
    case None => Str("Unknown Airport")
  }

  /** `getAirplaneById`: the first airplane whose `airplaneId` matches, or
      undefined. */
  function GetAirplaneById(airplanes: seq<Record>, id: Value): (plane: Option<Record>)
    ensures plane.None? <==> forall j :: 0 <= j < |airplanes| ==> !StrictEquals(Lookup(airplanes[j], "airplaneId"), id)
    ensures plane.Some? ==>
      exists j :: 0 <= j < |airplanes| && plane.value == airplanes[j] &&
        StrictEquals(Lookup(airplanes[j], "airplaneId"), id) &&
        forall k :: 0 <= k < j ==> !StrictEquals(Lookup(airplanes[k], "airplaneId"), id)
  {
    match FindFirst(airplanes, "airplaneId", id)
    case Some(j) => Some(airplanes[j])
    case None => None
  }

  /** An id that is NaN, such as `parseInt` of a non-numeric entry, never
      finds an airport. */
  lemma NaNIdIsUnknownAirport(airports: seq<Record>)
    ensures GetAirportNameById(airports, NaN) == Str("Unknown Airport")
  {
  }

  /** A string id never finds an airport stored with a numeric id: strict
      equality does not convert. */
  lemma StringIdMissesNumericId(airports: seq<Record>, n: int)
    requires forall j :: 0 <= j < |airports| ==> Lookup(airports[j], "id").Num?
    ensures GetAirportNameById(airports, Str(IntToString(n))) == Str("Unknown Airport")
  {
  }

  /** `{ ...form, airplaneId: a, departureAirportId: d, arrivalAirportId: r,
      price: price }`. */
  function WithConversions(form: Record, a: Value, d: Value, r: Value, price: Value): Record {
    SetProp(SetProp(SetProp(SetProp(form, "airplaneId", a), "departureAirportId", d), "arrivalAirportId", r),
            "price", price)
  }

  lemma WithConversionsFields(form: Record, a: Value, d: Value, r: Value, price: Value)
    ensures Lookup(WithConversions(form, a, d, r, price), "airplaneId") == a
    ensures Lookup(WithConversions(form, a, d, r, price), "departureAirportId") == d
    ensures Lookup(WithConversions(form, a, d, r, price), "arrivalAirportId") == r
    ensures Lookup(WithConversions(form, a, d, r, price), "price") == price
    ensures forall k :: k != "airplaneId" && k != "departureAirportId" && k != "arrivalAirportId" && k != "price" ==>
      Lookup(WithConversions(form, a, d, r, price), k) == Lookup(form, k)
  {
    var p1 := SetProp(form, "airplaneId", a);
    var p2 := SetProp(p1, "departureAirportId", d);
    var p3 := SetProp(p2, "arrivalAirportId", r);
    assert Lookup(p3, "airplaneId") == Lookup(p2, "airplaneId") == a;
    assert Lookup(p3, "departureAirportId") == d;
  }

  /** The record sent on add and update: the form with its three id fields
      passed through `parseInt` and its price through `parseFloat`. */
  function FlightPayload(form: Record): Record {
    WithConversions(form, ParseInt(Lookup(form, "airplaneId")), ParseInt(Lookup(form, "departureAirportId")),
                    ParseInt(Lookup(form, "arrivalAirportId")), ParseFloat(Lookup(form, "price")))
  }

  /** The payload converts exactly the three ids and the price and keeps
      every other field of the form. */
  lemma FlightPayloadFields(form: Record)
    ensures Lookup(FlightPayload(form), "airplaneId") == ParseInt(Lookup(form, "airplaneId"))
    ensures Lookup(FlightPayload(form), "departureAirportId") == ParseInt(Lookup(form, "departureAirportId"))
    ensures Lookup(FlightPayload(form), "arrivalAirportId") == ParseInt(Lookup(form, "arrivalAirportId"))
    ensures Lookup(FlightPayload(form), "price") == ParseFloat(Lookup(form, "price"))
    ensures forall k :: k != "airplaneId" && k != "departureAirportId" && k != "arrivalAirportId" && k != "price" ==>
      Lookup(FlightPayload(form), k) == Lookup(form, k)
  {
    WithConversionsFields(form, ParseInt(Lookup(form, "airplaneId")), ParseInt(Lookup(form, "departureAirportId")),
                          ParseInt(Lookup(form, "arrivalAirportId")), ParseFloat(Lookup(form, "price")));
  }

  /** Ids typed as digits arrive as numbers. */
  lemma PayloadIdsAreNumbers(form: Record, plane: nat, from: nat, to: nat)
    requires Lookup(form, "airplaneId") == Str(NatToString(plane))
    requires Lookup(form, "departureAirportId") == Str(NatToString(from))
    requires Lookup(form, "arrivalAirportId") == Str(NatToString(to))
    ensures Lookup(FlightPayload(form), "airplaneId") == Num(plane)
    ensures Lookup(FlightPayload(form), "departureAirportId") == Num(from)
    ensures Lookup(FlightPayload(form), "arrivalAirportId") == Num(to)
  {
    FlightPayloadFields(form);
    ParseIntOfNatString(plane);
    ParseIntOfNatString(from);
    ParseIntOfNatString(to);
  }

  /** Converting an already converted payload changes nothing for numeric
      ids. */
  lemma PayloadOfNumericIdsKeepsIds(form: Record, plane: int, from: int, to: int)
    requires Lookup(form, "airplaneId") == Num(plane)
    requires Lookup(form, "departureAirportId") == Num(from)
    requires Lookup(form, "arrivalAirportId") == Num(to)
    ensures Lookup(FlightPayload(form), "airplaneId") == Num(plane)
    ensures Lookup(FlightPayload(form), "departureAirportId") == Num(from)
    ensures Lookup(FlightPayload(form), "arrivalAirportId") == Num(to)
  {
    FlightPayloadFields(form);
    ParseIntOfNum(plane);
    ParseIntOfNum(from);
    ParseIntOfNum(to);
  }

  /** A request to the flight endpoints. Add and update carry the form as
      it was when sent; the body on the wire is `Body` of the request. */
  datatype FlightRequest = Add(form: Record) | Update(id: Value, form: Record) | Delete(id: Value)

  /** The JSON body of a request: the converted form for add and update,
      none for delete. */
  function Body(request: FlightRequest): (body: Option<Record>)
    ensures body.Some? <==> !request.Delete?
    ensures !request.Delete? ==> body == Some(FlightPayload(request.form))
  {
    if request.Delete? then None else Some(FlightPayload(request.form))
  }

  /** The three list responses `fetchFlightsData` awaits in turn. */
  datatype Snapshot = Snapshot(flights: Response<seq<Record>>, airports: Response<seq<Record>>,
                               airplanes: Response<seq<Record>>)

  /** The three lists the screen holds. */
  datatype Lists = Lists(flights: seq<Record>, airports: seq<Record>, airplanes: seq<Record>)

  /** The lists after `fetchFlightsData` settles: each response is stored in
      turn, and the first failure leaves that list and the later ones as they
      were. */
  function AfterFetch(current: Lists, snapshot: Snapshot): (r: Lists)
    ensures snapshot.flights.Ok? ==> r.flights == snapshot.flights.data
    ensures snapshot.flights.Failed? ==> r.flights == current.flights
    ensures snapshot.flights.Ok? && snapshot.airports.Ok? ==> r.airports == snapshot.airports.data
    ensures !(snapshot.flights.Ok? && snapshot.airports.Ok?) ==> r.airports == current.airports
    ensures snapshot.flights.Ok? && snapshot.airports.Ok? && snapshot.airplanes.Ok? ==>
      r.airplanes == snapshot.airplanes.data
    ensures !(snapshot.flights.Ok? && snapshot.airports.Ok? && snapshot.airplanes.Ok?) ==>
      r.airplanes == current.airplanes
  {
    if snapshot.flights.Failed? then current
    else if snapshot.airports.Failed? then current.(flights := snapshot.flights.data)
    else if snapshot.airplanes.Failed? then
      current.(flights := snapshot.flights.data, airports := snapshot.airports.data)
    else Lists(snapshot.flights.data, snapshot.airports.data, snapshot.airplanes.data)
  }

  /** The form inputs wired to `{ ...newFlight, [field]: value }`. */
  datatype FlightField = Airline | AirplaneId | DepartureTime | ArrivalTime
                       | DepartureAirportId | ArrivalAirportId | Price

  function FieldKey(f: FlightField): string {
    match f
    case Airline => "airline"
    case AirplaneId => "airplaneId"
    case DepartureTime => "departureTime"
    case ArrivalTime => "arrivalTime"
    case DepartureAirportId => "departureAirportId"
    case ArrivalAirportId => "arrivalAirportId"
    case Price => "price"
  }

  class Component {
    const token: Value
    /** The blank form. */
    const defaultFlight: Record
    var flights: seq<Record>
    var airports: seq<Record>
    var airplanes: seq<Record>
    var editingFlightId: Value
    var newFlight: Record
    var requests: seq<FlightRequest>
    var alerts: seq<string>
    /** How many times the data was requested. */
    var fetches: nat

    /** The three lists as one value. */
    function Data(): Lists
      reads this
    {
      Lists(flights, airports, airplanes)
    }

    constructor (token: Value, defaultFlight: Record)
      ensures this.token == token && this.defaultFlight == defaultFlight
      ensures flights == [] && airports == [] && airplanes == []
      ensures editingFlightId == Null && newFlight == defaultFlight
      ensures requests == [] && alerts == [] && fetches == 0
    {
      this.token := token;
      this.defaultFlight := defaultFlight;
      flights, airports, airplanes := [], [], [];
      editingFlightId := Null;
      newFlight := defaultFlight;
      requests, alerts, fetches := [], [], 0;
    }

    /** `fetchFlightsData`: flights, then airports, then airplanes; the
      first failure ends the sequence and leaves the later lists as they
      were. */
    method FetchFlightsData(snapshot: Snapshot)
      modifies this
      ensures fetches == old(fetches) + 1
      ensures Data() == AfterFetch(old(Data()), snapshot)
      ensures editingFlightId == old(editingFlightId) && newFlight == old(newFlight)
      ensures requests == old(requests) && alerts == old(alerts)
    {
      fetches := fetches + 1;
      if snapshot.flights.Failed? {
        return;
      }
      flights := snapshot.flights.data;
      if snapshot.airports.Failed? {
        return;
      }
      airports := snapshot.airports.data;
      if snapshot.airplanes.Failed? {
        return;
      }
      airplanes := snapshot.airplanes.data;
    }

    /** The effect on `[token]`: data is fetched only with a token. */
    method Mount(snapshot: Snapshot)
      modifies this
      ensures !Truthy(token) ==> fetches == old(fetches) && Data() == old(Data())
      ensures Truthy(token) ==> fetches == old(fetches) + 1 && Data() == AfterFetch(old(Data()), snapshot)
      ensures editingFlightId == old(editingFlightId) && newFlight == old(newFlight)
      ensures requests == old(requests) && alerts == old(alerts)
    {
      if Truthy(token) {
        FetchFlightsData(snapshot);
      }
    }

    /** `handleEditFlight`: the flight fills the form and its id becomes the
      edit key. */
    method HandleEditFlight(flight: Record)
      modifies this
      ensures newFlight == flight && editingFlightId == Lookup(flight, "id")
      ensures flights == old(flights) && airports == old(airports) && airplanes == old(airplanes)
      ensures requests == old(requests) && alerts == old(alerts) && fetches == old(fetches)
    {
      newFlight := flight;
      editingFlightId := Lookup(flight, "id");
    }

    /** `resetForm`, also the Cancel button. */
    method ResetForm()
      modifies this
      ensures newFlight == defaultFlight && editingFlightId == Null
      ensures flights == old(flights) && airports == old(airports) && airplanes == old(airplanes)
      ensures requests == old(requests) && alerts == old(alerts) && fetches == old(fetches)
    {
      newFlight := defaultFlight;
      editingFlightId := Null;
    }

    /** An input of the form. */
    method EditField(field: FlightField, value: string)
      modifies this
      ensures Lookup(newFlight, FieldKey(field)) == Str(value)
      ensures forall k :: k != FieldKey(field) ==> Lookup(newFlight, k) == Lookup(old(newFlight), k)
      ensures editingFlightId == old(editingFlightId)
      ensures flights == old(flights) && airports == old(airports) && airplanes == old(airplanes)
      ensures requests == old(requests) && alerts == old(alerts) && fetches == old(fetches)
    {
      newFlight := SetProp(newFlight, FieldKey(field), Str(value));
    }

    /** `handleAddFlight`: the form is sent, converted by `Body`, as a new
      flight;
      success reloads the data and resets the form, failure alerts and keeps
      the form. */
    method HandleAddFlight(saved: bool, reload: Snapshot)
      modifies this
      ensures requests == old(requests) + [Add(old(newFlight))]
      ensures saved ==>
        newFlight == defaultFlight && editingFlightId == Null &&
        alerts == old(alerts) && fetches == old(fetches) + 1 &&
        Data() == AfterFetch(old(Data()), reload)
      ensures !saved ==>
        newFlight == old(newFlight) && editingFlightId == old(editingFlightId) &&
        alerts == old(alerts) + ["Failed to add flight"] && fetches == old(fetches) &&
        flights == old(flights) && airports == old(airports) && airplanes == old(airplanes)
    {
      requests := requests + [Add(newFlight)];
      if !saved {
        alerts := alerts + ["Failed to add flight"];
        return;
      }
      FetchFlightsData(reload);
      ResetForm();
    }

    /** `handleUpdateFlight`: the converted form is sent to the flight being
      edited; success reloads and resets, failure alerts and keeps the form
      and the edit key. */
    method HandleUpdateFlight(saved: bool, reload: Snapshot)
      modifies this
      ensures requests == old(requests) + [Update(old(editingFlightId), old(newFlight))]
      ensures saved ==>
        newFlight == defaultFlight && editingFlightId == Null &&
        alerts == old(alerts) && fetches == old(fetches) + 1 &&
        Data() == AfterFetch(old(Data()), reload)
      ensures !saved ==>
        newFlight == old(newFlight) && editingFlightId == old(editingFlightId) &&
        alerts == old(alerts) + ["Failed to update flight"] && fetches == old(fetches) &&
        flights == old(flights) && airports == old(airports) && airplanes == old(airplanes)
    {
      requests := requests + [Update(editingFlightId, newFlight)];
      if !saved {
        alerts := alerts + ["Failed to update flight"];
        return;
      }
      FetchFlightsData(reload);
      ResetForm();
    }

    /** The submit button: update while an edit key is set, add otherwise. */
    method Submit(saved: bool, reload: Snapshot)
      modifies this
      ensures Truthy(old(editingFlightId)) ==>
        requests == old(requests) + [Update(old(editingFlightId), old(newFlight))]
      ensures !Truthy(old(editingFlightId)) ==>
        requests == old(requests) + [Add(old(newFlight))]
      ensures saved ==>
        newFlight == defaultFlight && editingFlightId == Null &&
        alerts == old(alerts) && fetches == old(fetches) + 1 &&
        Data() == AfterFetch(old(Data()), reload)
      ensures !saved ==>
        newFlight == old(newFlight) && editingFlightId == old(editingFlightId) &&
        fetches == old(fetches) && Data() == old(Data())
      ensures !saved && Truthy(old(editingFlightId)) ==> alerts == old(alerts) + ["Failed to update flight"]
      ensures !saved && !Truthy(old(editingFlightId)) ==> alerts == old(alerts) + ["Failed to add flight"]
    {
      if Truthy(editingFlightId) {
        HandleUpdateFlight(saved, reload);
      } else {
        HandleAddFlight(saved, reload);
      }
    }

    /** `handleDeleteFlight`: success reloads, failure alerts. */
    method HandleDeleteFlight(id: Value, deleted: bool, reload: Snapshot)
      modifies this
      ensures requests == old(requests) + [Delete(id)]
      ensures deleted ==>
        fetches == old(fetches) + 1 && alerts == old(alerts) && Data() == AfterFetch(old(Data()), reload)
      ensures !deleted ==>
        fetches == old(fetches) && alerts == old(alerts) + ["Failed to delete flight"] &&
        flights == old(flights) && airports == old(airports) && airplanes == old(airplanes)
      ensures newFlight == old(newFlight) && editingFlightId == old(editingFlightId)
    {
      requests := requests + [Delete(id)];
      if deleted {
        FetchFlightsData(reload);
      } else {
        alerts := alerts + ["Failed to delete flight"];
      }
    }
  }
}
