/** The airport administration screen: list fetch, client-side search, the
    shared add/update form keyed by the airport code, and delete. */
module AdminAirports {
  import opened Js
  import opened Outcomes
  import opened Search

  /** The requests the screen sends to the airport endpoints. */
  datatype AirportRequest = Add(airport: Record) | Update(code: Value, airport: Record) | Delete(code: Value)

  /** The five inputs of the form. */
  datatype AirportField = AirportName | AirportCode | AirportCity | AirportState | AirportCountry

  function FieldKey(f: AirportField): string {
    match f
    case AirportName => "airportName"
    case AirportCode => "airportCode"
    case AirportCity => "airportCity"
    case AirportState => "airportState"
    case AirportCountry => "airportCountry"
  }

  class Component {
    const token: Value
    /** The blank form, `{ ...defaultAirport }`. */
    const defaultAirport: Record
    var airports: seq<Record>
    var filteredAirports: seq<Record>
    var searchQuery: string
    var newAirport: Record
    var editingCode: Value
    var requests: seq<AirportRequest>
    var alerts: seq<string>
    /** How many times the list was requested. */
    var fetches: nat

    constructor (token: Value, defaultAirport: Record)
      ensures this.token == token && this.defaultAirport == defaultAirport
      ensures airports == [] && filteredAirports == [] && searchQuery == ""
      ensures newAirport == defaultAirport && editingCode == Null
      ensures requests == [] && alerts == [] && fetches == 0
    {
      this.token := token;
      this.defaultAirport := defaultAirport;
      airports, filteredAirports, searchQuery := [], [], "";
      newAirport := defaultAirport;
      editingCode := Null;
      requests, alerts, fetches := [], [], 0;
    }

    /** `fetchAirports`: the full list and the shown list both become the
      response, whatever the current query; a failure changes nothing. */
    method FetchAirports(response: Response<seq<Record>>)
      modifies this
      ensures fetches == old(fetches) + 1
      ensures response.Ok? ==> airports == response.data && filteredAirports == response.data
      ensures response.Failed? ==> airports == old(airports) && filteredAirports == old(filteredAirports)
      ensures searchQuery == old(searchQuery) && newAirport == old(newAirport) && editingCode == old(editingCode)
      ensures requests == old(requests) && alerts == old(alerts)
    {
      fetches := fetches + 1;
      if response.Ok? {
        airports := response.data;
        filteredAirports := response.data;
      }
    }

    /** `handleSearch`: the shown list is the matching airports in their
      order; the full list is untouched, and an empty query shows it all. */
    method HandleSearch(query: string)
      modifies this
      ensures searchQuery == query
      ensures filteredAirports == Filter(airports, query)
      ensures forall a :: a in filteredAirports <==> a in airports && Matches(a, query)
      ensures IsSubsequence(filteredAirports, airports)
      ensures query == "" ==> filteredAirports == airports
      ensures airports == old(airports) && newAirport == old(newAirport) && editingCode == old(editingCode)
      ensures requests == old(requests) && alerts == old(alerts) && fetches == old(fetches)
    {
      searchQuery := query;
      filteredAirports := Filter(airports, query);
      if query == "" {
        FilterEmptyQuery(airports);
      }
    }

    /** An input of the form: `{ ...newAirport, [field]: value }`. */
    method EditField(field: AirportField, value: string)
      modifies this
      ensures Lookup(newAirport, FieldKey(field)) == Str(value)
      ensures forall k :: k != FieldKey(field) ==> Lookup(newAirport, k) == Lookup(old(newAirport), k)
      ensures airports == old(airports) && filteredAirports == old(filteredAirports)
      ensures searchQuery == old(searchQuery) && editingCode == old(editingCode)
      ensures requests == old(requests) && alerts == old(alerts) && fetches == old(fetches)
    {
      newAirport := SetProp(newAirport, FieldKey(field), Str(value));
    }

    /** `handleEditAirport`: the airport fills the form and its code becomes
      the edit key. */
    method HandleEditAirport(airport: Record)
      modifies this
      ensures newAirport == airport && editingCode == Lookup(airport, "airportCode")
      ensures airports == old(airports) && filteredAirports == old(filteredAirports)
      ensures searchQuery == old(searchQuery)
      ensures requests == old(requests) && alerts == old(alerts) && fetches == old(fetches)
    {
      newAirport := airport;
      editingCode := Lookup(airport, "airportCode");
    }

    /** `handleAddOrUpdateAirport`: a truthy edit key sends an update to that
      code, otherwise an add. On success the edit key is cleared (after an
      update), the list is reloaded and the form reset; on failure only the
      alert appears, and the form and edit key are kept. */
    method HandleAddOrUpdate(saved: bool, reload: Response<seq<Record>>)
      modifies this
      ensures Truthy(old(editingCode)) ==> requests == old(requests) + [Update(old(editingCode), old(newAirport))]
      ensures !Truthy(old(editingCode)) ==> requests == old(requests) + [Add(old(newAirport))]
      ensures saved ==>
        newAirport == defaultAirport && alerts == old(alerts) && fetches == old(fetches) + 1 &&
        (Truthy(old(editingCode)) ==> editingCode == Null) &&
        (!Truthy(old(editingCode)) ==> editingCode == old(editingCode)) &&
        (reload.Ok? ==> airports == reload.data && filteredAirports == reload.data) &&
        (reload.Failed? ==> airports == old(airports) && filteredAirports == old(filteredAirports))
      ensures !saved ==>
        newAirport == old(newAirport) && editingCode == old(editingCode) &&
        alerts == old(alerts) + ["Failed to save airport"] && fetches == old(fetches) &&
        airports == old(airports) && filteredAirports == old(filteredAirports)
      ensures searchQuery == old(searchQuery)
    {
      if Truthy(editingCode) {
        requests := requests + [Update(editingCode, newAirport)];
        if saved {
          editingCode := Null;
        }
      } else {
        requests := requests + [Add(newAirport)];
      }
      if !saved {
        alerts := alerts + ["Failed to save airport"];
        return;
      }
      FetchAirports(reload);
      newAirport := defaultAirport;
    }

    /** `handleDeleteAirport`: the delete goes to the code; success reloads
      the list, failure alerts. */
    method HandleDeleteAirport(code: Value, deleted: bool, reload: Response<seq<Record>>)
      modifies this
      ensures requests == old(requests) + [Delete(code)]
      ensures deleted ==>
        fetches == old(fetches) + 1 && alerts == old(alerts) &&
        (reload.Ok? ==> airports == reload.data && filteredAirports == reload.data) &&
        (reload.Failed? ==> airports == old(airports) && filteredAirports == old(filteredAirports))
      ensures !deleted ==>
        fetches == old(fetches) && alerts == old(alerts) + ["Failed to delete airport"] &&
        airports == old(airports) && filteredAirports == old(filteredAirports)
      ensures newAirport == old(newAirport) && editingCode == old(editingCode) && searchQuery == old(searchQuery)
    {
      requests := requests + [Delete(code)];
      if deleted {
        FetchAirports(reload);
      } else {
        alerts := alerts + ["Failed to delete airport"];
      }
    }
  }
}
