/** The airport search box: suggestions are fetched once the query has three
    characters, and choosing one fills the box and hands the airport to the
    parent. */
module AirportAutocomplete {
  import opened Js

  /** The shortest query that is sent to the search endpoint. */
  const MinQueryLength: nat := 3

  /** What the effect on `[query]` does for a query. */
  datatype Effect = ClearList | Fetch(query: string)

  function QueryEffect(query: string): (e: Effect)
    ensures e == ClearList <==> |query| < MinQueryLength
    ensures e.Fetch? ==> e.query == query
  {
    if |query| < MinQueryLength then ClearList else Fetch(query)
  }

  class Component {
    var query: string
    var airports: seq<Record>
    var isLoading: bool
    /** Queries sent to the search endpoint, in order. */
    var fetches: seq<string>
    /** Airports passed to `onSelect`, in order. */
    var selections: seq<Record>

    /** Only queries of three or more characters are ever sent. */
    ghost predicate Valid()
      reads this
    {
      forall i :: 0 <= i < |fetches| ==> |fetches[i]| >= MinQueryLength
    }

    constructor ()
      ensures Valid()
      ensures query == "" && airports == [] && !isLoading && fetches == [] && selections == []
    {
      query := "";
      airports := [];
      isLoading := false;
      fetches := [];
      selections := [];
    }

    /** The effect for the current query: a short query empties the list and
      sends nothing; a long one raises the loading flag and sends the
      query. */
    method RunEffect()
      requires Valid()
      modifies this
      ensures Valid()
      ensures |query| < MinQueryLength ==>
        airports == [] && fetches == old(fetches) && isLoading == old(isLoading)
      ensures |query| >= MinQueryLength ==>
        isLoading && fetches == old(fetches) + [query] && airports == old(airports)
      ensures query == old(query) && selections == old(selections)
    {
      match QueryEffect(query) {
        case ClearList =>
          airports := [];
        case Fetch(q) =>
          isLoading := true;
          fetches := fetches + [q];
      }
    }

    /** Typing in the box: the query changes and the effect runs. */
    method QueryChanged(value: string)
      requires Valid()
      modifies this
      ensures Valid()
      ensures query == value
      ensures |value| < MinQueryLength ==>
        airports == [] && fetches == old(fetches) && isLoading == old(isLoading)
      ensures |value| >= MinQueryLength ==>
        isLoading && fetches == old(fetches) + [value] && airports == old(airports)
      ensures selections == old(selections)
    {
      query := value;
      RunEffect();
    }

    /** The awaited search returns (the service turns a failure into an
      empty list): the suggestions are replaced and loading ends. */
    method ReceiveAirports(result: seq<Record>)
      requires Valid()
      modifies this
      ensures Valid()
      ensures airports == result && !isLoading
      ensures query == old(query) && fetches == old(fetches) && selections == old(selections)
    {
      airports := result;
      isLoading := false;
    }

    /** Clicking a suggestion: the box shows the airport's name, the airport
      goes to `onSelect` and the list is emptied. When that changes the
      query, the effect runs again for the name, so a name of three or more
      characters is searched for anew. */
    method Select(airport: Record)
      requires Valid() && Lookup(airport, "airportName").Str?
      modifies this
      ensures Valid()
      ensures query == Lookup(airport, "airportName").s
      ensures selections == old(selections) + [airport]
      ensures airports == []
      ensures query == old(query) ==> fetches == old(fetches) && isLoading == old(isLoading)
      ensures query != old(query) && |query| >= MinQueryLength ==> isLoading && fetches == old(fetches) + [query]
      ensures query != old(query) && |query| < MinQueryLength ==> fetches == old(fetches)
    {
      var name := Lookup(airport, "airportName").s;
      var changed := name != query;
      query := name;
      selections := selections + [airport];
      airports := [];
      if changed {
        RunEffect();
      }
    }
  }
}
