/** The flight search form: the enablement of the search button, the query
    string built from the chosen airports and date, the check that the
    response looks like a JSON object, and the hand-over to the results
    page. */
module FlightSearchForm {
  import opened Js
  import opened Outcomes

  /** The button is enabled only with both airports chosen and a date. */
  predicate SearchEnabled(source: Value, destination: Value, date: string) {
    Truthy(source) && Truthy(destination) && date != ""
  }

  /** `sourceAirport?.id || ''` as the string `URLSearchParams` holds. */
  function IdParam(airport: Value): (p: string)
    ensures !Truthy(Get(airport, "id")) ==> p == ""
    ensures Truthy(Get(airport, "id")) ==> p == ToString(Get(airport, "id"))
  {
    ToString(Or(Get(airport, "id"), Str("")))
  }

  /** The search parameters, in order. */
  function BuildQuery(source: Value, destination: Value, date: string): (q: seq<(string, string)>)
    ensures |q| == 3
    ensures q[0] == ("sourceId", IdParam(source))
    ensures q[1] == ("destinationId", IdParam(destination))
    ensures q[2] == ("date", date)
  {
    [("sourceId", IdParam(source)), ("destinationId", IdParam(destination)), ("date", date)]
  }

  /** A missing airport, or one without an id, is sent as the empty id. */
  lemma MissingAirportSendsEmptyId(destination: Value, date: string)
    ensures BuildQuery(Null, destination, date)[0] == ("sourceId", "")
  {
  }

  /** A non-zero numeric id is sent as its decimal string, which the server
      reads back as the same number; an id of 0 is falsy and is sent as the
      empty id. */
  lemma NumericIdRoundTrips(airport: Value, id: int)
    requires airport.Obj? && Get(airport, "id") == Num(id)
    ensures id != 0 ==> ParseIntString(IdParam(airport)) == Num(id)
    ensures id == 0 ==> IdParam(airport) == ""
  {
    if id != 0 {
      ParseIntOfIntString(id);
    }
  }

  /** `text.trim().startsWith("{")`. */
  predicate ResponseLooksLikeJson(text: string) {
    StartsWith(Trim(text), "{")
  }

  /** A text the check accepts has an opening brace as its first
      character that is not white space. */
  lemma LooksLikeJsonHasBrace(text: string)
    requires ResponseLooksLikeJson(text)
    ensures exists i :: 0 <= i < |text| && AllSpace(text[..i]) && text[i] == '{'
  {
    var t := TrimStart(text);
    var k := |text| - |t|;
    var r := TrimEnd(t);
    assert Trim(text) == r;
    assert r[0] == '{' && t[0] == '{';
    assert text[k] == '{';
  }

  /** A text whose first character that is not white space is an opening
      brace passes the check. */
  lemma BraceLooksLikeJson(text: string, i: nat)
    requires i < |text| && AllSpace(text[..i]) && text[i] == '{'
    ensures ResponseLooksLikeJson(text)
  {
    var t := TrimStart(text);
    var k := |text| - |t|;
    var r := TrimEnd(t);
    assert Trim(text) == r;
    assert k == i && t[0] == '{';
    assert r[0] == t[0];
    assert r[..1] == "{";
  }

  /** The check accepts exactly the texts whose first character that is not
      white space is an opening brace. */
  lemma LooksLikeJsonIffFirstNonSpaceIsBrace(text: string)
    ensures ResponseLooksLikeJson(text) <==>
      exists i :: 0 <= i < |text| && AllSpace(text[..i]) && text[i] == '{'
  {
    if ResponseLooksLikeJson(text) {
      LooksLikeJsonHasBrace(text);
    }
    if exists i :: 0 <= i < |text| && AllSpace(text[..i]) && text[i] == '{' {
      var i :| 0 <= i < |text| && AllSpace(text[..i]) && text[i] == '{';
      BraceLooksLikeJson(text, i);
    }
  }

  /** The state handed to the results page. */
  datatype Criteria = Criteria(sourceAirport: Value, destinationAirport: Value, date: string)
  datatype Navigation = Navigation(path: string, searchResults: Value, searchCriteria: Criteria)

  class Component {
    var sourceAirport: Value
    var destinationAirport: Value
    var date: string
    /** The query of each search request sent. */
    var requests: seq<seq<(string, string)>>
    var navigations: seq<Navigation>
    var alerts: seq<string>

    constructor ()
      ensures sourceAirport == Null && destinationAirport == Null && date == ""
      ensures requests == [] && navigations == [] && alerts == []
    {
      sourceAirport, destinationAirport, date := Null, Null, "";
      requests, navigations, alerts := [], [], [];
    }

    /** The two `onSelect` callbacks and the date input. */
    method SetSource(airport: Value)
      modifies this
      ensures sourceAirport == airport && destinationAirport == old(destinationAirport) && date == old(date)
      ensures requests == old(requests) && navigations == old(navigations) && alerts == old(alerts)
    {
      sourceAirport := airport;
    }

    method SetDestination(airport: Value)
      modifies this
      ensures destinationAirport == airport && sourceAirport == old(sourceAirport) && date == old(date)
      ensures requests == old(requests) && navigations == old(navigations) && alerts == old(alerts)
    {
      destinationAirport := airport;
    }

    method SetDate(value: string)
      modifies this
      ensures date == value && sourceAirport == old(sourceAirport) && destinationAirport == old(destinationAirport)
      ensures requests == old(requests) && navigations == old(navigations) && alerts == old(alerts)
    {
      date := value;
    }

    /** `handleSearch`, reachable only through the enabled button. The
      request carries the built query; `response` is the body text, or a
      failed fetch, and `parsed` is what `JSON.parse` makes of the text (None
      when it throws). A text that does not look like a JSON object, a parse
      failure or a failed fetch ends in the alert; otherwise the results
      page is opened with the parsed flights and the criteria. */
    method HandleSearch(response: Response<string>, parsed: Option<Value>)
      requires SearchEnabled(sourceAirport, destinationAirport, date)
      modifies this
      ensures requests == old(requests) + [BuildQuery(sourceAirport, destinationAirport, date)]
      ensures response.Ok? && ResponseLooksLikeJson(response.data) && parsed.Some? ==>
        navigations == old(navigations) +
          [Navigation("/flights", parsed.value, Criteria(sourceAirport, destinationAirport, date))] &&
        alerts == old(alerts)
      ensures !(response.Ok? && ResponseLooksLikeJson(response.data) && parsed.Some?) ==>
        navigations == old(navigations) && alerts == old(alerts) + ["Failed to search flights. Try again."]
      ensures sourceAirport == old(sourceAirport) && destinationAirport == old(destinationAirport)
      ensures date == old(date)
    {
      requests := requests + [BuildQuery(sourceAirport, destinationAirport, date)];
      if response.Ok? && ResponseLooksLikeJson(response.data) && parsed.Some? {
        navigations := navigations +
          [Navigation("/flights", parsed.value, Criteria(sourceAirport, destinationAirport, date))];
      } else {
        alerts := alerts + ["Failed to search flights. Try again."];
      }
    }
  }
}
