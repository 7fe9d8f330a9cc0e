/** The booking history page: the fetched list sorted by booking time in
    the chosen direction, the direction toggle, and cancellation behind a
    confirmation dialog. */
module BookingHistoryPage {
  import opened Js
  import opened Outcomes

  /** A booking as listed; the booking time is an integer timestamp. */
  datatype Booking = Booking(bookingId: Value, flightId: Value, bookingTime: int, totalAmount: int)

  /** The two values `sortOrder` takes, "desc" and "asc". */
  datatype SortOrder = Desc | Asc

  /** `prev === "desc" ? "asc" : "desc"`. */
  function Toggle(order: SortOrder): (r: SortOrder)
    ensures r != order
  {
    if order == Desc then Asc else Desc
  }

  /** Toggling twice restores the direction. */
  lemma ToggleTwice(order: SortOrder)
    ensures Toggle(Toggle(order)) == order
  {
  }

  /** The comparator reduced to a key: `b - a` on times for "desc", `a - b`
      for "asc", so sorting ascending by this key is the comparator's
      order. */
  function Key(b: Booking, order: SortOrder): int {
    if order == Desc then 0 - b.bookingTime else b.bookingTime
  }

  /** Adjacent and non-adjacent pairs alike are in the comparator's order. */
  ghost predicate SortedBy(s: seq<Booking>, order: SortOrder) {
    forall p, q :: 0 <= p < q < |s| ==> Key(s[p], order) <= Key(s[q], order)
  }

  /** Sorted by the key is what the page promises: newest first for "desc",
      oldest first for "asc". */
  lemma SortedMeansTimeOrder(s: seq<Booking>, order: SortOrder, p: nat, q: nat)
    requires SortedBy(s, order) && p < q < |s|
    ensures order == Desc ==> s[p].bookingTime >= s[q].bookingTime
    ensures order == Asc ==> s[p].bookingTime <= s[q].bookingTime
  {
  }

  /** `s` with the elements at `j - 1` and `j` exchanged. */
  function Swapped(s: seq<Booking>, j: nat): (t: seq<Booking>)
    requires 0 < j < |s|
    ensures |t| == |s| && multiset(t) == multiset(s)
  {
    s[j - 1 := s[j]][j := s[j - 1]]
  }

  /** The prefix `s[..i + 1]` is sorted apart from the element at `j`. */
  ghost predicate SortedExcept(s: seq<Booking>, i: nat, j: nat, order: SortOrder)
    requires i < |s|
  {
    forall p, q :: 0 <= p < q <= i && p != j && q != j ==> Key(s[p], order) <= Key(s[q], order)
  }

  /** The element at `j` is below everything after it up to `i`. */
  ghost predicate BelowRest(s: seq<Booking>, i: nat, j: nat, order: SortOrder)
    requires j <= i < |s|
  {
    forall q :: j < q <= i ==> Key(s[j], order) < Key(s[q], order)
  }

  /** Swapping the element at `j` leftwards keeps both facts, one place
      further left. */
  lemma SwapStep(s: seq<Booking>, i: nat, j: nat, order: SortOrder)
    requires 0 < j <= i < |s|
    requires SortedExcept(s, i, j, order) && BelowRest(s, i, j, order)
    requires Key(s[j - 1], order) > Key(s[j], order)
    ensures SortedExcept(Swapped(s, j), i, j - 1, order)
    ensures BelowRest(Swapped(s, j), i, j - 1, order)
  {
  }

  /** When the element at `j` is not below its left neighbour, the whole
      prefix is sorted. */
  lemma InsertDone(s: seq<Booking>, i: nat, j: nat, order: SortOrder)
    requires j <= i < |s|
    requires SortedExcept(s, i, j, order) && BelowRest(s, i, j, order)
    requires j == 0 || Key(s[j - 1], order) <= Key(s[j], order)
    ensures SortedBy(s[..i + 1], order)
  {
  }

  /** Before any swap, the prefix before `i` is sorted and nothing lies
      between `i` and itself. */
  lemma InsertStart(s: seq<Booking>, i: nat, order: SortOrder)
    requires i < |s| && SortedBy(s[..i], order)
    ensures SortedExcept(s, i, i, order) && BelowRest(s, i, i, order)
  {
    assert forall p :: 0 <= p < i ==> s[..i][p] == s[p];
  }

  /** One insertion step: the element at `i` is swapped leftwards past every
      element with a larger key, extending the sorted prefix by one. */
  method InsertAt(a: array<Booking>, i: nat, order: SortOrder)
    requires i < a.Length
    requires SortedBy(a[..i], order)
    modifies a
    ensures SortedBy(a[..i + 1], order)
    ensures multiset(a[..]) == multiset(old(a[..]))
    ensures a[i + 1..] == old(a[i + 1..])
  {
    var j := i;
    InsertStart(a[..], i, order);
    while j > 0 && Key(a[j - 1], order) > Key(a[j], order)
      invariant 0 <= j <= i
      invariant SortedExcept(a[..], i, j, order) && BelowRest(a[..], i, j, order)
      invariant multiset(a[..]) == multiset(old(a[..]))
      invariant a[i + 1..] == old(a[i + 1..])
    {
      ghost var s := a[..];
      SwapStep(s, i, j, order);
      a[j - 1], a[j] := a[j], a[j - 1];
      assert a[..] == Swapped(s, j);
      j := j - 1;
    }
    InsertDone(a[..], i, j, order);
  }

  /** `Array.prototype.sort` with the page's comparator, in place: the array
      ends sorted and holds the same bookings. */
  method SortInPlace(a: array<Booking>, order: SortOrder)
    modifies a
    ensures SortedBy(a[..], order)
    ensures multiset(a[..]) == multiset(old(a[..]))
  {
    var i := 0;
    while i < a.Length
      invariant 0 <= i <= a.Length
      invariant SortedBy(a[..i], order)
      invariant multiset(a[..]) == multiset(old(a[..]))
    {
      InsertAt(a, i, order);
      i := i + 1;
    }
    assert a[..] == a[..a.Length];
  }

  class Component {
    const token: Value
    var bookings: seq<Booking>
    var loading: bool
    var sortOrder: SortOrder
    /** How many times the list was requested. */
    var fetches: nat
    /** Ids sent to the delete endpoint, in order. */
    var deletions: seq<Value>
    var alerts: seq<string>

    constructor (token: Value)
      ensures this.token == token && bookings == [] && !loading && sortOrder == Desc
      ensures fetches == 0 && deletions == [] && alerts == []
    {
      this.token := token;
      bookings := [];
      loading := false;
      sortOrder := Desc;
      fetches := 0;
      deletions := [];
      alerts := [];
    }

    /** `fetchBookings`: the list is requested; a response is sorted in the
      current direction and replaces the bookings, a failure keeps them.
      Loading is down afterwards either way. */
    method FetchBookings(response: Response<seq<Booking>>)
      modifies this
      ensures fetches == old(fetches) + 1 && !loading
      ensures response.Ok? ==>
        SortedBy(bookings, sortOrder) && multiset(bookings) == multiset(response.data)
      ensures response.Failed? ==> bookings == old(bookings)
      ensures sortOrder == old(sortOrder) && deletions == old(deletions) && alerts == old(alerts)
    {
      fetches := fetches + 1;
      loading := true;
      if response.Ok? {
        var a := new Booking[|response.data|](i requires 0 <= i < |response.data| => response.data[i]);
        assert a[..] == response.data;
        SortInPlace(a, sortOrder);
        bookings := a[..];
      }
      loading := false;
    }

    /** The effect on `[token, sortOrder]`: the list is fetched only when a
      token is present. */
    method RunEffect(response: Response<seq<Booking>>)
      modifies this
      ensures !Truthy(token) ==>
        fetches == old(fetches) && bookings == old(bookings) && loading == old(loading)
      ensures Truthy(token) ==> fetches == old(fetches) + 1 && !loading
      ensures Truthy(token) && response.Ok? ==>
        SortedBy(bookings, sortOrder) && multiset(bookings) == multiset(response.data)
      ensures Truthy(token) && response.Failed? ==> bookings == old(bookings)
      ensures sortOrder == old(sortOrder) && deletions == old(deletions) && alerts == old(alerts)
    {
      if Truthy(token) {
        FetchBookings(response);
      }
    }

    /** `toggleSortOrder`; the effect then runs again with the new order. */
    method ToggleSortOrder()
      modifies this
      ensures sortOrder == Toggle(old(sortOrder))
      ensures bookings == old(bookings) && loading == old(loading) && fetches == old(fetches)
      ensures deletions == old(deletions) && alerts == old(alerts)
    {
      sortOrder := Toggle(sortOrder);
    }

    /** `cancelBooking`: nothing happens unless the dialog is confirmed; then
      the delete is sent, and its outcome decides between the success alert
      followed by a reload and the failure alert. */
    method CancelBooking(bookingId: Value, confirmed: bool, deleted: bool, reload: Response<seq<Booking>>)
      modifies this
      ensures !confirmed ==>
        deletions == old(deletions) && alerts == old(alerts) &&
        fetches == old(fetches) && bookings == old(bookings) && loading == old(loading)
      ensures confirmed ==> deletions == old(deletions) + [bookingId]
      ensures confirmed && deleted ==>
        alerts == old(alerts) + ["Booking canceled."] && fetches == old(fetches) + 1 && !loading &&
        (reload.Ok? ==> SortedBy(bookings, sortOrder) && multiset(bookings) == multiset(reload.data)) &&
        (reload.Failed? ==> bookings == old(bookings))
      ensures confirmed && !deleted ==>
        alerts == old(alerts) + ["Failed to cancel booking"] &&
        fetches == old(fetches) && bookings == old(bookings) && loading == old(loading)
      ensures sortOrder == old(sortOrder)
    {
      if !confirmed {
        return;
      }
      deletions := deletions + [bookingId];
      if deleted {
        alerts := alerts + ["Booking canceled."];
        FetchBookings(reload);
      } else {
        alerts := alerts + ["Failed to cancel booking"];
      }
    }
  }
}
