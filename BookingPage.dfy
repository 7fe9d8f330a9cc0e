/** The booking confirmation page: the entry check on the navigation state,
    the wallet fetch, the balance guard and the booking request. */
module BookingPage {
  import opened Js
  import opened Outcomes

  /** The body of the booking request. */
  datatype BookingRequest = BookingRequest(userId: Value, flightId: Value, amount: Value)

  /** `state || {}` destructured: each of the three props, or undefined when
      no navigation state was passed. */
  function StateProp(state: Value, key: string): (v: Value)
    ensures !Truthy(state) ==> v == Undefined
    ensures Truthy(state) ==> v == Get(state, key)
  {
    Get(Or(state, Obj([])), key)
  }

  /** The entry check: flight, user id and token must all be truthy. */
  predicate StateComplete(flight: Value, userId: Value, token: Value) {
    Truthy(flight) && Truthy(userId) && Truthy(token)
  }

  /** `!wallet || wallet.balance < flight?.price`. */
  predicate Insufficient(wallet: Value, flight: Value): (blocked: bool)
    ensures !Truthy(wallet) ==> blocked
    ensures Truthy(wallet) && (Get(wallet, "balance") == Undefined || Get(flight, "price") == Undefined) ==> !blocked
  {
    LessThanUndefined(Get(wallet, "balance"));
    LessThanUndefined(Get(flight, "price"));
    !Truthy(wallet) || LessThan(Get(wallet, "balance"), Get(flight, "price"))
  }

  /** With integer balance and price the guard blocks exactly when the
      balance is below the price; an equal balance proceeds. */
  lemma GuardOnIntegers(wallet: Value, flight: Value, balance: int, price: int)
    requires wallet.Obj? && Get(wallet, "balance") == Num(balance)
    requires Get(flight, "price") == Num(price)
    ensures Insufficient(wallet, flight) <==> balance < price
  {
    LessThanNumbers(balance, price);
  }

  /** A wallet that has not arrived blocks every booking. */
  lemma NoWalletBlocks(flight: Value)
    ensures Insufficient(Null, flight)
  {
  }

  /** A wallet without a balance, or a flight without a price, is not
      blocked: `undefined` compares false both ways. */
  lemma MissingPriceDoesNotBlock(wallet: Value, flight: Value)
    requires wallet.Obj? && Get(flight, "price") == Undefined
    ensures !Insufficient(wallet, flight)
  {
    LessThanUndefined(Get(wallet, "balance"));
  }

  class Component {
    /** The props read once from the navigation state. */
    const flight: Value
    const userId: Value
    const token: Value

    var wallet: Value
    var loading: bool
    var isValid: bool
    var errorMessage: string
    var alerts: seq<string>
    var navigations: seq<string>
    /** `(userId, token)` of each wallet fetch issued. */
    var walletRequests: seq<(Value, Value)>
    var bookingRequests: seq<BookingRequest>

    /** A wallet is fetched only for a complete state, and before that fetch
      there is neither a wallet nor a booking request. */
    ghost predicate Valid()
      reads this
    {
      (walletRequests != [] ==> StateComplete(flight, userId, token)) &&
      (walletRequests == [] ==> wallet == Null && bookingRequests == [])
    }

    constructor (state: Value)
      ensures Valid()
      ensures flight == StateProp(state, "flight") && userId == StateProp(state, "userId")
      ensures token == StateProp(state, "token")
      ensures wallet == Null && !loading && isValid && errorMessage == ""
      ensures alerts == [] && navigations == [] && walletRequests == [] && bookingRequests == []
    {
      flight := StateProp(state, "flight");
      userId := StateProp(state, "userId");
      token := StateProp(state, "token");
      wallet := Null;
      loading := false;
      isValid := true;
      errorMessage := "";
      alerts, navigations, walletRequests, bookingRequests := [], [], [], [];
    }

    /** The mount effect: an incomplete state marks the page invalid, alerts
      and redirects home without fetching; a complete one fetches the
      wallet. */
    method Mount()
      requires Valid()
      modifies this
      ensures Valid()
      ensures !StateComplete(flight, userId, token) ==>
        !isValid && alerts == old(alerts) + ["Invalid access. Redirecting to homepage."] &&
        navigations == old(navigations) + ["/"] && walletRequests == old(walletRequests)
      ensures StateComplete(flight, userId, token) ==>
        isValid == old(isValid) && alerts == old(alerts) && navigations == old(navigations) &&
        walletRequests == old(walletRequests) + [(userId, token)]
      ensures wallet == old(wallet) && loading == old(loading) && errorMessage == old(errorMessage)
      ensures bookingRequests == old(bookingRequests)
    {
      if !StateComplete(flight, userId, token) {
        isValid := false;
        alerts := alerts + ["Invalid access. Redirecting to homepage."];
        navigations := navigations + ["/"];
      } else {
        walletRequests := walletRequests + [(userId, token)];
      }
    }

    /** `fetchWallet` settles: the data becomes the wallet, or the error
      message is set and the wallet stays as it was. */
    method ReceiveWallet(response: Response<Value>)
      requires Valid() && walletRequests != []
      modifies this
      ensures Valid()
      ensures response.Ok? ==> wallet == response.data && errorMessage == old(errorMessage)
      ensures response.Failed? ==> wallet == old(wallet) && errorMessage == "Error fetching wallet details."
      ensures loading == old(loading) && isValid == old(isValid)
      ensures alerts == old(alerts) && navigations == old(navigations)
      ensures walletRequests == old(walletRequests) && bookingRequests == old(bookingRequests)
    {
      match response {
        case Ok(data) => wallet := data;
        case Failed => errorMessage := "Error fetching wallet details.";
      }
    }

    /** `confirmBooking` up to the awaited request. The button is disabled
      while loading, so no second booking starts meanwhile. A missing wallet
      or a balance below the price alerts and changes nothing else;
      otherwise loading goes up, the error clears and one request carrying
      the user id, the flight's id and its price is sent. */
    method ConfirmBooking()
      requires Valid() && !loading
      modifies this
      ensures Valid()
      ensures Insufficient(wallet, flight) ==>
        alerts == old(alerts) + ["Insufficient balance. Please top up your wallet."] &&
        !loading && errorMessage == old(errorMessage) && bookingRequests == old(bookingRequests)
      ensures !Insufficient(wallet, flight) ==>
        alerts == old(alerts) && loading && errorMessage == "" &&
        bookingRequests == old(bookingRequests) +
          [BookingRequest(userId, Get(flight, "flightId"), Get(flight, "price"))]
      ensures wallet == old(wallet) && isValid == old(isValid) && navigations == old(navigations)
      ensures walletRequests == old(walletRequests)
    {
      if Insufficient(wallet, flight) {
        alerts := alerts + ["Insufficient balance. Please top up your wallet."];
        return;
      }
      loading := true;
      errorMessage := "";
      bookingRequests := bookingRequests + [BookingRequest(userId, Get(flight, "flightId"), Get(flight, "price"))];
    }

    /** The booking request settles: a truthy response confirms and goes to
      the dashboard; an empty response or an error sets the failure
      message. Loading comes down either way. */
    method BookingSettled(response: Response<Value>)
      requires Valid() && loading
      modifies this
      ensures Valid() && !loading
      ensures response.Ok? && Truthy(response.data) ==>
        alerts == old(alerts) + ["Booking confirmed!"] &&
        navigations == old(navigations) + ["/dashboard"] && errorMessage == old(errorMessage)
      ensures !(response.Ok? && Truthy(response.data)) ==>
        alerts == old(alerts) && navigations == old(navigations) &&
        errorMessage == "Booking failed. Please try again."
      ensures wallet == old(wallet) && isValid == old(isValid)
      ensures walletRequests == old(walletRequests) && bookingRequests == old(bookingRequests)
    {
      if response.Ok? && Truthy(response.data) {
        alerts := alerts + ["Booking confirmed!"];
        navigations := navigations + ["/dashboard"];
      } else {
        errorMessage := "Booking failed. Please try again.";
      }
      loading := false;
    }
  }

  /** A page opened without navigation state never reaches the wallet or
      booking endpoints. */
  lemma NoStateNoRequests(state: Value)
    requires !Truthy(state)
    ensures !StateComplete(StateProp(state, "flight"), StateProp(state, "userId"), StateProp(state, "token"))
  {
  }
}
