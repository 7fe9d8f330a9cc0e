/** The passenger manifest helpers: the first-failure completeness check and
    the renaming of form entries into the request shape. */
module BookingModel {
  import opened Js

  /** One entry of the passenger form, as the inputs hold it. */
  datatype Passenger = Passenger(name: Value, age: Value, gender: Value)

  /** One passenger as the booking request carries it. */
  datatype PassengerRequest =
    PassengerRequest(passengerName: Value, passengerAge: Value, passengerGender: Value)

  /** `validatePassengerDetails` returns `true` or a message string. */
  datatype Validation = True | Message(text: string)

  /** All three fields are truthy; an age of 0 or "" is therefore missing. */
  predicate Complete(p: Passenger) {
    Truthy(p.name) && Truthy(p.age) && Truthy(p.gender)
  }

  const MessagePrefix: string := "\U{2757} Please fill all fields for Passenger "

  /** The message for the passenger at 0-based index `i`, which names the
      1-based position. */
  function MissingFieldsMessage(i: nat): (text: string)
    ensures |text| > |MessagePrefix| && text[..|MessagePrefix|] == MessagePrefix
    ensures ParseIntString(text[|MessagePrefix|..]) == Num(i + 1)
  {
    var text := MessagePrefix + NatToString(i + 1);
    assert text[|MessagePrefix|..] == NatToString(i + 1);
    ParseIntOfNatString(i + 1);
    text
  }

  /** Scans the manifest in order and stops at the first incomplete entry. */
  method ValidatePassengerDetails(passengers: seq<Passenger>) returns (r: Validation)
    ensures r.True? <==> forall i :: 0 <= i < |passengers| ==> Complete(passengers[i])
    ensures r.Message? ==>
      exists i :: 0 <= i < |passengers| && !Complete(passengers[i]) &&
        (forall j :: 0 <= j < i ==> Complete(passengers[j])) &&
        r.text == MissingFieldsMessage(i)
  {
    var i := 0;
    while i < |passengers|
      invariant 0 <= i <= |passengers|
      invariant forall j :: 0 <= j < i ==> Complete(passengers[j])
    {
      if !Complete(passengers[i]) {
        return Message(MissingFieldsMessage(i));
      }
      i := i + 1;
    }
    return True;
  }

  /** Different positions give different messages, so the message identifies
      the passenger. */
  lemma MessageIdentifiesPassenger(i: nat, j: nat)
    requires MissingFieldsMessage(i) == MissingFieldsMessage(j)
    ensures i == j
  {
    var n := |MessagePrefix|;
    assert MissingFieldsMessage(i)[n..] == MissingFieldsMessage(j)[n..];
  }

  /** An age of 0 or the empty string counts as missing. */
  lemma ZeroOrEmptyAgeIsMissing(p: Passenger)
    requires p.age == Num(0) || p.age == Str("")
    ensures !Complete(p)
  {
  }

  /** `passengerDetails.map(p => ({ passengerName: p.name,
      passengerAge: parseInt(p.age), passengerGender: p.gender }))`. */
  function MapPassengerDetails(passengers: seq<Passenger>): (r: seq<PassengerRequest>)
    ensures |r| == |passengers|
    ensures forall i :: 0 <= i < |r| ==>
      r[i].passengerName == passengers[i].name &&
      r[i].passengerGender == passengers[i].gender &&
      r[i].passengerAge == ParseInt(passengers[i].age)
  {
    seq(|passengers|, i requires 0 <= i < |passengers| =>
      PassengerRequest(passengers[i].name, ParseInt(passengers[i].age), passengers[i].gender))
  }

  /** An age typed as digits, or held as a number, reaches the request as
      that number. */
  lemma MappedAgeIsTypedNumber(passengers: seq<Passenger>, i: nat, n: nat)
    requires i < |passengers|
    requires passengers[i].age == Str(NatToString(n)) || passengers[i].age == Num(n)
    ensures MapPassengerDetails(passengers)[i].passengerAge == Num(n)
  {
    ParseIntOfNatString(n);
    ParseIntOfNum(n);
  }

  /** Mapping a complete manifest keeps every name and gender present. */
  lemma CompleteManifestMapsPresentFields(passengers: seq<Passenger>)
    requires forall i :: 0 <= i < |passengers| ==> Complete(passengers[i])
    ensures forall i :: 0 <= i < |passengers| ==>
      Truthy(MapPassengerDetails(passengers)[i].passengerName) &&
      Truthy(MapPassengerDetails(passengers)[i].passengerGender)
  {
  }

  /** The completeness check does not look at what the age says: a truthy
      age that `parseInt` cannot read passes the check and reaches the
      request as NaN. */
  lemma CompleteAgeMayNotParse()
    ensures Complete(Passenger(Str("Asha"), Str("abc"), Str("FEMALE")))
    ensures MapPassengerDetails([Passenger(Str("Asha"), Str("abc"), Str("FEMALE"))])[0].passengerAge == NaN
  {
    var ps := [Passenger(Str("Asha"), Str("abc"), Str("FEMALE"))];
    assert ToString(Str("abc")) == "abc";
    assert !IsSpace("abc"[0]);
    FirstNotSpaceNoTrim("abc");
    assert DigitRun("abc", 10) == 0 by {
      assert !IsDigit('a');
    }
  }
}
