/** The airplane administration screen: a form that switches between adding
    a new airplane and editing a chosen one, with update and delete
    addressed by the airplane number. */
module AdminAirplanes {
  import opened Js
  import opened Outcomes

  /** The requests sent to the airplane endpoints; update and delete carry
      the number as it appears in the URL. */
  datatype AirplaneRequest = Add(airplane: Record) | Update(number: string, airplane: Record) | Delete(number: string)

  /** The five inputs of the form. */
  datatype AirplaneField = AirplaneNumber | AirplaneName | AirplaneModel | Manufacturer | Capacity

  function FieldKey(f: AirplaneField): string {
    match f
    case AirplaneNumber => "airplaneNumber"
    case AirplaneName => "airplaneName"
    case AirplaneModel => "airplaneModel"
    case Manufacturer => "manufacturer"
    case Capacity => "capacity"
  }

  /** The blank form: the five fields, each the empty string. */
  const EmptyAirplane: Record :=
    [("airplaneNumber", Str("")), ("airplaneName", Str("")), ("airplaneModel", Str("")),
     ("manufacturer", Str("")), ("capacity", Str(""))]

  /** Every field of the blank form reads as the empty string. */
  lemma EmptyAirplaneFields(f: AirplaneField)
    ensures Lookup(EmptyAirplane, FieldKey(f)) == Str("")
  {
    var e := EmptyAirplane;
    assert e[1..][1..][1..][1..][0] == e[4];
  }

  class Component {
    const token: Value
    var airplanes: seq<Record>
    var newAirplane: Record
    var editAirplane: Option<Record>
    var isEditing: bool
    var requests: seq<AirplaneRequest>
    var alerts: seq<string>
    /** How many times the list was requested. */
    var fetches: nat

    /** The form is in edit mode exactly when an airplane is being edited. */
    ghost predicate Valid()
      reads this
    {
      isEditing <==> editAirplane.Some?
    }

    constructor (token: Value)
      ensures Valid()
      ensures this.token == token && airplanes == [] && newAirplane == EmptyAirplane
      ensures editAirplane == None && !isEditing
      ensures requests == [] && alerts == [] && fetches == 0
    {
      this.token := token;
      airplanes := [];
      newAirplane := EmptyAirplane;
      editAirplane := None;
      isEditing := false;
      requests, alerts, fetches := [], [], 0;
    }

    /** `fetchAirplanes`; also the mount effect, which runs without checking
      the token. */
    method FetchAirplanes(response: Response<seq<Record>>)
      requires Valid()
      modifies this
      ensures Valid()
      ensures fetches == old(fetches) + 1
      ensures response.Ok? ==> airplanes == response.data
      ensures response.Failed? ==> airplanes == old(airplanes)
      ensures newAirplane == old(newAirplane) && editAirplane == old(editAirplane) && isEditing == old(isEditing)
      ensures requests == old(requests) && alerts == old(alerts)
    {
      fetches := fetches + 1;
      if response.Ok? {
        airplanes := response.data;
      }
    }

    /** `handleEditClick`: the chosen airplane goes into the form in edit
      mode. */
    method HandleEditClick(airplane: Record)
      requires Valid()
      modifies this
      ensures Valid()
      ensures editAirplane == Some(airplane) && isEditing
      ensures airplanes == old(airplanes) && newAirplane == old(newAirplane)
      ensures requests == old(requests) && alerts == old(alerts) && fetches == old(fetches)
    {
      editAirplane := Some(airplane);
      isEditing := true;
    }

    /** An input of the form: in edit mode it changes the edited airplane,
      otherwise the new one, and only the one field. */
    method EditField(field: AirplaneField, value: string)
      requires Valid()
      modifies this
      ensures Valid()
      ensures isEditing == old(isEditing)
      ensures old(isEditing) ==>
        editAirplane.Some? &&
        Lookup(editAirplane.value, FieldKey(field)) == Str(value) &&
        (forall k :: k != FieldKey(field) ==> Lookup(editAirplane.value, k) == Lookup(old(editAirplane).value, k)) &&
        newAirplane == old(newAirplane)
      ensures !old(isEditing) ==>
        Lookup(newAirplane, FieldKey(field)) == Str(value) &&
        (forall k :: k != FieldKey(field) ==> Lookup(newAirplane, k) == Lookup(old(newAirplane), k)) &&
        editAirplane == old(editAirplane)
      ensures airplanes == old(airplanes)
      ensures requests == old(requests) && alerts == old(alerts) && fetches == old(fetches)
    {
      if isEditing {
        editAirplane := Some(SetProp(editAirplane.value, FieldKey(field), Str(value)));
      } else {
        newAirplane := SetProp(newAirplane, FieldKey(field), Str(value));
      }
    }

    /** `handleAddAirplane`: the new airplane is posted; success blanks the
      form and reloads, failure alerts and keeps the form. */
    method HandleAddAirplane(saved: bool, reload: Response<seq<Record>>)
      requires Valid()
      modifies this
      ensures Valid()
      ensures requests == old(requests) + [Add(old(newAirplane))]
      ensures saved ==>
        newAirplane == EmptyAirplane && alerts == old(alerts) && fetches == old(fetches) + 1 &&
        (reload.Ok? ==> airplanes == reload.data) && (reload.Failed? ==> airplanes == old(airplanes))
      ensures !saved ==>
        newAirplane == old(newAirplane) && alerts == old(alerts) + ["Failed to add airplane"] &&
        fetches == old(fetches) && airplanes == old(airplanes)
      ensures editAirplane == old(editAirplane) && isEditing == old(isEditing)
    {
      requests := requests + [Add(newAirplane)];
      if !saved {
        alerts := alerts + ["Failed to add airplane"];
        return;
      }
      newAirplane := EmptyAirplane;
      FetchAirplanes(reload);
    }

    /** `handleUpdateAirplane`, reachable only in edit mode: the edited
      airplane is put to its own number; success leaves edit mode and
      reloads, failure alerts and stays in edit mode with the edits. */
    method HandleUpdateAirplane(saved: bool, reload: Response<seq<Record>>)
      requires Valid() && isEditing
      modifies this
      ensures Valid()
      ensures requests == old(requests) +
        [Update(ToString(Lookup(old(editAirplane).value, "airplaneNumber")), old(editAirplane).value)]
      ensures saved ==>
        editAirplane == None && !isEditing && alerts == old(alerts) && fetches == old(fetches) + 1 &&
        (reload.Ok? ==> airplanes == reload.data) && (reload.Failed? ==> airplanes == old(airplanes))
      ensures !saved ==>
        editAirplane == old(editAirplane) && isEditing && alerts == old(alerts) + ["Failed to update airplane"] &&
        fetches == old(fetches) && airplanes == old(airplanes)
      ensures newAirplane == old(newAirplane)
    {
      var plane := editAirplane.value;
      requests := requests + [Update(ToString(Lookup(plane, "airplaneNumber")), plane)];
      if !saved {
        alerts := alerts + ["Failed to update airplane"];
        return;
      }
      editAirplane := None;
      isEditing := false;
      FetchAirplanes(reload);
    }

    /** `handleDeleteAirplane`: the delete goes to the number; success
      reloads, failure alerts. */
    method HandleDeleteAirplane(airplaneNumber: Value, deleted: bool, reload: Response<seq<Record>>)
      requires Valid()
      modifies this
      ensures Valid()
      ensures requests == old(requests) + [Delete(ToString(airplaneNumber))]
      ensures deleted ==>
        fetches == old(fetches) + 1 && alerts == old(alerts) &&
        (reload.Ok? ==> airplanes == reload.data) && (reload.Failed? ==> airplanes == old(airplanes))
      ensures !deleted ==>
        fetches == old(fetches) && alerts == old(alerts) + ["Failed to delete airplane"] &&
        airplanes == old(airplanes)
      ensures newAirplane == old(newAirplane) && editAirplane == old(editAirplane) && isEditing == old(isEditing)
    {
      requests := requests + [Delete(ToString(airplaneNumber))];
      if deleted {
        FetchAirplanes(reload);
      } else {
        alerts := alerts + ["Failed to delete airplane"];
      }
    }

    /** The form button: update in edit mode, add otherwise. */
    method Submit(saved: bool, reload: Response<seq<Record>>)
      requires Valid()
      modifies this
      ensures Valid()
      ensures old(isEditing) ==>
        requests == old(requests) +
          [Update(ToString(Lookup(old(editAirplane).value, "airplaneNumber")), old(editAirplane).value)]
      ensures !old(isEditing) ==> requests == old(requests) + [Add(old(newAirplane))]
      ensures saved ==>
        !isEditing && editAirplane == None && alerts == old(alerts) && fetches == old(fetches) + 1 &&
        (reload.Ok? ==> airplanes == reload.data) && (reload.Failed? ==> airplanes == old(airplanes))
      ensures saved && old(isEditing) ==> newAirplane == old(newAirplane)
      ensures saved && !old(isEditing) ==> newAirplane == EmptyAirplane
      ensures !saved ==>
        isEditing == old(isEditing) && editAirplane == old(editAirplane) && newAirplane == old(newAirplane) &&
        fetches == old(fetches) && airplanes == old(airplanes)
      ensures !saved && old(isEditing) ==> alerts == old(alerts) + ["Failed to update airplane"]
      ensures !saved && !old(isEditing) ==> alerts == old(alerts) + ["Failed to add airplane"]
    {
      if isEditing {
        HandleUpdateAirplane(saved, reload);
      } else {
        HandleAddAirplane(saved, reload);
      }
    }
  }
}
