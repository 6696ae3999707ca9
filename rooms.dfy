/** The room management screen: rooms across all hostels, a search box, a
    dialog form with four amenity check boxes, add / update / delete, the
    three status counts, and the per-room occupancy percentage. */
module Rooms {
  import opened Records
  import opened JsText
  import opened Lookups
  import JsMath

  /** `hostelId` is the Select's value (`None` for ''), `hostelName` the
      looked-up name (`None` for undefined), `tenant` is nullable. */
  datatype Room = Room(
    id: int, roomNumber: string, hostelId: Option<int>, hostelName: Option<string>,
    capacity: int, occupied: int, roomType: string, rent: int, status: string,
    amenities: seq<string>, tenant: Option<string>)

  datatype AmenityFlags = AmenityFlags(ac: bool, wifi: bool, parking: bool, laundry: bool)

  const NoAmenities := AmenityFlags(false, false, false, false)

  /** The dialog's form; capacity and rent are required number inputs
      (`None` is the blank of a reset form). */
  datatype RoomForm = RoomForm(
    roomNumber: string, hostelId: Option<int>, capacity: Option<int>, roomType: string,
    rent: Option<int>, amenities: AmenityFlags)

  const EmptyForm := RoomForm("", None, None, "", None, NoAmenities)

  predicate Submittable(f: RoomForm)
  {
    f.capacity.Some? && f.rent.Some?
  }

  const InitialRooms: seq<Room> := [
    Room(1, "101", Some(1), Some("Downtown Hostel"), 2, 2, "AC", 750, "occupied",
         ["AC", "WiFi", "Parking"], Some("John Smith")),
    Room(2, "102", Some(1), Some("Downtown Hostel"), 1, 0, "Non-AC", 600, "available",
         ["WiFi"], None),
    Room(3, "201", Some(2), Some("University Campus"), 4, 3, "AC", 900, "occupied",
         ["AC", "WiFi", "Laundry"], Some("Alice Johnson")),
    Room(4, "202", Some(2), Some("University Campus"), 2, 0, "AC", 800, "maintenance",
         ["AC", "WiFi"], None),
    Room(5, "301", Some(3), Some("City Center"), 1, 1, "AC", 950, "occupied",
         ["AC", "WiFi", "Parking", "Laundry"], Some("Bob Wilson"))
  ]

  // ----- search -----

  /** The intended row filter: room number, hostel name or tenant contains
      the term, ignoring case; an undefined hostel name or a null tenant
      matches nothing. */
  predicate Matches(r: Room, term: string)
  {
    || ContainsIgnoringCase(r.roomNumber, term)
    || (r.hostelName.Some? && ContainsIgnoringCase(r.hostelName.value, term))
    || (r.tenant.Some? && ContainsIgnoringCase(r.tenant.value, term))
  }

  /** A room without a tenant can only match through its number or its
      hostel's name. */
  lemma NoTenantMatchesOnlyByNumberOrHostel(r: Room, term: string)
    requires r.tenant.None?
    ensures Matches(r, term) <==>
      ContainsIgnoringCase(r.roomNumber, term) ||
      (r.hostelName.Some? && ContainsIgnoringCase(r.hostelName.value, term))
  {
  }

  /** filteredRooms, null-safe on the hostel name. */
  function Search(rs: seq<Room>, term: string): (r: seq<Room>)
    ensures IsSubsequence(r, rs)
    ensures forall x :: x in r ==> x in rs && Matches(x, term)
    ensures forall x :: x in rs && Matches(x, term) ==> x in r
    ensures term == "" ==> r == rs
  {
    FilterIsSubsequence(rs, (x: Room) => Matches(x, term));
    EmptyTermMatchesAll();
    Filter(rs, (x: Room) => Matches(x, term))
  }

  /** The filter callback as written: `room.hostelName.toLowerCase()` throws
      (`None`) when the hostel name is undefined and the room number did not
      match; `room.tenant?.…` makes a null tenant falsy. */
  function MatchesAsWritten(r: Room, term: string): Option<bool>
  {
    if ContainsIgnoringCase(r.roomNumber, term) then Some(true)
    else if r.hostelName.None? then None
    else if ContainsIgnoringCase(r.hostelName.value, term) then Some(true)
    else Some(r.tenant.Some? && ContainsIgnoringCase(r.tenant.value, term))
  }

  /** filteredRooms as written: `None` when rendering throws a TypeError.
      Where it does not throw it is the null-safe Search. */
  function SearchAsWritten(rs: seq<Room>, term: string): (r: Option<seq<Room>>)
    ensures r.None? || r == Some(Search(rs, term))
    ensures (forall x :: x in rs ==> x.hostelName.Some?) ==> r == Some(Search(rs, term))
  {
    FilterOrThrowAgrees(rs, (x: Room) => MatchesAsWritten(x, term), (x: Room) => Matches(x, term));
    FilterOrThrow(rs, (x: Room) => MatchesAsWritten(x, term))
  }

  /** Adding a room with no hostel picked (the Select is not required) and
      then typing a term its room number does not contain makes the as-written
      filter throw, while the null-safe search just leaves that room out. */
  lemma AddWithoutHostelBreaksSearch(rs: seq<Room>, f: RoomForm, now: int, term: string)
    requires Submittable(f) && f.hostelId.None?
    requires !ContainsIgnoringCase(f.roomNumber, term)
    ensures SearchAsWritten(Add(rs, f, now), term).None?
    ensures NewRoom(now, f) !in Search(Add(rs, f, now), term)
  {
    var x := NewRoom(now, f);
    var p := (y: Room) => MatchesAsWritten(y, term);
    assert x in Add(rs, f, now) && p(x).None?;
  }

  // ----- amenities -----

  /** The keys of `formData.amenities`, in the order Object.entries lists them. */
  datatype Amenity = Ac | Wifi | Parking | Laundry

  const AmenityKeys: seq<Amenity> := [Ac, Wifi, Parking, Laundry]

  /** The key as the source spells it. */
  function KeyName(a: Amenity): string
  {
    match a
    case Ac => "ac"
    case Wifi => "wifi"
    case Parking => "parking"
    case Laundry => "laundry"
  }

  /** `formData.amenities[key]` */
  function FlagOf(f: AmenityFlags, a: Amenity): bool
  {
    match a
    case Ac => f.ac
    case Wifi => f.wifi
    case Parking => f.parking
    case Laundry => f.laundry
  }

  /** `key.charAt(0).toUpperCase() + key.slice(1)` */
  function Capitalize(key: string): string
  {
    if key == "" then "" else [UpperChar(key[0])] + key[1..]
  }

  function CountTrue(f: AmenityFlags): nat
  {
    (if f.ac then 1 else 0) + (if f.wifi then 1 else 0) +
    (if f.parking then 1 else 0) + (if f.laundry then 1 else 0)
  }

  /** `Object.entries(amenities).filter(([k, v]) => v).map(([k]) =>
      Capitalize(k))` over the given keys, filter and map done in one pass. */
  function CheckedNames(keys: seq<Amenity>, f: AmenityFlags): seq<string>
  {
    if keys == [] then []
    else (if FlagOf(f, keys[0]) then [Capitalize(KeyName(keys[0]))] else []) + CheckedNames(keys[1..], f)
  }

  /** The amenity list handleSubmit stores. */
  function AmenityList(f: AmenityFlags): seq<string>
  {
    CheckedNames(AmenityKeys, f)
  }

  lemma CapitalizedKeys()
    ensures Capitalize(KeyName(Ac)) == "Ac" && Capitalize(KeyName(Wifi)) == "Wifi"
    ensures Capitalize(KeyName(Parking)) == "Parking" && Capitalize(KeyName(Laundry)) == "Laundry"
  {
  }

  /** The stored list holds the checked keys in form order, spelled 'Ac',
      'Wifi', 'Parking', 'Laundry', one entry per checked box. */
  lemma AmenityListSpelledOut(f: AmenityFlags)
    ensures AmenityList(f) == (if f.ac then ["Ac"] else []) + (if f.wifi then ["Wifi"] else []) +
                              (if f.parking then ["Parking"] else []) + (if f.laundry then ["Laundry"] else [])
    ensures |AmenityList(f)| == CountTrue(f)
  {
    CapitalizedKeys();
    var s1: seq<Amenity> := [Wifi, Parking, Laundry];
    var s2: seq<Amenity> := [Parking, Laundry];
    var s3: seq<Amenity> := [Laundry];
    assert AmenityKeys[1..] == s1 && s1[1..] == s2 && s2[1..] == s3 && s3[1..] == [];
    var n3 := if f.laundry then ["Laundry"] else [];
    assert CheckedNames(s3, f) == n3;
    var n2 := (if f.parking then ["Parking"] else []) + n3;
    assert CheckedNames(s2, f) == n2;
    var n1 := (if f.wifi then ["Wifi"] else []) + n2;
    assert CheckedNames(s1, f) == n1;
  }

  /** The check boxes handleEdit recovers from a stored amenity list. */
  function FlagsFromList(list: seq<string>): AmenityFlags
  {
    AmenityFlags("AC" in list, "WiFi" in list, "Parking" in list, "Laundry" in list)
  }

  /** Submitting and then editing again recovers the parking and laundry
      boxes but always clears AC and WiFi: submit spells them 'Ac' and
      'Wifi', edit looks for 'AC' and 'WiFi'. */
  lemma SubmitThenEditFlags(f: AmenityFlags)
    ensures FlagsFromList(AmenityList(f)) == AmenityFlags(false, false, f.parking, f.laundry)
  {
    AmenityListSpelledOut(f);
    var l := AmenityList(f);
    assert "AC" !in l && "WiFi" !in l;
  }

  /** The mock rooms' lists, spelled 'AC' and 'WiFi', do survive one edit. */
  lemma EditThenSubmitMockRoom()
    ensures FlagsFromList(InitialRooms[0].amenities) == AmenityFlags(true, true, true, false)
    ensures AmenityList(FlagsFromList(InitialRooms[0].amenities)) == ["Ac", "Wifi", "Parking"]
  {
    AmenityListSpelledOut(FlagsFromList(InitialRooms[0].amenities));
  }

  // ----- submit, edit, delete -----

  /** The update branch: `{ ...r, ...formData, hostelName, capacity, rent,
      amenities: amenitiesList }`; id, occupancy, status and tenant stay. */
  function Merge(r: Room, f: RoomForm): (m: Room)
    requires Submittable(f)
    ensures m.id == r.id && m.occupied == r.occupied && m.status == r.status && m.tenant == r.tenant
    ensures m.roomNumber == f.roomNumber && m.hostelId == f.hostelId && m.roomType == f.roomType
    ensures m.capacity == f.capacity.value && m.rent == f.rent.value
  {
    r.(roomNumber := f.roomNumber, hostelId := f.hostelId,
       hostelName := HostelNameOf(HostelChoices, f.hostelId),
       capacity := f.capacity.value, roomType := f.roomType, rent := f.rent.value,
       amenities := AmenityList(f.amenities))
  }

  function Update(rs: seq<Room>, id: int, f: RoomForm): (r: seq<Room>)
    requires Submittable(f)
    ensures |r| == |rs|
    ensures forall i :: 0 <= i < |rs| ==> r[i].id == rs[i].id
    ensures forall i :: 0 <= i < |rs| && rs[i].id != id ==> r[i] == rs[i]
    ensures forall i :: 0 <= i < |rs| && rs[i].id == id ==> r[i] == Merge(rs[i], f)
    ensures (forall x :: x in rs ==> x.id != id) ==> r == rs
  {
    UpdateWhere(rs, (x: Room) => x.id == id, (x: Room) => Merge(x, f))
  }

  /** The add branch's new room: nobody in it, available, no tenant. */
  function NewRoom(id: int, f: RoomForm): (r: Room)
    requires Submittable(f)
    ensures r.id == id && r.occupied == 0 && r.status == "available" && r.tenant.None?
    ensures r.roomNumber == f.roomNumber && r.hostelId == f.hostelId && r.roomType == f.roomType
    ensures r.capacity == f.capacity.value && r.rent == f.rent.value
  {
    Room(id, f.roomNumber, f.hostelId, HostelNameOf(HostelChoices, f.hostelId),
         f.capacity.value, 0, f.roomType, f.rent.value, "available", AmenityList(f.amenities), None)
  }

  /** A submitted room gets a hostel name exactly when one of the five
      hostels was picked; otherwise its name is undefined. */
  lemma SubmittedHostelName(r: Room, id: int, f: RoomForm)
    requires Submittable(f)
    ensures NewRoom(id, f).hostelName.Some? <==> f.hostelId.Some? && 1 <= f.hostelId.value <= 5
    ensures Merge(r, f).hostelName.Some? <==> f.hostelId.Some? && 1 <= f.hostelId.value <= 5
  {
    if f.hostelId.Some? {
      HostelChoicesResolve(f.hostelId.value);
    }
  }

  /** A submitted room, added or updated, carries the capitalised names of
      exactly the checked amenities, one per checked box. */
  lemma SubmittedAmenities(r: Room, id: int, f: RoomForm)
    requires Submittable(f)
    ensures NewRoom(id, f).amenities == Merge(r, f).amenities
    ensures Merge(r, f).amenities ==
      (if f.amenities.ac then ["Ac"] else []) + (if f.amenities.wifi then ["Wifi"] else []) +
      (if f.amenities.parking then ["Parking"] else []) + (if f.amenities.laundry then ["Laundry"] else [])
    ensures |Merge(r, f).amenities| == CountTrue(f.amenities)
  {
    AmenityListSpelledOut(f.amenities);
  }

  function Add(rs: seq<Room>, f: RoomForm, id: int): (r: seq<Room>)
    requires Submittable(f)
    ensures |r| == |rs| + 1 && r[..|rs|] == rs && r[|rs|] == NewRoom(id, f)
  {
    rs + [NewRoom(id, f)]
  }

  function Delete(rs: seq<Room>, id: int): (r: seq<Room>)
    ensures IsSubsequence(r, rs)
    ensures forall x :: x in r ==> x in rs && x.id != id
    ensures forall x :: x in rs && x.id != id ==> x in r
  {
    FilterIsSubsequence(rs, (x: Room) => x.id != id);
    Filter(rs, (x: Room) => x.id != id)
  }

  lemma AddThenDelete(rs: seq<Room>, f: RoomForm, id: int)
    requires Submittable(f)
    requires forall x :: x in rs ==> x.id != id
    ensures Delete(Add(rs, f, id), id) == rs
  {
    FilterAppend(rs, NewRoom(id, f), (x: Room) => x.id != id);
  }

  /** Update, Add with a fresh id, and Delete keep room ids distinct. */
  lemma UpdateKeepsIdsDistinct(rs: seq<Room>, id: int, f: RoomForm)
    requires Submittable(f) && UniqueBy(rs, (x: Room) => x.id)
    ensures UniqueBy(Update(rs, id, f), (x: Room) => x.id)
  {
    UpdateKeepsKeys(rs, (x: Room) => x.id == id, (x: Room) requires Submittable(f) => Merge(x, f),
                    (x: Room) => x.id);
  }

  lemma AddKeepsIdsDistinct(rs: seq<Room>, f: RoomForm, id: int)
    requires Submittable(f) && UniqueBy(rs, (x: Room) => x.id)
    requires forall x :: x in rs ==> x.id != id
    ensures UniqueBy(Add(rs, f, id), (x: Room) => x.id)
  {
    AppendFreshKeepsUnique(rs, NewRoom(id, f), (x: Room) => x.id);
  }

  lemma DeleteKeepsIdsDistinct(rs: seq<Room>, id: int)
    requires UniqueBy(rs, (x: Room) => x.id)
    ensures UniqueBy(Delete(rs, id), (x: Room) => x.id)
  {
    FilterKeepsUnique(rs, (x: Room) => x.id != id, (x: Room) => x.id);
  }

  /** The form handleEdit loads. */
  function FormOf(r: Room): (f: RoomForm)
    ensures Submittable(f)
    ensures f.amenities == FlagsFromList(r.amenities)
    ensures f.roomNumber == r.roomNumber && f.hostelId == r.hostelId && f.roomType == r.roomType
    ensures f.capacity == Some(r.capacity) && f.rent == Some(r.rent)
  {
    RoomForm(r.roomNumber, r.hostelId, Some(r.capacity), r.roomType, Some(r.rent),
             FlagsFromList(r.amenities))
  }

  /** A room whose stored hostel name agrees with the lookup. */
  predicate Consistent(r: Room)
  {
    r.hostelName == HostelNameOf(HostelChoices, r.hostelId)
  }

  /** Opening a consistent room for editing and submitting the form untouched
      changes nothing but that room's amenity list, which is respelled from
      the recovered boxes (so a stored 'AC' becomes 'Ac', and names outside
      the four keys are dropped), when ids are distinct. */
  lemma EditThenSubmitRespellsAmenities(rs: seq<Room>, k: int)
    requires UniqueBy(rs, (x: Room) => x.id) && 0 <= k < |rs| && Consistent(rs[k])
    ensures Update(rs, rs[k].id, FormOf(rs[k])) ==
              rs[k := rs[k].(amenities := AmenityList(FlagsFromList(rs[k].amenities)))]
  {
    var r := Update(rs, rs[k].id, FormOf(rs[k]));
    var e := rs[k := rs[k].(amenities := AmenityList(FlagsFromList(rs[k].amenities)))];
    assert forall i :: 0 <= i < |rs| ==> r[i] == e[i];
  }

  /** The table the submit handler leaves: the update branch when a room is
      selected, the add branch otherwise; either keeps ids distinct. */
  function Submit(xs: seq<Room>, selected: Option<Room>, f: RoomForm, now: int): (r: seq<Room>)
    requires Submittable(f) && UniqueBy(xs, (x: Room) => x.id)
    requires selected.None? ==> forall x :: x in xs ==> x.id != now
    ensures UniqueBy(r, (x: Room) => x.id)
  {
    if selected.Some? then
      UpdateKeepsIdsDistinct(xs, selected.value.id, f);
      Update(xs, selected.value.id, f)
    else
      AddKeepsIdsDistinct(xs, f, now);
      Add(xs, f, now)
  }

  // ----- stats -----

  function CountStatus(rs: seq<Room>, status: string): (n: nat)
    ensures n <= |rs|
  {
    Count(rs, (x: Room) => x.status == status)
  }

  /** The available, occupied and maintenance cards count disjoint sets of
      rooms, so together they count at most every room. */
  lemma StatusCountsDisjoint(rs: seq<Room>)
    ensures CountStatus(rs, "available") + CountStatus(rs, "occupied") +
            CountStatus(rs, "maintenance") <= |rs|
  {
    CountsOfExclusive(rs, (y: Room) => y.status == "available", (y: Room) => y.status == "occupied",
                      (y: Room) => y.status == "maintenance");
  }

  class RoomScreen {
    var searchTerm: string
    var isAddDialogOpen: bool
    var selectedRoom: Option<Room>
    var formData: RoomForm
    var rooms: seq<Room>

    predicate Valid()
      reads this
    {
      UniqueBy(rooms, (x: Room) => x.id)
    }

    constructor ()
      ensures Valid()
      ensures rooms == InitialRooms && formData == EmptyForm
      ensures searchTerm == "" && !isAddDialogOpen && selectedRoom.None?
    {
      searchTerm := "";
      isAddDialogOpen := false;
      selectedRoom := None;
      formData := EmptyForm;
      rooms := InitialRooms;
    }

    function FilteredRooms(): seq<Room>
      reads this
    {
      Search(rooms, searchTerm)
    }

    method SetSearchTerm(term: string)
      modifies this
      ensures searchTerm == term
      ensures rooms == old(rooms) && formData == old(formData)
      ensures selectedRoom == old(selectedRoom) && isAddDialogOpen == old(isAddDialogOpen)
    {
      searchTerm := term;
    }

    /** One amenity check box: `amenities: { ...formData.amenities, [key]: checked }`. */
    method SetAmenity(key: Amenity, checked: bool)
      modifies this
      ensures FlagOf(formData.amenities, key) == checked
      ensures forall k :: k != key ==>
        FlagOf(formData.amenities, k) == FlagOf(old(formData.amenities), k)
      ensures formData.(amenities := old(formData.amenities)) == old(formData)
      ensures rooms == old(rooms) && selectedRoom == old(selectedRoom)
      ensures isAddDialogOpen == old(isAddDialogOpen) && searchTerm == old(searchTerm)
    {
      var a := formData.amenities;
      a := match key
           case Ac => a.(ac := checked)
           case Wifi => a.(wifi := checked)
           case Parking => a.(parking := checked)
           case Laundry => a.(laundry := checked);
      formData := formData.(amenities := a);
    }

    /** handleSubmit, then resetForm. */
    method HandleSubmit(now: int)
      requires Valid() && Submittable(formData)
      requires selectedRoom.None? ==> forall x :: x in rooms ==> x.id != now
      modifies this
      ensures Valid()
      ensures old(selectedRoom).Some? ==>
        rooms == Update(old(rooms), old(selectedRoom).value.id, old(formData))
      ensures old(selectedRoom).None? ==> rooms == Add(old(rooms), old(formData), now)
      ensures !isAddDialogOpen && selectedRoom.None? && formData == EmptyForm
      ensures searchTerm == old(searchTerm)
    {
      rooms := Submit(rooms, selectedRoom, formData, now);
      isAddDialogOpen := false;
      selectedRoom := None;
      formData := EmptyForm;
    }

    method HandleEdit(r: Room)
      modifies this
      ensures selectedRoom == Some(r) && formData == FormOf(r) && isAddDialogOpen
      ensures rooms == old(rooms) && searchTerm == old(searchTerm)
    {
      selectedRoom := Some(r);
      formData := FormOf(r);
      isAddDialogOpen := true;
    }

    method HandleDelete(id: int)
      requires Valid()
      modifies this
      ensures Valid()
      ensures rooms == Delete(old(rooms), id)
      ensures formData == old(formData) && selectedRoom == old(selectedRoom)
      ensures isAddDialogOpen == old(isAddDialogOpen) && searchTerm == old(searchTerm)
    {
      DeleteKeepsIdsDistinct(rooms, id);
      rooms := Delete(rooms, id);
    }
  }
}
