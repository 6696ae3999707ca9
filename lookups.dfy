/** The constant choice lists that the room, tenant and expense screens show
    in their Select widgets, and the `find(...)?.name` lookups their submit
    handlers run against them. A Select's value is a decimal id string or
    '' when nothing is picked; `parseInt('')` is NaN and matches no id, so a
    picked value is `Some(id)` and no pick is `None`. */
module Lookups {
  import opened Records

  datatype HostelChoice = HostelChoice(id: int, name: string)

  /** The same five hostels appear in RoomManagement, TenantManagement and
      FinancialManagement. */
  const HostelChoices: seq<HostelChoice> := [
    HostelChoice(1, "Downtown Hostel"),
    HostelChoice(2, "University Campus"),
    HostelChoice(3, "City Center"),
    HostelChoice(4, "Riverside"),
    HostelChoice(5, "Metro Station")
  ]

  /** `hostels.find(h => h.id === parseInt(hostelId))?.name`; `None` is
      `undefined`. */
  function HostelNameOf(choices: seq<HostelChoice>, hostelId: Option<int>): (r: Option<string>)
    ensures hostelId.None? ==> r.None?
    ensures r.Some? ==> exists h :: h in choices && h.id == hostelId.value && h.name == r.value
    ensures hostelId.Some? && (forall h :: h in choices ==> h.id != hostelId.value) ==> r.None?
  {
    match hostelId
    case None => None
    case Some(id) =>
      match Find(choices, (h: HostelChoice) => h.id == id)
      case None => None
      case Some(h) => Some(h.name)
  }

  /** Every id of the five constant hostels resolves, and only those do. */
  lemma HostelChoicesResolve(id: int)
    ensures HostelNameOf(HostelChoices, Some(id)).Some? <==> 1 <= id <= 5
  {
    if !(1 <= id <= 5) {
      assert forall h :: h in HostelChoices ==> h.id != id;
    }
  }

  /** The rooms TenantManagement offers in its room Select. */
  datatype RoomChoice = RoomChoice(id: int, number: string, hostelId: int)

  const RoomChoices: seq<RoomChoice> := [
    RoomChoice(1, "101", 1),
    RoomChoice(2, "102", 1),
    RoomChoice(3, "201", 2),
    RoomChoice(4, "202", 2),
    RoomChoice(5, "301", 3)
  ]

  /** `rooms.find(r => r.id === parseInt(roomId))?.number` */
  function RoomNumberOf(choices: seq<RoomChoice>, roomId: Option<int>): (r: Option<string>)
    ensures roomId.None? ==> r.None?
    ensures r.Some? ==> exists c :: c in choices && c.id == roomId.value && c.number == r.value
    ensures roomId.Some? && (forall c :: c in choices ==> c.id != roomId.value) ==> r.None?
  {
    match roomId
    case None => None
    case Some(id) =>
      match Find(choices, (c: RoomChoice) => c.id == id)
      case None => None
      case Some(c) => Some(c.number)
  }

  /** availableRooms: every room while no hostel is picked, otherwise the
      rooms of the picked hostel, in list order. */
  function AvailableRooms(choices: seq<RoomChoice>, hostelId: Option<int>): (r: seq<RoomChoice>)
    ensures IsSubsequence(r, choices)
    ensures hostelId.None? ==> r == choices
    ensures hostelId.Some? ==> forall c :: c in r ==> c.hostelId == hostelId.value
    ensures hostelId.Some? ==> forall c :: c in choices && c.hostelId == hostelId.value ==> c in r
  {
    FilterIsSubsequence(choices, (c: RoomChoice) => hostelId.None? || c.hostelId == hostelId.value);
    Filter(choices, (c: RoomChoice) => hostelId.None? || c.hostelId == hostelId.value)
  }

  /** Riverside and Metro Station have no rooms to offer, so a tenant placed
      there cannot be given a room. */
  lemma NoRoomsOutsideFirstThreeHostels(hostelId: int)
    requires hostelId < 1 || hostelId > 3
    ensures AvailableRooms(RoomChoices, Some(hostelId)) == []
  {
  }

  /** Each offered room resolves to its number. */
  lemma RoomChoicesResolve(id: int)
    ensures RoomNumberOf(RoomChoices, Some(id)).Some? <==> 1 <= id <= 5
  {
    if !(1 <= id <= 5) {
      assert forall c :: c in RoomChoices ==> c.id != id;
    }
  }

  /** The choice lists are numbered 1, 2, ... in order, so an id in range
      resolves to the entry at that position. */
  lemma HostelNameById(id: int)
    requires 1 <= id <= 5
    ensures HostelNameOf(HostelChoices, Some(id)) == Some(HostelChoices[id - 1].name)
  {
    assert forall k :: 0 <= k < |HostelChoices| ==> HostelChoices[k].id == k + 1;
    assert HostelChoices[id - 1] in HostelChoices;
  }

  lemma RoomNumberById(id: int)
    requires 1 <= id <= 5
    ensures RoomNumberOf(RoomChoices, Some(id)) == Some(RoomChoices[id - 1].number)
  {
    assert forall k :: 0 <= k < |RoomChoices| ==> RoomChoices[k].id == k + 1;
    assert RoomChoices[id - 1] in RoomChoices;
  }
}
