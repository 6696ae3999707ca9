/** The hostel management screen: a table of hostels held in component
    state, a search box, a dialog form that either edits the selected hostel
    or adds a new one, delete by id, and the stats cards above the table. */
module Hostels {
  import opened Records
  import opened JsText
  import JsMath

  datatype Hostel = Hostel(
    id: int, name: string, address: string, phone: string, email: string,
    description: string, capacity: int, occupied: int, status: string, revenue: int)

  /** The dialog's form. Capacity is a required number input: `None` is the
      blank '' of a reset form, `Some(n)` is `parseInt` of what was typed. */
  datatype HostelForm = HostelForm(
    name: string, address: string, phone: string, email: string,
    description: string, capacity: Option<int>)

  const EmptyForm := HostelForm("", "", "", "", "", None)

  /** The browser submits the form only once the required capacity is
      filled in. */
  predicate Submittable(f: HostelForm)
  {
    f.capacity.Some?
  }

  const InitialHostels: seq<Hostel> := [
    Hostel(1, "Downtown Hostel", "123 Main St, Downtown", "+1 (555) 123-4567",
           "downtown@hostelhub.com", "Modern hostel in the heart of downtown", 50, 47, "active", 15750),
    Hostel(2, "University Campus", "456 College Ave, University District", "+1 (555) 234-5678",
           "campus@hostelhub.com", "Student-focused accommodation near campus", 80, 70, "active", 21000),
    Hostel(3, "City Center", "789 Business Blvd, City Center", "+1 (555) 345-6789",
           "center@hostelhub.com", "Premium hostel for business travelers", 60, 55, "active", 19800),
    Hostel(4, "Riverside", "321 River Rd, Riverside", "+1 (555) 456-7890",
           "riverside@hostelhub.com", "Scenic hostel with river views", 40, 30, "maintenance", 9000),
    Hostel(5, "Metro Station", "654 Transit Way, Metro District", "+1 (555) 567-8901",
           "metro@hostelhub.com", "Convenient location near public transport", 70, 58, "active", 17400)
  ]

  predicate Matches(h: Hostel, term: string)
  {
    ContainsIgnoringCase(h.name, term) || ContainsIgnoringCase(h.address, term)
  }

  /** filteredHostels: the hostels whose name or address contains the search
      term, ignoring case, in table order. */
  function Search(hs: seq<Hostel>, term: string): (r: seq<Hostel>)
    ensures IsSubsequence(r, hs)
    ensures forall h :: h in r ==> h in hs && Matches(h, term)
    ensures forall h :: h in hs && Matches(h, term) ==> h in r
    ensures term == "" ==> r == hs
  {
    FilterIsSubsequence(hs, (h: Hostel) => Matches(h, term));
    EmptyTermMatchesAll();
    Filter(hs, (h: Hostel) => Matches(h, term))
  }

  /** `{ ...h, ...formData, capacity: parseInt(formData.capacity) }` */
  function Merge(h: Hostel, f: HostelForm): Hostel
    requires Submittable(f)
  {
    h.(name := f.name, address := f.address, phone := f.phone, email := f.email,
       description := f.description, capacity := f.capacity.value)
  }

  /** The update branch of handleSubmit. */
  function Update(hs: seq<Hostel>, id: int, f: HostelForm): (r: seq<Hostel>)
    requires Submittable(f)
    ensures |r| == |hs|
    ensures forall i :: 0 <= i < |hs| ==> r[i].id == hs[i].id
    ensures forall i :: 0 <= i < |hs| && hs[i].id != id ==> r[i] == hs[i]
    ensures forall i :: 0 <= i < |hs| && hs[i].id == id ==>
      && r[i].occupied == hs[i].occupied && r[i].status == hs[i].status && r[i].revenue == hs[i].revenue
      && r[i].name == f.name && r[i].address == f.address && r[i].phone == f.phone
      && r[i].email == f.email && r[i].description == f.description && r[i].capacity == f.capacity.value
    ensures (forall h :: h in hs ==> h.id != id) ==> r == hs
  {
    UpdateWhere(hs, (h: Hostel) => h.id == id, (h: Hostel) => Merge(h, f))
  }

  /** The record the add branch of handleSubmit builds; `id` is the
      `Date.now()` of the submit. */
  function NewHostel(id: int, f: HostelForm): (h: Hostel)
    requires Submittable(f)
    ensures h.id == id && h.occupied == 0 && h.status == "active" && h.revenue == 0
    ensures h.name == f.name && h.address == f.address && h.capacity == f.capacity.value
    ensures h.phone == f.phone && h.email == f.email && h.description == f.description
  {
    Hostel(id, f.name, f.address, f.phone, f.email, f.description, f.capacity.value, 0, "active", 0)
  }

  /** The add branch of handleSubmit: `[...hostels, newHostel]`. */
  function Add(hs: seq<Hostel>, f: HostelForm, id: int): (r: seq<Hostel>)
    requires Submittable(f)
    ensures |r| == |hs| + 1 && r[..|hs|] == hs && r[|hs|] == NewHostel(id, f)
  {
    hs + [NewHostel(id, f)]
  }

  /** handleDelete: `hostels.filter(h => h.id !== id)`. */
  function Delete(hs: seq<Hostel>, id: int): (r: seq<Hostel>)
    ensures IsSubsequence(r, hs)
    ensures forall h :: h in r ==> h in hs && h.id != id
    ensures forall h :: h in hs && h.id != id ==> h in r
    ensures (forall h :: h in hs ==> h.id != id) ==> r == hs
  {
    FilterIsSubsequence(hs, (h: Hostel) => h.id != id);
    Filter(hs, (h: Hostel) => h.id != id)
  }

  /** Adding with an id no hostel has, then deleting that id, gives back the
      original list. */
  lemma AddThenDelete(hs: seq<Hostel>, f: HostelForm, id: int)
    requires Submittable(f)
    requires forall h :: h in hs ==> h.id != id
    ensures Delete(Add(hs, f, id), id) == hs
  {
    FilterAppend(hs, NewHostel(id, f), (h: Hostel) => h.id != id);
  }

  /** The form handleEdit loads (capacity through `toString`). */
  function FormOf(h: Hostel): (f: HostelForm)
    ensures Submittable(f)
    ensures f.name == h.name && f.address == h.address && f.phone == h.phone
    ensures f.email == h.email && f.description == h.description && f.capacity == Some(h.capacity)
  {
    HostelForm(h.name, h.address, h.phone, h.email, h.description, Some(h.capacity))
  }

  /** Editing a hostel and submitting the form untouched leaves the list as
      it was, when ids are distinct. */
  lemma EditThenSubmitUnchanged(hs: seq<Hostel>, k: int)
    requires UniqueBy(hs, (h: Hostel) => h.id)
    requires 0 <= k < |hs|
    ensures Update(hs, hs[k].id, FormOf(hs[k])) == hs
  {
    var r := Update(hs, hs[k].id, FormOf(hs[k]));
    assert forall i :: 0 <= i < |hs| ==> r[i] == hs[i];
  }

  /** reduce((sum, h) => sum + h.capacity, 0) */
  function TotalCapacity(hs: seq<Hostel>): int
  {
    SumOf(hs, (h: Hostel) => h.capacity)
  }

  /** reduce((sum, h) => sum + h.occupied, 0) */
  function TotalOccupied(hs: seq<Hostel>): int
  {
    SumOf(hs, (h: Hostel) => h.occupied)
  }

  /** Adding a hostel raises the total-capacity card by its capacity and
      leaves the occupied total alone; the new hostel is empty. */
  lemma AddChangesTotals(hs: seq<Hostel>, f: HostelForm, id: int)
    requires Submittable(f)
    ensures TotalCapacity(Add(hs, f, id)) == TotalCapacity(hs) + f.capacity.value
    ensures TotalOccupied(Add(hs, f, id)) == TotalOccupied(hs)
  {
    SumOfAppend(hs, NewHostel(id, f), (h: Hostel) => h.capacity);
    SumOfAppend(hs, NewHostel(id, f), (h: Hostel) => h.occupied);
  }

  /** The "average occupancy" card: Math.round(Σoccupied / Σcapacity * 100). */
  function AverageOccupancy(hs: seq<Hostel>): (r: Option<int>)
    ensures r.None? <==> TotalCapacity(hs) == 0
  {
    JsMath.Percent(TotalOccupied(hs), TotalCapacity(hs))
  }

  /** When no hostel is over capacity and some capacity exists, the average
      occupancy card shows 0..100. */
  lemma AverageOccupancyBounded(hs: seq<Hostel>)
    requires forall h :: h in hs ==> 0 <= h.occupied <= h.capacity
    requires TotalCapacity(hs) > 0
    ensures AverageOccupancy(hs).Some? && 0 <= AverageOccupancy(hs).value <= 100
  {
    SumOfMonotone(hs, (h: Hostel) => h.occupied, (h: Hostel) => h.capacity);
    SumOfNonNegative(hs, (h: Hostel) => h.occupied);
    JsMath.PercentBounds(TotalOccupied(hs), TotalCapacity(hs));
  }

  /** The screen's state and its event handlers. */
  class HostelScreen {
    var searchTerm: string
    var isAddDialogOpen: bool
    var selectedHostel: Option<Hostel>
    var formData: HostelForm
    var hostels: seq<Hostel>

    /** Ids stay distinct: the mock data has distinct ids and every add uses
        a fresh one. */
    predicate Valid()
      reads this
    {
      UniqueBy(hostels, (h: Hostel) => h.id)
    }

    constructor ()
      ensures Valid()
      ensures hostels == InitialHostels && formData == EmptyForm
      ensures searchTerm == "" && !isAddDialogOpen && selectedHostel.None?
    {
      searchTerm := "";
      isAddDialogOpen := false;
      selectedHostel := None;
      formData := EmptyForm;
      hostels := InitialHostels;
    }

    /** The rows the table shows. */
    function FilteredHostels(): seq<Hostel>
      reads this
    {
      Search(hostels, searchTerm)
    }

    method SetSearchTerm(term: string)
      modifies this
      ensures searchTerm == term
      ensures hostels == old(hostels) && formData == old(formData)
      ensures selectedHostel == old(selectedHostel) && isAddDialogOpen == old(isAddDialogOpen)
    {
      searchTerm := term;
    }

    /** The dialog's onOpenChange and its Cancel button. */
    method SetDialogOpen(open: bool)
      modifies this
      ensures isAddDialogOpen == open
      ensures hostels == old(hostels) && formData == old(formData)
      ensures selectedHostel == old(selectedHostel) && searchTerm == old(searchTerm)
    {
      isAddDialogOpen := open;
    }

    /** handleSubmit: update the selected hostel, or append a new one with
        id `now`; then close the dialog, clear the selection and reset the
        form. */
    method HandleSubmit(now: int)
      requires Valid() && Submittable(formData)
      requires selectedHostel.None? ==> forall h :: h in hostels ==> h.id != now
      modifies this
      ensures Valid()
      ensures old(selectedHostel).Some? ==>
        hostels == Update(old(hostels), old(selectedHostel).value.id, old(formData))
      ensures old(selectedHostel).None? ==> hostels == Add(old(hostels), old(formData), now)
      ensures !isAddDialogOpen && selectedHostel.None? && formData == EmptyForm
      ensures searchTerm == old(searchTerm)
    {
      if selectedHostel.Some? {
        var id := selectedHostel.value.id;
        var f := formData;
        UpdateKeepsKeys(hostels, (h: Hostel) => h.id == id, (h: Hostel) requires Submittable(f) => Merge(h, f), (h: Hostel) => h.id);
        hostels := Update(hostels, id, formData);
      } else {
        AppendFreshKeepsUnique(hostels, NewHostel(now, formData), (h: Hostel) => h.id);
        hostels := Add(hostels, formData, now);
      }
      isAddDialogOpen := false;
      selectedHostel := None;
      formData := EmptyForm;
    }

    /** handleEdit: select the hostel, load its fields, open the dialog. */
    method HandleEdit(h: Hostel)
      modifies this
      ensures selectedHostel == Some(h) && formData == FormOf(h) && isAddDialogOpen
      ensures hostels == old(hostels) && searchTerm == old(searchTerm)
    {
      selectedHostel := Some(h);
      formData := FormOf(h);
      isAddDialogOpen := true;
    }

    /** handleDelete */
    method HandleDelete(id: int)
      requires Valid()
      modifies this
      ensures Valid()
      ensures hostels == Delete(old(hostels), id)
      ensures formData == old(formData) && selectedHostel == old(selectedHostel)
      ensures isAddDialogOpen == old(isAddDialogOpen) && searchTerm == old(searchTerm)
    {
      FilterKeepsUnique(hostels, (h: Hostel) => h.id != id, (h: Hostel) => h.id);
      hostels := Delete(hostels, id);
    }
  }
}
