/** The tenant management screen: tenants with their hostel and room, a
    search box, a dialog form whose room Select offers only the rooms of the
    picked hostel, add / update / delete, and the four stats cards. */
module Tenants {
  import opened Records
  import opened JsText
  import opened Lookups

  /** `hostelId` and `roomId` are the Select values (`None` for ''), and
      `hostelName` and `roomNumber` their looked-up names (`None` for
      undefined). */
  datatype Tenant = Tenant(
    id: int, name: string, email: string, phone: string, idCard: string, address: string,
    company: string, companyAddress: string,
    hostelId: Option<int>, hostelName: Option<string>, roomId: Option<int>, roomNumber: Option<string>,
    joinDate: string, rent: int, securityDeposit: int, contractTerms: string,
    status: string, paymentStatus: string)

  /** The dialog's form; rent and deposit are required number inputs. */
  datatype TenantForm = TenantForm(
    name: string, email: string, phone: string, idCard: string, address: string,
    company: string, companyAddress: string, hostelId: Option<int>, roomId: Option<int>,
    joinDate: string, rent: Option<int>, securityDeposit: Option<int>, contractTerms: string)

  const EmptyForm := TenantForm("", "", "", "", "", "", "", None, None, "", None, None, "")

  predicate Submittable(f: TenantForm)
  {
    f.rent.Some? && f.securityDeposit.Some?
  }

  const InitialTenants: seq<Tenant> := [
    Tenant(1, "John Smith", "john.smith@email.com", "+1 (555) 123-4567", "ID123456789",
           "123 Main St, City", "Tech Corp", "456 Business Ave",
           Some(1), Some("Downtown Hostel"), Some(1), Some("101"),
           "2024-01-15", 750, 1500, "12 months", "active", "paid"),
    Tenant(2, "Alice Johnson", "alice.johnson@email.com", "+1 (555) 234-5678", "ID987654321",
           "789 Oak St, City", "Design Studio", "321 Creative Blvd",
           Some(2), Some("University Campus"), Some(3), Some("201"),
           "2024-02-01", 900, 1800, "6 months", "active", "pending"),
    Tenant(3, "Bob Wilson", "bob.wilson@email.com", "+1 (555) 345-6789", "ID456789123",
           "456 Pine St, City", "Marketing Inc", "789 Commerce St",
           Some(3), Some("City Center"), Some(5), Some("301"),
           "2024-01-20", 950, 1900, "12 months", "active", "paid"),
    Tenant(4, "Carol Davis", "carol.davis@email.com", "+1 (555) 456-7890", "ID789123456",
           "321 Elm St, City", "Finance Group", "654 Money Ave",
           Some(1), Some("Downtown Hostel"), Some(2), Some("102"),
           "2024-03-01", 600, 1200, "6 months", "checkout", "paid")
  ]

  // ----- search -----

  /** The intended row filter: name, email and hostel name contain the term
      ignoring case, the room number contains it exactly (case-sensitive);
      an undefined name or number matches nothing. */
  predicate Matches(t: Tenant, term: string)
  {
    || ContainsIgnoringCase(t.name, term)
    || ContainsIgnoringCase(t.email, term)
    || (t.hostelName.Some? && ContainsIgnoringCase(t.hostelName.value, term))
    || (t.roomNumber.Some? && Includes(t.roomNumber.value, term))
  }

  /** filteredTenants, null-safe on the looked-up names. */
  function Search(ts: seq<Tenant>, term: string): (r: seq<Tenant>)
    ensures IsSubsequence(r, ts)
    ensures forall x :: x in r ==> x in ts && Matches(x, term)
    ensures forall x :: x in ts && Matches(x, term) ==> x in r
    ensures term == "" ==> r == ts
  {
    FilterIsSubsequence(ts, (x: Tenant) => Matches(x, term));
    EmptyTermMatchesAll();
    Filter(ts, (x: Tenant) => Matches(x, term))
  }

  /** The room number is compared without lower-casing: a tenant in room
      "B12" is found by "b1" only through its other fields. */
  lemma RoomNumberIsCaseSensitive()
    ensures ContainsIgnoringCase("B12", "b1")
    ensures !Includes("B12", "b1")
  {
    assert OccursAt(ToLower("B12"), ToLower("b1"), 0);
  }

  /** The filter callback as written: `tenant.hostelName.toLowerCase()` and
      `tenant.roomNumber.includes` throw (`None`) on an undefined value that
      the earlier operands did not short-circuit. */
  function MatchesAsWritten(t: Tenant, term: string): Option<bool>
  {
    if ContainsIgnoringCase(t.name, term) || ContainsIgnoringCase(t.email, term) then Some(true)
    else if t.hostelName.None? then None
    else if ContainsIgnoringCase(t.hostelName.value, term) then Some(true)
    else if t.roomNumber.None? then None
    else Some(Includes(t.roomNumber.value, term))
  }

  /** filteredTenants as written: `None` when rendering throws. Where it
      does not throw it is the null-safe Search. */
  function SearchAsWritten(ts: seq<Tenant>, term: string): (r: Option<seq<Tenant>>)
    ensures r.None? || r == Some(Search(ts, term))
    ensures (forall x :: x in ts ==> x.hostelName.Some? && x.roomNumber.Some?) ==>
      r == Some(Search(ts, term))
  {
    FilterOrThrowAgrees(ts, (x: Tenant) => MatchesAsWritten(x, term), (x: Tenant) => Matches(x, term));
    FilterOrThrow(ts, (x: Tenant) => MatchesAsWritten(x, term))
  }

  /** Adding a tenant to Riverside (hostel 4), where the room Select offers
      nothing, leaves its room number undefined; a term that none of its
      name, email or hostel name contains then makes the as-written filter
      throw, while the null-safe search just leaves the tenant out. */
  lemma AddWithoutRoomBreaksSearch(ts: seq<Tenant>, f: TenantForm, now: int, term: string)
    requires Submittable(f) && f.hostelId == Some(4) && f.roomId.None?
    requires !ContainsIgnoringCase(f.name, term) && !ContainsIgnoringCase(f.email, term)
    requires !ContainsIgnoringCase("Riverside", term)
    ensures AvailableRooms(RoomChoices, f.hostelId) == []
    ensures SearchAsWritten(Add(ts, f, now), term).None?
    ensures NewTenant(now, f) !in Search(Add(ts, f, now), term)
  {
    NoRoomsOutsideFirstThreeHostels(4);
    HostelNameById(4);
    var x := NewTenant(now, f);
    assert x.hostelName == Some("Riverside") && x.roomNumber.None?;
    assert MatchesAsWritten(x, term).None? && !Matches(x, term);
    var p := (y: Tenant) => MatchesAsWritten(y, term);
    assert x in Add(ts, f, now) && p(x).None?;
  }

  // ----- submit, edit, delete -----

  /** The update branch: `{ ...t, ...formData, hostelName, roomNumber, rent,
      securityDeposit }`; id, status and payment status stay. */
  function Merge(t: Tenant, f: TenantForm): (m: Tenant)
    requires Submittable(f)
    ensures m.id == t.id && m.status == t.status && m.paymentStatus == t.paymentStatus
    ensures m.rent == f.rent.value && m.securityDeposit == f.securityDeposit.value
    ensures m.hostelId == f.hostelId && m.roomId == f.roomId
    ensures m.name == f.name && m.email == f.email && m.phone == f.phone && m.idCard == f.idCard
    ensures m.address == f.address && m.company == f.company && m.companyAddress == f.companyAddress
    ensures m.joinDate == f.joinDate && m.contractTerms == f.contractTerms
  {
    t.(name := f.name, email := f.email, phone := f.phone, idCard := f.idCard,
       address := f.address, company := f.company, companyAddress := f.companyAddress,
       hostelId := f.hostelId, hostelName := HostelNameOf(HostelChoices, f.hostelId),
       roomId := f.roomId, roomNumber := RoomNumberOf(RoomChoices, f.roomId),
       joinDate := f.joinDate, rent := f.rent.value, securityDeposit := f.securityDeposit.value,
       contractTerms := f.contractTerms)
  }

  /** The looked-up names are those of the first matching choice, undefined
      when nothing was picked or nothing matches. */
  lemma MergedNames(t: Tenant, f: TenantForm)
    requires Submittable(f)
    ensures Merge(t, f).hostelName.Some? <==> f.hostelId.Some? && 1 <= f.hostelId.value <= 5
    ensures Merge(t, f).roomNumber.Some? <==> f.roomId.Some? && 1 <= f.roomId.value <= 5
    ensures NewTenant(t.id, f).hostelName == Merge(t, f).hostelName
    ensures NewTenant(t.id, f).roomNumber == Merge(t, f).roomNumber
  {
    if f.hostelId.Some? {
      HostelChoicesResolve(f.hostelId.value);
    }
    if f.roomId.Some? {
      RoomChoicesResolve(f.roomId.value);
    }
  }

  function Update(ts: seq<Tenant>, id: int, f: TenantForm): (r: seq<Tenant>)
    requires Submittable(f)
    ensures |r| == |ts|
    ensures forall i :: 0 <= i < |ts| ==> r[i].id == ts[i].id
    ensures forall i :: 0 <= i < |ts| && ts[i].id != id ==> r[i] == ts[i]
    ensures forall i :: 0 <= i < |ts| && ts[i].id == id ==> r[i] == Merge(ts[i], f)
    ensures (forall x :: x in ts ==> x.id != id) ==> r == ts
  {
    UpdateWhere(ts, (x: Tenant) => x.id == id, (x: Tenant) => Merge(x, f))
  }

  /** The add branch's new tenant: active, payment pending. */
  function NewTenant(id: int, f: TenantForm): (t: Tenant)
    requires Submittable(f)
    ensures t.id == id && t.status == "active" && t.paymentStatus == "pending"
    ensures t.rent == f.rent.value && t.securityDeposit == f.securityDeposit.value
    ensures t.hostelId == f.hostelId && t.roomId == f.roomId
    ensures t.name == f.name && t.email == f.email && t.phone == f.phone && t.idCard == f.idCard
    ensures t.address == f.address && t.company == f.company && t.companyAddress == f.companyAddress
    ensures t.joinDate == f.joinDate && t.contractTerms == f.contractTerms
  {
    Tenant(id, f.name, f.email, f.phone, f.idCard, f.address, f.company, f.companyAddress,
           f.hostelId, HostelNameOf(HostelChoices, f.hostelId),
           f.roomId, RoomNumberOf(RoomChoices, f.roomId),
           f.joinDate, f.rent.value, f.securityDeposit.value, f.contractTerms, "active", "pending")
  }

  function Add(ts: seq<Tenant>, f: TenantForm, id: int): (r: seq<Tenant>)
    requires Submittable(f)
    ensures |r| == |ts| + 1 && r[..|ts|] == ts && r[|ts|] == NewTenant(id, f)
  {
    ts + [NewTenant(id, f)]
  }

  function Delete(ts: seq<Tenant>, id: int): (r: seq<Tenant>)
    ensures IsSubsequence(r, ts)
    ensures forall x :: x in r ==> x in ts && x.id != id
    ensures forall x :: x in ts && x.id != id ==> x in r
  {
    FilterIsSubsequence(ts, (x: Tenant) => x.id != id);
    Filter(ts, (x: Tenant) => x.id != id)
  }

  lemma AddThenDelete(ts: seq<Tenant>, f: TenantForm, id: int)
    requires Submittable(f)
    requires forall x :: x in ts ==> x.id != id
    ensures Delete(Add(ts, f, id), id) == ts
  {
    FilterAppend(ts, NewTenant(id, f), (x: Tenant) => x.id != id);
  }

  lemma UpdateKeepsIdsDistinct(ts: seq<Tenant>, id: int, f: TenantForm)
    requires Submittable(f) && UniqueBy(ts, (x: Tenant) => x.id)
    ensures UniqueBy(Update(ts, id, f), (x: Tenant) => x.id)
  {
    UpdateKeepsKeys(ts, (x: Tenant) => x.id == id, (x: Tenant) requires Submittable(f) => Merge(x, f),
                    (x: Tenant) => x.id);
  }

  lemma AddKeepsIdsDistinct(ts: seq<Tenant>, f: TenantForm, id: int)
    requires Submittable(f) && UniqueBy(ts, (x: Tenant) => x.id)
    requires forall x :: x in ts ==> x.id != id
    ensures UniqueBy(Add(ts, f, id), (x: Tenant) => x.id)
  {
    AppendFreshKeepsUnique(ts, NewTenant(id, f), (x: Tenant) => x.id);
  }

  lemma DeleteKeepsIdsDistinct(ts: seq<Tenant>, id: int)
    requires UniqueBy(ts, (x: Tenant) => x.id)
    ensures UniqueBy(Delete(ts, id), (x: Tenant) => x.id)
  {
    FilterKeepsUnique(ts, (x: Tenant) => x.id != id, (x: Tenant) => x.id);
  }

  /** The form handleEdit loads (`toString()` of the ids and amounts). */
  function FormOf(t: Tenant): (f: TenantForm)
    ensures Submittable(f)
    ensures f.hostelId == t.hostelId && f.roomId == t.roomId
    ensures f.rent == Some(t.rent) && f.securityDeposit == Some(t.securityDeposit)
    ensures f.name == t.name && f.email == t.email && f.phone == t.phone && f.idCard == t.idCard
    ensures f.address == t.address && f.company == t.company && f.companyAddress == t.companyAddress
    ensures f.joinDate == t.joinDate && f.contractTerms == t.contractTerms
  {
    TenantForm(t.name, t.email, t.phone, t.idCard, t.address, t.company, t.companyAddress,
               t.hostelId, t.roomId, t.joinDate, Some(t.rent), Some(t.securityDeposit), t.contractTerms)
  }

  /** A tenant whose stored names agree with the lookups. */
  predicate Consistent(t: Tenant)
  {
    t.hostelName == HostelNameOf(HostelChoices, t.hostelId) &&
    t.roomNumber == RoomNumberOf(RoomChoices, t.roomId)
  }

  lemma InitialTenantsIdsDistinct()
    ensures UniqueBy(InitialTenants, (x: Tenant) => x.id)
  {
  }

  lemma InitialTenantsConsistent()
    ensures forall i :: 0 <= i < |InitialTenants| ==> Consistent(InitialTenants[i])
  {
    forall i | 0 <= i < |InitialTenants| ensures Consistent(InitialTenants[i]) {
      var t := InitialTenants[i];
      HostelNameById(t.hostelId.value);
      RoomNumberById(t.roomId.value);
    }
  }

  /** Opening a consistent tenant for editing and submitting the form
      unchanged leaves the list as it was. */
  lemma EditThenSubmitUnchanged(ts: seq<Tenant>, k: int)
    requires UniqueBy(ts, (x: Tenant) => x.id) && 0 <= k < |ts| && Consistent(ts[k])
    ensures Update(ts, ts[k].id, FormOf(ts[k])) == ts
  {
    var r := Update(ts, ts[k].id, FormOf(ts[k]));
    assert forall i :: 0 <= i < |ts| ==> r[i] == ts[i];
  }

  /** The table handleSubmit leaves: the update branch when a tenant is
      selected, the add branch otherwise; either keeps ids distinct. */
  function Submit(ts: seq<Tenant>, selected: Option<Tenant>, f: TenantForm, now: int): (r: seq<Tenant>)
    requires Submittable(f) && UniqueBy(ts, (x: Tenant) => x.id)
    requires selected.None? ==> forall x :: x in ts ==> x.id != now
    ensures UniqueBy(r, (x: Tenant) => x.id)
  {
    if selected.Some? then
      UpdateKeepsIdsDistinct(ts, selected.value.id, f);
      Update(ts, selected.value.id, f)
    else
      AddKeepsIdsDistinct(ts, f, now);
      Add(ts, f, now)
  }

  // ----- stats -----

  function ActiveCount(ts: seq<Tenant>): (n: nat)
    ensures n <= |ts|
  {
    Count(ts, (x: Tenant) => x.status == "active")
  }

  function PendingCount(ts: seq<Tenant>): (n: nat)
    ensures n <= |ts|
  {
    Count(ts, (x: Tenant) => x.paymentStatus == "pending")
  }

  /** `tenants.filter(active).reduce((sum, t) => sum + t.rent, 0)` */
  function MonthlyRevenue(ts: seq<Tenant>): int
  {
    SumOf(Filter(ts, (x: Tenant) => x.status == "active"), (x: Tenant) => x.rent)
  }

  /** Monthly revenue counts the rent of active tenants and nothing else. */
  lemma MonthlyRevenueActiveOnly(ts: seq<Tenant>)
    ensures MonthlyRevenue(ts) == SumOf(ts, (x: Tenant) => if x.status == "active" then x.rent else 0)
  {
    SumOfFilter(ts, (x: Tenant) => x.status == "active", (x: Tenant) => x.rent,
                (x: Tenant) => if x.status == "active" then x.rent else 0);
  }

  /** A new tenant is active, so adding one raises monthly revenue by its
      rent and the active count by one. */
  lemma AddRaisesRevenue(ts: seq<Tenant>, f: TenantForm, id: int)
    requires Submittable(f)
    ensures MonthlyRevenue(Add(ts, f, id)) == MonthlyRevenue(ts) + f.rent.value
    ensures ActiveCount(Add(ts, f, id)) == ActiveCount(ts) + 1
  {
    var p := (x: Tenant) => x.status == "active";
    FilterAppend(ts, NewTenant(id, f), p);
    SumOfAppend(Filter(ts, p), NewTenant(id, f), (x: Tenant) => x.rent);
  }

  class TenantScreen {
    var searchTerm: string
    var isAddDialogOpen: bool
    var selectedTenant: Option<Tenant>
    var formData: TenantForm
    var tenants: seq<Tenant>

    predicate Valid()
      reads this
    {
      UniqueBy(tenants, (x: Tenant) => x.id)
    }

    constructor ()
      ensures Valid()
      ensures tenants == InitialTenants && formData == EmptyForm
      ensures searchTerm == "" && !isAddDialogOpen && selectedTenant.None?
    {
      InitialTenantsIdsDistinct();
      searchTerm := "";
      isAddDialogOpen := false;
      selectedTenant := None;
      formData := EmptyForm;
      tenants := InitialTenants;
    }

    function FilteredTenants(): seq<Tenant>
      reads this
    {
      Search(tenants, searchTerm)
    }

    /** The rooms the room Select offers for the form's hostel. */
    function OfferedRooms(): seq<RoomChoice>
      reads this
    {
      AvailableRooms(RoomChoices, formData.hostelId)
    }

    method SetSearchTerm(term: string)
      modifies this
      ensures searchTerm == term
      ensures tenants == old(tenants) && formData == old(formData)
      ensures selectedTenant == old(selectedTenant) && isAddDialogOpen == old(isAddDialogOpen)
    {
      searchTerm := term;
    }

    /** The hostel Select: picking a hostel clears the room. */
    method SelectHostel(hostelId: int)
      modifies this
      ensures formData == old(formData).(hostelId := Some(hostelId), roomId := None)
      ensures tenants == old(tenants) && selectedTenant == old(selectedTenant)
      ensures isAddDialogOpen == old(isAddDialogOpen) && searchTerm == old(searchTerm)
    {
      formData := formData.(hostelId := Some(hostelId), roomId := None);
    }

    /** The room Select, enabled once a hostel is picked. */
    method SelectRoom(roomId: int)
      requires formData.hostelId.Some?
      modifies this
      ensures formData == old(formData).(roomId := Some(roomId))
      ensures tenants == old(tenants) && selectedTenant == old(selectedTenant)
      ensures isAddDialogOpen == old(isAddDialogOpen) && searchTerm == old(searchTerm)
    {
      formData := formData.(roomId := Some(roomId));
    }

    /** handleSubmit, then resetForm. */
    method HandleSubmit(now: int)
      requires Valid() && Submittable(formData)
      requires selectedTenant.None? ==> forall x :: x in tenants ==> x.id != now
      modifies this
      ensures Valid()
      ensures old(selectedTenant).Some? ==>
        tenants == Update(old(tenants), old(selectedTenant).value.id, old(formData))
      ensures old(selectedTenant).None? ==> tenants == Add(old(tenants), old(formData), now)
      ensures !isAddDialogOpen && selectedTenant.None? && formData == EmptyForm
      ensures searchTerm == old(searchTerm)
    {
      tenants := Submit(tenants, selectedTenant, formData, now);
      isAddDialogOpen := false;
      selectedTenant := None;
      formData := EmptyForm;
    }

    method HandleEdit(t: Tenant)
      modifies this
      ensures selectedTenant == Some(t) && formData == FormOf(t) && isAddDialogOpen
      ensures tenants == old(tenants) && searchTerm == old(searchTerm)
    {
      selectedTenant := Some(t);
      formData := FormOf(t);
      isAddDialogOpen := true;
    }

    method HandleDelete(id: int)
      requires Valid()
      modifies this
      ensures Valid()
      ensures tenants == Delete(old(tenants), id)
      ensures formData == old(formData) && selectedTenant == old(selectedTenant)
      ensures isAddDialogOpen == old(isAddDialogOpen) && searchTerm == old(searchTerm)
    {
      DeleteKeepsIdsDistinct(tenants, id);
      tenants := Delete(tenants, id);
    }
  }
}
