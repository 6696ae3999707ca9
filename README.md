# HostelHub in Dafny

HostelHub is a React front end for running a chain of hostels. It has no
backend. Each management screen keeps a table of records in component state:
hostels, rooms, tenants or expenses. Each screen offers a search box, a dialog
that either edits the selected record or adds a new one, delete by id, and
stats cards computed from the table. A three-step signup wizard validates the
new owner's details and creates the account. The application shell keeps the
sign-in state and guards the management pages behind it. The reports page
shows constant tables and derives tiers, average rents and PKR amounts from
them.

This project models that logic and proves what it promises:

- `records.dfy` (`Records`): the array operations the screens share. These
  are `filter`, `map` with a per-id rewrite, `find`, `reduce` sums and filter
  counts, plus the distinct-id invariant.
- `jstext.dfy` (`JsText`): `trim`, ASCII `toLowerCase`, `includes`, and the
  email pattern `\S+@\S+\.\S+`.
- `jsmath.dfy` (`JsMath`): `Math.round(a / b)` and rounded percentages in
  exact integer arithmetic.
- `lookups.dfy` (`Lookups`): the constant hostel and room lists behind the
  Select inputs, and the `find(...)?.name` lookups over them.
- `hostels.dfy`, `rooms.dfy`, `tenants.dfy`, `finance.dfy`: one module per
  management screen. The pure operations are functions. The screen's state and
  handlers form a class whose methods are tied to those functions.
- `reports.dfy` (`Reports`): the constant report tables, the performance tier
  rule, average rent per occupant, and the ×280 PKR display conversion.
- `signup.dfy` (`Signup`): the per-step validator and the wizard state
  machine.
- `app.dfy` (`App`): the sign-in state and the route table with its guards
  and redirects.

Modelling conventions:

- A required number input is `Option<int>`. `None` is the blank `''` of a
  reset form, and `Some(n)` is what `parseInt` returns for the typed text.
- The browser only submits a dialog once its required number inputs are
  filled in. That is the `Submittable` precondition of the submit handlers.
- A Select that is not required is `Option<int>`, so leaving it empty is
  modelled and reachable.
- A `find(...)?.name` lookup is `Option<string>`, where `None` is `undefined`.
- The new record's id (`Date.now()`) is a parameter.
- The signup timer is two steps. `HandleSubmit` arms it with the current form,
  and `CompleteSubmit` is the callback that runs later.

## Model

| member | source | states |
|---|---|---|
| JsText.BlankIffAllWhiteSpace | src/components/SignupPage.jsx:85-86 | `!s.trim()` holds exactly when every character of `s` is white space, the empty string included |
| JsText.EmailPatternNeedsAtAndDot | src/components/SignupPage.jsx:89 | a string the email pattern accepts contains an `@` followed later by a `.` |
| JsText.EmailPatternAccepts | src/components/SignupPage.jsx:89 | non-empty, space-free local part, domain and suffix joined by `@` and `.` are accepted |
| JsText.EmailPatternUnanchored | src/components/SignupPage.jsx:89 | the pattern is unanchored: any text around an accepted string is still accepted |
| JsText.EmailPatternRejectsExamples | src/components/SignupPage.jsx:89 | `a@b`, `a @b.c` and `@b.c` are rejected |
| JsMath.RoundQuotient | src/components/HostelManagement.jsx:180 | `Math.round(a / b)`: no value for b = 0, otherwise the nearest integer, half-way rounding up (stated as a bound on the remainder) |
| JsMath.RoundQuotientUnique | src/components/HostelManagement.jsx:180 | that bound picks exactly one integer |
| JsMath.Percent | src/components/RoomManagement.jsx:501 | `Math.round((part / whole) * 100)`, used by the hostel and the room tables alike: no value exactly when the whole is 0 |
| JsMath.PercentBounds | src/components/HostelManagement.jsx:179-181 | for 0 ≤ part ≤ whole and whole > 0 (occupied within capacity), the rounded percentage is in 0..100, and it is 0 and 100 at the two ends |
| Lookups.HostelNameOf | src/components/TenantManagement.jsx:186 | the looked-up name belongs to an entry with that id; an empty Select or an unknown id gives undefined |
| Lookups.HostelChoicesResolve | src/components/TenantManagement.jsx:78-84 | a hostel id resolves to a name exactly when it is 1..5 |
| Lookups.HostelNameById | src/components/TenantManagement.jsx:78-84 | ids 1..5 resolve to the name listed with them |
| Lookups.RoomNumberOf | src/components/TenantManagement.jsx:187 | the looked-up number belongs to a room with that id; an empty Select or an unknown id gives undefined |
| Lookups.RoomChoicesResolve | src/components/TenantManagement.jsx:86-92 | a room id resolves to a number exactly when it is 1..5 |
| Lookups.RoomNumberById | src/components/TenantManagement.jsx:86-92 | room ids 1..5 resolve to the number listed with them |
| Lookups.AvailableRooms | src/components/TenantManagement.jsx:282-284 | an ordered subsequence of the rooms: with no hostel chosen all rooms, otherwise exactly the rooms of that hostel |
| Lookups.NoRoomsOutsideFirstThreeHostels | src/components/TenantManagement.jsx:282-284 | for any hostel other than 1..3 the room Select offers nothing |
| Hostels.Search | src/components/HostelManagement.jsx:124-127 | an ordered subsequence of the hostels; it holds exactly the hostels whose name or address contains the term ignoring case; an empty term keeps them all |
| Hostels.Update | src/components/HostelManagement.jsx:133-137 | same length and ids; records with another id unchanged; the edited record keeps `occupied`, `status` and `revenue` and takes the form's name, address, phone, email, description and capacity; an absent id changes nothing |
| Hostels.NewHostel | src/components/HostelManagement.jsx:140-147 | the new hostel has the given id, the form's fields, 0 occupied, status `active` and 0 revenue |
| Hostels.Add | src/components/HostelManagement.jsx:139-148 | exactly one record more, the new hostel at the end, earlier records unchanged |
| Hostels.Delete | src/components/HostelManagement.jsx:175-177 | an ordered subsequence holding exactly the hostels with another id; an absent id changes nothing |
| Hostels.AddThenDelete | src/components/HostelManagement.jsx:175-177 | adding under a fresh id and deleting that id restores the list |
| Hostels.FormOf | src/components/HostelManagement.jsx:162-171 | the form loaded by edit carries the hostel's name, address, phone, email and description, and its capacity filled in |
| Hostels.EditThenSubmitUnchanged | src/components/HostelManagement.jsx:162-171 | with distinct ids, editing a hostel and submitting the untouched form leaves the list as it was |
| Hostels.AddChangesTotals | src/components/HostelManagement.jsx:320-331 | adding raises the capacity total by the new capacity and leaves the occupied total as it was |
| Hostels.AverageOccupancy | src/components/HostelManagement.jsx:343-346 | the average-occupancy card has a value exactly when the total capacity is not 0 |
| Hostels.AverageOccupancyBounded | src/components/HostelManagement.jsx:343-346 | when no hostel is over capacity and some capacity exists, the card shows 0..100 |
| Hostels.HostelScreen.constructor | src/components/HostelManagement.jsx:48-122 | starts with the five mock hostels (distinct ids), an empty form, no selection, the dialog closed |
| Hostels.HostelScreen.SetSearchTerm | src/components/HostelManagement.jsx:362 | the search box changes only the term |
| Hostels.HostelScreen.SetDialogOpen | src/components/HostelManagement.jsx:201 | opening or closing the dialog changes nothing else |
| Hostels.HostelScreen.HandleSubmit | src/components/HostelManagement.jsx:129-160 | the table becomes `Update` of the selected id or `Add` under `now`; the dialog closes, the selection clears and the form resets; ids stay distinct |
| Hostels.HostelScreen.HandleEdit | src/components/HostelManagement.jsx:162-173 | selects the hostel, loads `FormOf` it and opens the dialog |
| Hostels.HostelScreen.HandleDelete | src/components/HostelManagement.jsx:175-177 | the table becomes `Delete` of the id, nothing else changes, and ids stay distinct |
| Rooms.Search | src/components/RoomManagement.jsx:149-153 | an ordered subsequence of the rooms; it holds exactly the rooms matching by room number, hostel name or tenant name ignoring case; an empty term keeps them all |
| Rooms.NoTenantMatchesOnlyByNumberOrHostel | src/components/RoomManagement.jsx:149-153 | a room without a tenant matches exactly when its number or hostel name contains the term |
| Rooms.SearchAsWritten | src/components/RoomManagement.jsx:149-153 | the filter as written either throws or equals the null-safe search; it never throws when every room has a hostel name |
| Rooms.AddWithoutHostelBreaksSearch | src/components/RoomManagement.jsx:149-153 | a room added with no hostel picked makes the as-written filter throw for a term its number does not contain |
| Rooms.CapitalizedKeys | src/components/RoomManagement.jsx:159 | the four keys capitalise to `Ac`, `Wifi`, `Parking`, `Laundry` |
| Rooms.AmenityListSpelledOut | src/components/RoomManagement.jsx:157-159 | the list holds exactly the checked amenities, in the order ac, wifi, parking, laundry, capitalised; its length is the number of checked boxes |
| Rooms.SubmitThenEditFlags | src/components/RoomManagement.jsx:219-224 | submitting and then editing recovers the parking and laundry boxes and always clears ac and wifi, because edit looks for `AC` and `WiFi` |
| Rooms.EditThenSubmitMockRoom | src/components/RoomManagement.jsx:219-224 | the first mock room's `AC`/`WiFi`/`Parking` list loads as three checked boxes and submits as `Ac`, `Wifi`, `Parking` |
| Rooms.Merge | src/components/RoomManagement.jsx:163-174 | the edited room keeps id, `occupied`, `status` and `tenant` and takes the form's number, hostel, type, capacity and rent |
| Rooms.Update | src/components/RoomManagement.jsx:163-174 | same length and ids; rooms with another id unchanged; the edited room is `Merge`d; an absent id changes nothing |
| Rooms.NewRoom | src/components/RoomManagement.jsx:177-187 | the new room has the given id, the form's number, hostel, type, capacity and rent, 0 occupied, status `available` and no tenant |
| Rooms.SubmittedHostelName | src/components/RoomManagement.jsx:168 | an added or updated room gets a hostel name exactly when one of hostels 1..5 was picked |
| Rooms.SubmittedAmenities | src/components/RoomManagement.jsx:171 | an added or updated room carries one capitalised name per checked amenity, in key order |
| Rooms.Add | src/components/RoomManagement.jsx:177-188 | exactly one room more, the new room at the end, earlier rooms unchanged |
| Rooms.Delete | src/components/RoomManagement.jsx:229-231 | an ordered subsequence holding exactly the rooms with another id |
| Rooms.AddThenDelete | src/components/RoomManagement.jsx:229-231 | adding under a fresh id and deleting that id restores the list |
| Rooms.UpdateKeepsIdsDistinct | src/components/RoomManagement.jsx:163-174 | the update keeps ids distinct |
| Rooms.AddKeepsIdsDistinct | src/components/RoomManagement.jsx:177-188 | adding under a fresh id keeps ids distinct |
| Rooms.Submit | src/components/RoomManagement.jsx:161-188 | the table the submit leaves, by update or by add under a fresh id, keeps ids distinct |
| Rooms.DeleteKeepsIdsDistinct | src/components/RoomManagement.jsx:229-231 | deleting keeps ids distinct |
| Rooms.FormOf | src/components/RoomManagement.jsx:211-225 | the loaded form carries the room's number, hostel, type, capacity and rent (both filled in), and its boxes are the flags recovered from the room's list |
| Rooms.EditThenSubmitRespellsAmenities | src/components/RoomManagement.jsx:211-225 | with distinct ids, editing a room whose hostel name agrees with its id and submitting the untouched form changes only that room's amenity list, respelled from the recovered boxes |
| Rooms.CountStatus | src/components/RoomManagement.jsx:406 | a status count never exceeds the number of rooms |
| Rooms.StatusCountsDisjoint | src/components/RoomManagement.jsx:394-432 | available + occupied + maintenance counts never exceed the total |
| Rooms.RoomScreen.constructor | src/components/RoomManagement.jsx:55-147 | starts with the five mock rooms (distinct ids), an empty form, no selection, the dialog closed |
| Rooms.RoomScreen.SetSearchTerm | src/components/RoomManagement.jsx:448 | the search box changes only the term |
| Rooms.RoomScreen.SetAmenity | src/components/RoomManagement.jsx:359-364 | a check box sets its own amenity flag and nothing else |
| Rooms.RoomScreen.HandleSubmit | src/components/RoomManagement.jsx:155-193 | the table becomes `Update` of the selected id or `Add` under `now`; the dialog closes, the selection clears and the form resets; ids stay distinct |
| Rooms.RoomScreen.HandleEdit | src/components/RoomManagement.jsx:211-227 | selects the room, loads `FormOf` it and opens the dialog |
| Rooms.RoomScreen.HandleDelete | src/components/RoomManagement.jsx:229-231 | the table becomes `Delete` of the id, nothing else changes, and ids stay distinct |
| Tenants.Search | src/components/TenantManagement.jsx:177-182 | an ordered subsequence; it holds exactly the tenants whose name, email or hostel name contains the term ignoring case, or whose room number contains it exactly; an empty term keeps them all |
| Tenants.RoomNumberIsCaseSensitive | src/components/TenantManagement.jsx:181 | the room-number test is case-sensitive: `b1` matches `B12` ignoring case but is not included in it |
| Tenants.SearchAsWritten | src/components/TenantManagement.jsx:177-182 | the filter as written either throws or equals the null-safe search; it never throws when every tenant has a hostel name and a room number |
| Tenants.AddWithoutRoomBreaksSearch | src/components/TenantManagement.jsx:177-182 | a tenant added to Riverside (which offers no rooms) has no room number and makes the as-written filter throw |
| Tenants.Merge | src/components/TenantManagement.jsx:191-202 | the edited tenant keeps id, `status` and `paymentStatus` and takes every form field: name, email, phone, id card, address, company, company address, hostel, room, join date, rent, deposit and contract terms |
| Tenants.MergedNames | src/components/TenantManagement.jsx:186-187 | the hostel name and the room number are defined exactly when ids 1..5 were picked, and are the same for update and add |
| Tenants.Update | src/components/TenantManagement.jsx:191-202 | same length and ids; tenants with another id unchanged; the edited tenant is `Merge`d; an absent id changes nothing |
| Tenants.NewTenant | src/components/TenantManagement.jsx:206-214 | the new tenant has the given id, status `active`, payment `pending`, and every form field: name, email, phone, id card, address, company, company address, hostel, room, join date, rent, deposit and contract terms |
| Tenants.Add | src/components/TenantManagement.jsx:205-215 | exactly one tenant more, the new tenant at the end, earlier tenants unchanged |
| Tenants.Delete | src/components/TenantManagement.jsx:260-262 | an ordered subsequence holding exactly the tenants with another id |
| Tenants.AddThenDelete | src/components/TenantManagement.jsx:260-262 | adding under a fresh id and deleting that id restores the list |
| Tenants.UpdateKeepsIdsDistinct | src/components/TenantManagement.jsx:191-202 | the update keeps ids distinct |
| Tenants.AddKeepsIdsDistinct | src/components/TenantManagement.jsx:205-215 | adding under a fresh id keeps ids distinct |
| Tenants.Submit | src/components/TenantManagement.jsx:189-215 | the table the submit leaves, by update or by add under a fresh id, keeps ids distinct |
| Tenants.DeleteKeepsIdsDistinct | src/components/TenantManagement.jsx:260-262 | deleting keeps ids distinct |
| Tenants.FormOf | src/components/TenantManagement.jsx:240-258 | the loaded form carries every field of the tenant the dialog edits, with rent and deposit filled in |
| Tenants.InitialTenantsIdsDistinct | src/components/TenantManagement.jsx:94-175 | the mock tenants have distinct ids |
| Tenants.InitialTenantsConsistent | src/components/TenantManagement.jsx:94-175 | each mock tenant's hostel name and room number are the ones its ids look up |
| Tenants.EditThenSubmitUnchanged | src/components/TenantManagement.jsx:240-258 | with distinct ids, editing a consistent tenant and submitting the untouched form leaves the list as it was |
| Tenants.ActiveCount | src/components/TenantManagement.jsx:520 | the active count never exceeds the number of tenants |
| Tenants.PendingCount | src/components/TenantManagement.jsx:533 | the pending-payment count never exceeds the number of tenants |
| Tenants.MonthlyRevenueActiveOnly | src/components/TenantManagement.jsx:546 | monthly revenue is the sum of rent over all tenants, counting only active ones |
| Tenants.AddRaisesRevenue | src/components/TenantManagement.jsx:546 | adding a tenant (always active) raises monthly revenue by its rent and the active count by one |
| Tenants.TenantScreen.constructor | src/components/TenantManagement.jsx:58-175 | starts with the four mock tenants (distinct ids), an empty form, no selection, the dialog closed |
| Tenants.TenantScreen.SetSearchTerm | src/components/TenantManagement.jsx:562 | the search box changes only the term |
| Tenants.TenantScreen.SelectHostel | src/components/TenantManagement.jsx:409 | choosing a hostel sets it and clears the room |
| Tenants.TenantScreen.SelectRoom | src/components/TenantManagement.jsx:427-428 | choosing a room (possible only once a hostel is chosen) sets only the room |
| Tenants.TenantScreen.HandleSubmit | src/components/TenantManagement.jsx:184-220 | the table becomes `Update` of the selected id or `Add` under `now`; the dialog closes, the selection clears and the form resets; ids stay distinct |
| Tenants.TenantScreen.HandleEdit | src/components/TenantManagement.jsx:240-258 | selects the tenant, loads `FormOf` it and opens the dialog |
| Tenants.TenantScreen.HandleDelete | src/components/TenantManagement.jsx:260-262 | the table becomes `Delete` of the id, nothing else changes, and ids stay distinct |
| Finance.Search | src/components/FinancialManagement.jsx:194-198 | an ordered subsequence holding exactly the expenses whose description, hostel name or category contains the term ignoring case; an empty term keeps them all |
| Finance.SearchAsWritten | src/components/FinancialManagement.jsx:194-198 | the filter as written either throws or equals the null-safe search; it never throws when every expense has a hostel name |
| Finance.AddWithoutHostelBreaksSearch | src/components/FinancialManagement.jsx:194-198 | an expense added with no hostel picked makes the as-written filter throw for a term its description does not contain; the null-safe search drops it exactly when its category does not match either |
| Finance.Merge | src/components/FinancialManagement.jsx:206-215 | the edited expense keeps id and `status` and takes every form field |
| Finance.Update | src/components/FinancialManagement.jsx:206-215 | same length and ids; expenses with another id unchanged; the edited expense is `Merge`d; an absent id changes nothing |
| Finance.NewExpense | src/components/FinancialManagement.jsx:218-224 | the new expense has the given id, status `pending`, and the form's fields |
| Finance.SubmittedHostelName | src/components/FinancialManagement.jsx:202 | the hostel name is defined exactly when hostels 1..5 were picked, is the listed name, and is the same for update and add |
| Finance.Add | src/components/FinancialManagement.jsx:218-225 | exactly one expense more, the new expense at the end, earlier ones unchanged |
| Finance.Delete | src/components/FinancialManagement.jsx:256-258 | an ordered subsequence holding exactly the expenses with another id |
| Finance.AddThenDelete | src/components/FinancialManagement.jsx:256-258 | adding under a fresh id and deleting that id restores the list |
| Finance.UpdateKeepsIdsDistinct | src/components/FinancialManagement.jsx:206-215 | the update keeps ids distinct |
| Finance.AddKeepsIdsDistinct | src/components/FinancialManagement.jsx:218-225 | adding under a fresh id keeps ids distinct |
| Finance.Submit | src/components/FinancialManagement.jsx:204-225 | the table the submit leaves, by update or by add under a fresh id, keeps ids distinct |
| Finance.DeleteKeepsIdsDistinct | src/components/FinancialManagement.jsx:256-258 | deleting keeps ids distinct |
| Finance.FormOf | src/components/FinancialManagement.jsx:243-254 | the loaded form has the expense's hostel, category, date, description, receipt and amount |
| Finance.InitialExpensesIdsDistinct | src/components/FinancialManagement.jsx:93-138 | the mock expenses have distinct ids |
| Finance.InitialExpensesConsistent | src/components/FinancialManagement.jsx:93-138 | each mock expense's hostel name is the one its id looks up |
| Finance.EditThenSubmitUnchanged | src/components/FinancialManagement.jsx:243-254 | with distinct ids, editing a consistent expense and submitting the untouched form leaves the list as it was |
| Finance.StatusColors | src/components/FinancialManagement.jsx:260-269 | green exactly for approved and paid, yellow exactly for pending, red exactly for rejected and overdue, gray for every other status |
| Finance.InvoiceSelections | src/components/FinancialManagement.jsx:140-174 | the unpaid invoices are the last two of the list and the overdue one is the last |
| Finance.PaymentCardsConsistent | src/components/FinancialManagement.jsx:186-192 | the pending-payments card (PKR 518,000, "2 invoices") is the sum and count of the unpaid invoices, overdue included; the overdue card (266,000, "1 invoice") is the overdue one's |
| Finance.MonthCardsConsistent | src/components/FinancialManagement.jsx:177-192 | the income and expense cards show the chart's last month (Jun), net profit is income less expenses, and every charted month has income above expenses |
| Finance.FinanceScreen.constructor | src/components/FinancialManagement.jsx:61-138 | starts with the four mock expenses (distinct ids), an empty form, no selection, the dialog closed |
| Finance.FinanceScreen.SetSearchTerm | src/components/FinancialManagement.jsx:525 | the search box changes only the term |
| Finance.FinanceScreen.HandleExpenseSubmit | src/components/FinancialManagement.jsx:200-230 | the table becomes `Update` of the selected id or `Add` under `now`; the dialog closes, the selection clears and the form resets; ids stay distinct |
| Finance.FinanceScreen.HandleEditExpense | src/components/FinancialManagement.jsx:243-254 | selects the expense, loads `FormOf` it and opens the dialog |
| Finance.FinanceScreen.HandleDeleteExpense | src/components/FinancialManagement.jsx:256-258 | the table becomes `Delete` of the id, nothing else changes, and ids stay distinct |
| Reports.TierOf | src/components/Reports.jsx:490-495 | Excellent exactly above 90, Good exactly for 81..90, Needs Attention exactly at 80 or below |
| Reports.LabelAndBadgeAgree | src/components/Reports.jsx:490-495 | the label chain and the badge chain pick the same tier, so colour and label always agree |
| Reports.TierMonotone | src/components/Reports.jsx:490-495 | a higher occupancy never gets a lower tier |
| Reports.AverageRent | src/components/Reports.jsx:487-488 | defined exactly when the revenue row at the same index exists and occupancy is not 0; then it is revenue / occupied rounded to nearest |
| Reports.AverageRentExact | src/components/Reports.jsx:487-488 | when revenue is a whole multiple of occupants, the average is that rent |
| Reports.TableAverageRents | src/components/Reports.jsx:78-92 | the two tables list the same hostels in the same order; the shown averages are 335, 300, 360, 300 and 300 |
| Reports.Pkr | src/components/Reports.jsx:211 | a PKR amount is a multiple of 280, and for a non-negative dollar amount never below it |
| Reports.PkrLinear | src/components/Reports.jsx:211-226 | one dollar is 280 rupees, and the conversion respects differences and order, so it is exactly ×280 |
| Reports.KpiCardsConsistent | src/components/Reports.jsx:94-103 | the cards show PKR 23,226,000 revenue and 13,706,000 profit; profit = revenue − expenses in both currencies; the margin is the rounded profit share |
| Reports.MonthlyProfitIsIncomeLessExpenses | src/components/Reports.jsx:62-69 | in every month, profit = income − expenses |
| Reports.ExpenseSharesConsistent | src/components/Reports.jsx:71-76 | the shares sum to 100, the amounts to the total expenses, and each share is its amount's percentage |
| Reports.OccupancyFiguresConsistent | src/components/Reports.jsx:78-84 | the occupants sum to the tenants card; the card's 87% is both the rounded mean and the overall rate; rows 2-5 match their counts but Downtown shows 95 for 47 of 50 (94) |
| Reports.RevenueFigures | src/components/Reports.jsx:86-92 | the revenues sum to the revenue card; the percentage column sums to 130 |
| Signup.WithInput | src/components/SignupPage.jsx:121-122 | the changed field takes the new value |
| Signup.WithInputKeepsOthers | src/components/SignupPage.jsx:121-122 | every other field is unchanged |
| Signup.StepValidIffNoMessage | src/components/SignupPage.jsx:117-118 | a step passes exactly when no field has a message |
| Signup.Step1Valid | src/components/SignupPage.jsx:84-101 | step 1 passes exactly when names, email and phone are not blank, the email matches the pattern, the password has at least 8 characters and equals its confirmation |
| Signup.Step2Valid | src/components/SignupPage.jsx:103-111 | step 2 passes exactly when all seven business fields are filled in |
| Signup.Step3AndOthersValid | src/components/SignupPage.jsx:113-118 | step 3 passes exactly when the terms are accepted; any other step number records nothing and passes |
| Signup.ExclusiveMessages | src/components/SignupPage.jsx:87-97 | email gets "required" exactly when blank and "invalid" exactly when non-blank and badly formed; password "required" exactly when empty and "too short" exactly for 1..7 characters |
| Signup.StepErrorsIgnoreOtherFields | src/components/SignupPage.jsx:81-119 | a step's verdict depends only on that step's fields |
| Signup.NewUser | src/components/SignupPage.jsx:150-157 | the account's name is the first name, a space and the last name; its role is `Owner`; email and business details are copied |
| Signup.StepTitlesDistinct | src/components/SignupPage.jsx:163-179 | the three steps have distinct titles and descriptions, none of them the fallback |
| Signup.SignupWizard.constructor | src/components/SignupPage.jsx:31-56 | starts on step 1 with an empty form, no messages, not submitting |
| Signup.SignupWizard.ValidateStep | src/components/SignupPage.jsx:81-119 | records the step's messages and returns whether there were none; nothing else changes |
| Signup.SignupWizard.HandleInputChange | src/components/SignupPage.jsx:121-126 | only the edited field changes; its message is blanked only if one was showing; the wizard stays valid because inputs appear only on their own step |
| Signup.SignupWizard.HandleNextStep | src/components/SignupPage.jsx:128-132 | the step goes up by exactly one when the current step validates and stays otherwise; steps stay in 1..3 |
| Signup.SignupWizard.HandlePrevStep | src/components/SignupPage.jsx:134-136 | the step goes down by one (Previous is shown only past step 1) |
| Signup.SignupWizard.HandleSubmit | src/components/SignupPage.jsx:138-145 | does nothing but record messages when step 3 fails; otherwise marks the wizard busy and arms the timer with the form |
| Signup.SignupWizard.CompleteSubmit | src/components/SignupPage.jsx:145-160 | clears the busy flag and builds `NewUser` from the armed form, whose email matches the pattern and whose names are not blank |
| App.ProtectedNeedsSignIn | src/App.jsx:62-109 | each protected address renders its page when signed in and redirects to `/login` otherwise |
| App.PublicPages | src/App.jsx:40-59 | `/` always renders the landing page; `/login` and `/signup` render their pages when signed out and redirect to `/dashboard` when signed in |
| App.UnknownAddressGoesHome | src/App.jsx:112 | any other address redirects to `/` |
| App.AtMostOneRedirect | src/App.jsx:40-112 | the target of every redirect renders a page, so redirects never chain |
| App.Destination | src/App.jsx:40-112 | the page reached after at most one redirect is never protected for a visitor, and never login or signup for a signed-in user |
| App.Session.constructor | src/App.jsx:17-18 | starts signed out with no user |
| App.Session.HandleLogin | src/App.jsx:20-23 | signs in and stores the user |
| App.Session.HandleSignup | src/App.jsx:25-28 | signs in and stores the new account |
| App.Session.HandleLogout | src/App.jsx:30-33 | signs out and drops the user; signed in exactly when a user is held |
| App.Session.Visit | src/App.jsx:62-109 | the route's outcome for the current state; every protected page receives the signed-in user |

## Left out

- JSX rendering, styling, animations and charts. They are presentation only.
- The per-input `onChange` setters of the dialogs (`setFormData({...formData, x: value})`). Each is a one-field record update. Only the room amenity boxes and the tenant hostel/room Selects, which the logic depends on, are modelled.
- Browser form checks other than required number inputs. These are `type="email"` and the `required` text inputs. The dialogs' `Submittable` predicates ask only for the number inputs.
- `parseInt` and `parseFloat` of form text. The model treats the parsed values as integers. Expense amounts are decimals in the source, and floating point is not modelled.
- `Math.round` on doubles. It is computed exactly in integers, so floating-point rounding error is not modelled.
- Case-insensitive search lower-cases ASCII letters only. JavaScript's full Unicode case mapping is not modelled.
- Text lengths count Dafny characters. JavaScript counts UTF-16 code units, so the 8-character password check differs for characters outside the Basic Multilingual Plane.
- `toLocaleString` and `toLocaleDateString` formatting, and date parsing.
- File upload of an expense receipt. The receipt is its file name.
- The invoices table and the Generate Invoice button of the finance screen. The table only renders the constant list, and the button has no handler.
- The other badge colour switches: hostel, room and tenant `getStatusColor`, tenant `getPaymentStatusColor`, and the expense category icons. They are constant lookups. The expense status colours are modelled as a representative.
- The `selectedPeriod` and `selectedHostel` report selects. No computation reads them.
- The simulated API calls (`setTimeout`, `console.log`, the 2-second delay). The signup timer is modelled as two handlers.
- `window.location.href` navigation from the signup page.
- React's asynchronous state batching. Each handler is one atomic state change.
- Router path matching is exact here. React Router also ignores letter case and a trailing slash.
- LandingPage, LoginPage, Dashboard and Layout are not part of this model. The user object LoginPage passes to `handleLogin` is taken to have the shape of the signup account.
- Hostels.HostelScreen.HandleSubmit: requires that the new id `now` is not already in use. `Date.now()` does not guarantee that.
- Rooms.RoomScreen.HandleSubmit: the same requirement on `now`.
- Tenants.TenantScreen.HandleSubmit: the same requirement on `now`.
- Finance.FinanceScreen.HandleExpenseSubmit: the same requirement on `now`.
- Signup.SignupWizard.HandleSubmit: requires step 3 and not busy, because the submit button exists only on step 3 and is disabled while busy.

## Findings

| source | as written | input that shows it | evidently intended | confidence | as-written member | corrected member |
|---|---|---|---|---|---|---|
| src/components/RoomManagement.jsx:149-153 | `room.hostelName.toLowerCase()` runs on every room whose number did not match | add a room without picking a hostel, so `hostelName` is undefined, then search for any term its number does not contain: the filter throws a TypeError while rendering | rooms without a hostel name are simply not matched on it | high (not executed) | Rooms.AddWithoutHostelBreaksSearch | Rooms.Search |
| src/components/TenantManagement.jsx:177-182 | `tenant.roomNumber.includes(searchTerm)` runs on every tenant that matched on nothing else | add a tenant to Riverside, whose room Select offers no rooms, so `roomNumber` is undefined, then search for a term its name, email and "Riverside" do not contain: the filter throws | tenants without a room number are simply not matched on it | high (not executed) | Tenants.AddWithoutRoomBreaksSearch | Tenants.Search |
| src/components/FinancialManagement.jsx:194-198 | `expense.hostelName.toLowerCase()` runs on every expense whose description did not match | add an expense without picking a hostel, then search for a term its description does not contain: the filter throws | expenses without a hostel name are matched on description and category only | high (not executed) | Finance.AddWithoutHostelBreaksSearch | Finance.Search |

Each screen class filters with the null-safe `Search`. The as-written filters are `SearchAsWritten`,
built on `Records.FilterOrThrow`. Each is proved to either throw or agree with `Search`.
