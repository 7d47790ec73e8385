# ServiceFlow: a verified model of the subscription core

ServiceFlow sells HVAC maintenance subscriptions. Customers pick a plan, go
through a four-step checkout, and get a first maintenance visit booked one
week out. Administrators edit plans, search customers and read revenue and
appointment reports. Everything sits on four in-memory record tables:
customers, plans, appointments and companies. Each table is an array that
the service module mutates in place. Brand settings (name, logo, two colours)
live in browser storage, and routing rules decide the role and where a
sign-in lands.

The Dafny project models this core as follows:

- **The four tables.** Each is a class whose `rows: seq<…>` field is
  reassigned by `GetAll`, `GetById`, `Create`, `Update` and `Delete`. Each
  method states its whole new state, including the not-found error path.
  Distinct `Id`s are proved to be preserved.
- **The brand store.** A class holding the storage item and the document's
  CSS custom properties.
- **The pages' derived figures and views.** These are functions on sequences
  (filters, sorts, counts, sums, first-five slices). Lemmas relate them to
  one another, for example: per-plan revenue adds up to total revenue; the
  next appointment is the soonest upcoming one; the history shows the latest
  five.
- **The checkout form and the admin plan editor.** Classes whose methods
  update their fields.
- **The step indicator, header, plan list and sign-in redirect rules.**
  Functions whose contracts spell out each decision table.

Shared modules:

- `Wrappers`: `Option` and `Result`.
- `Text`: `startsWith`, `includes`, ASCII `toLowerCase`, the `\s` class, run
  collapsing, `split(" ")[0]`, number-to-text.
- `Seqs`: `filter`, stable sort, `slice(0, n)` and counting lemmas.
- `Tables`: `find`, `findIndex`, the next `Id`, `splice`, and the facts that
  keep `Id`s unique.

Timestamps are integers in milliseconds, and the current time `now` is a
parameter.

## Model

| member | source | states |
|---|---|---|
| Tables.FirstIndex | src/services/api/customerService.js:37 | `findIndex`: absent exactly when no record has the `Id`; otherwise the first position holding it |
| Tables.Lookup | src/services/api/customerService.js:15 | `find`: absent exactly when the `Id` is missing; otherwise the record at the position `findIndex` reports, carrying that `Id` |
| Tables.LookupUnique | src/services/api/customerService.js:15 | with distinct `Id`s, looking up a stored record's own `Id` finds that record |
| Tables.NextId | src/services/api/customerService.js:27 | the assigned `Id` is larger than every stored `Id` (one more than the largest); it is 1 for an empty table |
| Tables.AsWrittenAgreesOnNonEmpty | src/services/api/customerService.js:27 | on a non-empty table, `Math.max(...ids) + 1` as written equals `NextId`, so the correction only touches the empty table |
| Tables.EmptyTableIdsCollideAsWritten | src/services/api/customerService.js:27 | as written, an empty table assigns `-Infinity` twice in a row, so two records share an `Id`; `NextId` assigns 1 and then 2 |
| Tables.AppendKeepsUnique | src/services/api/customerService.js:26-30 | appending a record with the next `Id` keeps `Id`s distinct and adds exactly that `Id` at the end |
| Tables.RemoveKeepsUnique | src/services/api/customerService.js:52 | `splice(index, 1)` keeps `Id`s distinct, keeps the others in order, and the removed `Id` is gone |
| CustomerService.MergeLaws | src/services/api/customerService.js:41 | an empty update leaves a customer unchanged; applying an update twice equals applying it once; an update without `Id` keeps the `Id` |
| CustomerService.CustomerTable.constructor | src/services/api/customerService.js:3 | the table starts as a copy of the fixture |
| CustomerService.CustomerTable.GetAll | src/services/api/customerService.js:7-10 | every stored customer in storage order; the table is unchanged |
| CustomerService.CustomerTable.GetById | src/services/api/customerService.js:13-20 | succeeds exactly when the `Id` is stored, with the first customer holding it; otherwise the "Customer not found" error |
| CustomerService.CustomerTable.Create | src/services/api/customerService.js:23-32 | appends one customer: the caller's fields, with the service's `Id` (not stored before) and creation time overriding the caller's; distinct `Id`s are preserved and the new one is found by `Id` |
| CustomerService.CustomerTable.Update | src/services/api/customerService.js:35-43 | unknown `Id`: not-found error and nothing changes. Otherwise only the first match changes, to the merge of the supplied fields; the result is the stored record. Distinct `Id`s are preserved when the update carries no `Id` |
| CustomerService.CustomerTable.Delete | src/services/api/customerService.js:46-54 | unknown `Id`: not-found error and nothing changes. Otherwise exactly that position is removed and the rest keep their order; afterwards no customer has the `Id` |
| PlanService.MergeLaws | src/services/api/planService.js:41 | an empty update changes nothing; an update is idempotent; an update without `Id` keeps the `Id` |
| PlanService.SoftDeleteHidesOnlyThatPlan | src/services/api/planService.js:46-54 | after a soft delete the plan keeps its place and `Id` but leaves the active list; every other active plan stays listed; deleting again changes nothing |
| PlanService.PlanTable.constructor | src/services/api/planService.js:3 | the table starts as a copy of the fixture |
| PlanService.PlanTable.GetAll | src/services/api/planService.js:7-10 | exactly the active plans, as an order-preserving subsequence of storage |
| PlanService.PlanTable.GetById | src/services/api/planService.js:13-20 | finds a plan by `Id` whether it is active or not; otherwise the "Plan not found" error |
| PlanService.PlanTable.Create | src/services/api/planService.js:23-32 | appends one plan with a fresh `Id` and `isActive` forced to true, whatever the caller passed; it joins the end of the active list; distinct `Id`s are preserved |
| PlanService.PlanTable.Update | src/services/api/planService.js:35-43 | unknown `Id`: not-found error and nothing changes. Otherwise only the first match changes, to the merge |
| PlanService.PlanTable.Delete | src/services/api/planService.js:46-54 | unknown `Id`: not-found error and nothing changes. Otherwise only that plan's `isActive` is cleared. The `Id` list is unchanged, and no active plan has the `Id` afterwards |
| AppointmentService.MergeLaws | src/services/api/appointmentService.js:46 | an empty update changes nothing; an update is idempotent; an update without `Id` keeps the `Id` |
| AppointmentService.ForCustomerAfterAppend | src/services/api/appointmentService.js:23-26 | a new appointment joins the end of its own customer's list and no other customer's |
| AppointmentService.AppointmentTable.constructor | src/services/api/appointmentService.js:3 | the table starts as a copy of the fixture |
| AppointmentService.AppointmentTable.GetAll | src/services/api/appointmentService.js:7-10 | every stored appointment in storage order; the table is unchanged |
| AppointmentService.AppointmentTable.GetById | src/services/api/appointmentService.js:13-20 | the first appointment with the `Id`, or the "Appointment not found" error |
| AppointmentService.AppointmentTable.GetByCustomerId | src/services/api/appointmentService.js:23-26 | exactly the appointments of that customer, as an order-preserving subsequence |
| AppointmentService.AppointmentTable.Create | src/services/api/appointmentService.js:29-37 | appends one appointment with a fresh `Id` overriding the caller's; it joins the end of its customer's list; distinct `Id`s are preserved |
| AppointmentService.AppointmentTable.Update | src/services/api/appointmentService.js:40-48 | unknown `Id`: not-found error and nothing changes. Otherwise only the first match changes, to the merge |
| AppointmentService.AppointmentTable.Delete | src/services/api/appointmentService.js:51-59 | unknown `Id`: not-found error and nothing changes. Otherwise exactly that position is removed, the rest keep their order, and the `Id` is gone |
| Text.CollapseSpaces | src/services/api/companyService.js:28 | `replace(/\s+/g, '-')`: the result has no whitespace, is no longer than the input, and is made of '-' and input characters; whitespace-free text comes through unchanged |
| Text.CollapseOneRun | src/services/api/companyService.js:28 | a whole run of whitespace between a clean head and a tail that does not start with whitespace becomes exactly one '-' |
| CompanyService.Slug | src/services/api/companyService.js:28 | the lower-cased name with whitespace runs collapsed: free of whitespace, no longer than the name, and made of '-' and lower-cased name characters |
| CompanyService.EmbedCodeCarriesSlug | src/services/api/companyService.js:28 | the snippet is the fixed script-tag prefix, the slug and the fixed suffix; the slug can be read back from it |
| CompanyService.SlugIdempotent | src/services/api/companyService.js:28 | a slug is its own slug |
| CompanyService.SameSlugSameEmbed | src/services/api/companyService.js:28 | names with the same slug (differing only in case or spacing) get the same snippet |
| CompanyService.MergeLaws | src/services/api/companyService.js:41 | an empty update changes nothing; an update is idempotent; a rename keeps the old snippet |
| CompanyService.CompanyTable.constructor | src/services/api/companyService.js:3 | the table starts as a copy of the fixture |
| CompanyService.CompanyTable.GetAll | src/services/api/companyService.js:7-10 | every stored company in storage order |
| CompanyService.CompanyTable.GetById | src/services/api/companyService.js:13-20 | the first company with the `Id`, or the "Company not found" error |
| CompanyService.CompanyTable.Create | src/services/api/companyService.js:23-32 | appends one company with a fresh `Id` and the snippet for its name, whose slug reads back as the name's slug; distinct `Id`s are preserved |
| CompanyService.CompanyTable.Update | src/services/api/companyService.js:35-43 | unknown `Id`: not-found error and nothing changes. Otherwise only the first match changes, to the merge |
| CompanyService.CompanyTable.Delete | src/services/api/companyService.js:46-54 | unknown `Id`: not-found error and nothing changes. Otherwise exactly that position is removed and the `Id` is gone |
| BrandService.Overlay | src/services/api/brandService.js:16 | `{...base, ...top}`: the keys of both; `top`'s values win; `base` supplies the rest |
| BrandService.Effective | src/services/api/brandService.js:12-23 | the settings read from a storage item always hold the four default keys; stored values win, and every other key holds its default; anything but a stored object yields the defaults |
| BrandService.Themed | src/services/api/brandService.js:33-34 | sets `--primary-color` and `--accent-color` from the settings and leaves every other property alone |
| BrandService.OverlayIdempotent | src/services/api/brandService.js:28 | overlaying the defaults twice equals overlaying them once |
| BrandService.SaveThenRead | src/services/api/brandService.js:16-29 | reading after a save returns exactly what the save returned; a key the saved settings omit reads back as its default, whatever was stored before |
| BrandService.BrandStore.GetBrandSettings | src/services/api/brandService.js:12-23 | never fails: the effective settings of the stored item, and the defaults when storage holds nothing usable, is unreadable or holds malformed text |
| BrandService.BrandStore.UpdateBrandSettings | src/services/api/brandService.js:26-42 | a failed write is rethrown and nothing changes. Otherwise the defaults overlaid with the settings are stored, returned and applied to the two colour properties, and reading back yields the same object |
| BrandService.BrandStore.InitializeBrandSettings | src/services/api/brandService.js:45-59 | returns the effective settings, applies their two colours, and leaves storage unchanged |
| Metrics.StatusVariant | src/components/organisms/AdminDashboard.jsx:62-73 | the badge is one of info, success, error, default |
| Metrics.StatusVariantIgnoresCase | src/components/organisms/AdminDashboard.jsx:62-73 | the badge depends on the status only up to letter case; Scheduled, Completed and Cancelled get info, success and error |
| Metrics.UpcomingSorted | src/components/organisms/AdminDashboard.jsx:85-87 | a permutation of the scheduled appointments dated after `now` (the filter), sorted soonest first |
| Metrics.CountStatus | src/components/pages/AdminReportsPage.jsx:183 | the length of the status filter is the number of appointments with that status (its multiplicity among their statuses), never more than the list |
| Metrics.CountStatusAppend | src/components/organisms/CustomerDashboard.jsx:182 | one more appointment raises a status count by one exactly when it has that status |
| Metrics.UpcomingAtMostScheduled | src/components/organisms/AdminDashboard.jsx:85-87 | there are never more upcoming appointments than scheduled ones |
| Metrics.PriceFor | src/components/organisms/AdminDashboard.jsx:80-83 | a customer's price: that of the first plan with their `planId`, and 0 when no listed plan has it |
| Metrics.TotalRevenueAppend | src/components/organisms/AdminDashboard.jsx:80-83 | revenue is additive: one more customer adds exactly their plan's price, and nothing for an unlisted plan |
| Metrics.TotalRevenueNonNegative | src/components/organisms/AdminDashboard.jsx:80-83 | with no negative prices, total revenue is never negative |
| Metrics.CompletedThisMonthAtMostCompleted | src/components/organisms/AdminDashboard.jsx:89-95 | completions in `now`'s month and year are among all completions |
| AdminDashboard.FilteredCustomers | src/components/organisms/AdminDashboard.jsx:75-78 | exactly the customers whose lower-cased name or e-mail contains the lower-cased term, in storage order, each with as many copies as the list holds |
| AdminDashboard.EmptySearchListsAll | src/components/organisms/AdminDashboard.jsx:75-78 | an empty term lists every customer, in order |
| AdminDashboard.NarrowingSearch | src/components/organisms/AdminDashboard.jsx:75-78 | a longer term that contains a shorter one lists a subset of the shorter term's customers |
| AdminDashboard.RecentCustomers | src/components/organisms/AdminDashboard.jsx:171 | the first five customers (all of them when fewer) |
| AdminDashboard.UpcomingPreview | src/components/organisms/AdminDashboard.jsx:198 | at most five upcoming appointments, soonest first: a prefix of the full upcoming list |
| AdminDashboard.PreviewIsSoonest | src/components/organisms/AdminDashboard.jsx:198 | nothing left out of the preview is sooner than anything in it |
| AdminDashboard.PlanLabel | src/components/organisms/AdminDashboard.jsx:181 | "Unknown Plan" exactly when no plan has the customer's `planId` or its name is empty (or literally that text); otherwise the plan's name |
| AdminReports.PlanDistribution | src/components/pages/AdminReportsPage.jsx:78-85 | one row per listed plan, in plan order: its name, its customer count and count × price |
| AdminReports.DistributionMatchesTotals | src/components/pages/AdminReportsPage.jsx:65-85 | with distinct plan `Id`s the per-plan revenues sum to the headline total revenue, and the per-plan counts sum to the customers on a listed plan |
| AdminReports.BreakdownPartitions | src/components/pages/AdminReportsPage.jsx:183-201 | the completed, scheduled and cancelled counts add up to at most the number of appointments, and to exactly that number when every status is one of the three |
| AppointmentsPage.FilterAppointments | src/components/pages/AppointmentsPage.jsx:67-81 | each tab keeps exactly its appointments (upcoming, completed, cancelled) as an order-preserving subsequence with every copy kept; "all" and unknown tabs keep everything |
| AppointmentsPage.Displayed | src/components/pages/AppointmentsPage.jsx:175-176 | the shown list is a permutation of the tab's appointments, sorted soonest first |
| AppointmentsPage.ActionsOnUpcomingTab | src/components/pages/AppointmentsPage.jsx:239 | Reschedule and Cancel appear on an appointment exactly when the upcoming tab lists it |
| AppointmentsPage.UpcomingStatIsTabSize | src/components/pages/AppointmentsPage.jsx:298-300 | the "Upcoming" counter equals the number of appointments the "upcoming" tab lists |
| AppointmentsPage.CountersWithinTotal | src/components/pages/AppointmentsPage.jsx:274-312 | the completed, upcoming and cancelled counters never add up to more than the total |
| AppointmentsPage.HandleCancel | src/components/pages/AppointmentsPage.jsx:89-97 | succeeds exactly for a stored `Id`. On success only that appointment changes, to status "Cancelled", and it leaves the upcoming tab; on failure nothing changes and the page keeps the list it showed. On success the reloaded list is the table |
| CustomerDashboard.Chosen | src/components/organisms/CustomerDashboard.jsx:30-35 | the customer passed in from checkout, else the first stored customer, else none |
| CustomerDashboard.LoadDashboard | src/components/organisms/CustomerDashboard.jsx:24-55 | "no customer" exactly when none is passed and none is stored; unavailable exactly when the chosen customer's plan is missing. Otherwise it shows that customer, their plan, and exactly their appointments, each with as many copies as stored |
| CustomerDashboard.NextAppointment | src/components/organisms/CustomerDashboard.jsx:133-135 | absent exactly when nothing is upcoming; otherwise an upcoming appointment no later than any other |
| CustomerDashboard.CompletedCount | src/components/organisms/CustomerDashboard.jsx:182 | exactly the number of appointments whose status is "Completed", so at most the number of appointments and zero exactly when none is completed |
| CustomerDashboard.FirstName | src/components/organisms/CustomerDashboard.jsx:142 | the longest space-free prefix of the name |
| CustomerDashboard.History | src/components/organisms/CustomerDashboard.jsx:278-280 | five appointments (all when fewer), latest first; as a multiset it is contained in the customer's appointments, and equals them when there are at most five |
| CustomerDashboard.HistoryIsLatest | src/components/organisms/CustomerDashboard.jsx:278-280 | an appointment left out of the history is no later than every one shown |
| CheckoutForm.WithCustomerField | src/components/organisms/CheckoutForm.jsx:46-51 | sets the named field, keeps the other fields and the address |
| CheckoutForm.WithAddressField | src/components/organisms/CheckoutForm.jsx:53-61 | sets the named address field, keeps the other address fields and every top-level field |
| CheckoutForm.WithPaymentField | src/components/organisms/CheckoutForm.jsx:63-68 | sets the named payment field, keeps the others |
| CheckoutForm.FieldUpdateLaws | src/components/organisms/CheckoutForm.jsx:46-68 | writing back a field's value changes nothing, and of two writes to one field the second wins |
| CheckoutForm.NextStep | src/components/organisms/CheckoutForm.jsx:70-74 | one step forward below the last step, unchanged on it |
| CheckoutForm.PreviousStep | src/components/organisms/CheckoutForm.jsx:76-80 | one step back above the first step, unchanged on it |
| CheckoutForm.StepsRoundTrip | src/components/organisms/CheckoutForm.jsx:70-80 | between the first and last step Next and Previous undo each other, and both stay within steps 1 to 4 |
| CheckoutForm.EntryRedirect | src/components/organisms/CheckoutForm.jsx:41-44 | a redirect, to "/plans", exactly when no plan was selected |
| CheckoutForm.NewCustomer | src/components/organisms/CheckoutForm.jsx:87-92 | the submitted customer carries the form's name, e-mail, phone and address, the selected plan's `Id`, and a "stripe_" id |
| CheckoutForm.FirstVisit | src/components/organisms/CheckoutForm.jsx:97-104 | the first visit is for the new customer's `Id` and the plan's `Id`, "Scheduled" one week after `now`, with technician "tech_1" and the note "Initial maintenance visit" |
| CheckoutForm.OrderShowsOnDashboard | src/components/organisms/CheckoutForm.jsx:97-109 | after the order the dashboard opens on the new customer and their plan; the first visit is among their appointments, and there is a next appointment |
| CheckoutForm.Checkout.constructor | src/components/organisms/CheckoutForm.jsx:15-37 | the form opens on step 1 with blank fields for the selected plan |
| CheckoutForm.Checkout.Next | src/components/organisms/CheckoutForm.jsx:70-74 | the step becomes `NextStep` of the old one and stays in 1..4; the fields are unchanged |
| CheckoutForm.Checkout.Previous | src/components/organisms/CheckoutForm.jsx:76-80 | the step becomes `PreviousStep` of the old one and stays in 1..4; it stays put exactly when the button was disabled; the fields are unchanged |
| CheckoutForm.Checkout.PreviousDisabled | src/components/organisms/CheckoutForm.jsx:304 | Previous is disabled exactly on step 1, which is exactly the step where `handlePrevious` would not move |
| CheckoutForm.Checkout.ChangeCustomerField | src/components/organisms/CheckoutForm.jsx:46-51 | only the customer data changes, by `WithCustomerField` |
| CheckoutForm.Checkout.ChangeAddressField | src/components/organisms/CheckoutForm.jsx:53-61 | only the customer data changes, by `WithAddressField` |
| CheckoutForm.Checkout.ChangePaymentField | src/components/organisms/CheckoutForm.jsx:63-68 | only the payment data changes, by `WithPaymentField` |
| CheckoutForm.Checkout.PrimaryButton | src/components/organisms/CheckoutForm.jsx:310-322 | "Complete Order" exactly on the last step, "Next" otherwise |
| CheckoutForm.Checkout.Submit | src/components/organisms/CheckoutForm.jsx:82-117 | appends one customer (the form's data with the next customer `Id`), then one first visit for that `Id` with the next appointment `Id`, and leads to "/dashboard" with the new customer. Both tables keep distinct `Id`s, and the payment fields play no part |
| StepIndicator.Indicator | src/components/molecules/StepIndicator.jsx:14-55 | one item per step numbered from 1. A step is completed exactly when its number is below the current step, active exactly when equal to it, upcoming exactly when above it, so each is exactly one of the three. It shows a check exactly when completed. Every step but the last has a connector, green exactly when that step is completed |
| StepIndicator.IndicatorCounts | src/components/molecules/StepIndicator.jsx:14-18 | on a step in range exactly one circle is active (the current one); `current - 1` are completed; there are `n - 1` connectors, of which `current - 1` are green |
| StepIndicator.NoActiveOutOfRange | src/components/molecules/StepIndicator.jsx:14-18 | on a step number outside the steps no circle is active |
| AdminPlans.FormFor | src/components/pages/AdminPlansPage.jsx:49-57 | the form holds the plan's name, monthly price and features, and an annual price of ten times the monthly price |
| AdminPlans.Appended | src/components/pages/AdminPlansPage.jsx:88-93 | one blank feature at the end, the others unchanged |
| AdminPlans.UpdatedAt | src/components/pages/AdminPlansPage.jsx:95-100 | replaces exactly the feature at the index; an out-of-range index changes nothing |
| AdminPlans.RemovedAt | src/components/pages/AdminPlansPage.jsx:102-107 | drops exactly the feature at the index and keeps the rest in order; an out-of-range index changes nothing |
| AdminPlans.FeatureEditsUndo | src/components/pages/AdminPlansPage.jsx:88-107 | removing an added feature restores the list, and writing a feature back changes nothing |
| AdminPlans.SavePatch | src/components/pages/AdminPlansPage.jsx:59-66 | the saved changes carry the form's name, monthly price and features over the page's copy of the plan; the annual price is never sent |
| AdminPlans.SaveRoundTrip | src/components/pages/AdminPlansPage.jsx:59-66 | opening a plan and saving it untouched writes that plan back exactly, and the annual price field has no effect on what is saved |
| AdminPlans.PlanEditor.constructor | src/components/pages/AdminPlansPage.jsx:17-22 | no plan open and a blank form |
| AdminPlans.PlanEditor.LoadPlans | src/components/pages/AdminPlansPage.jsx:24-36 | the list becomes exactly the active plans of the table; the form is untouched |
| AdminPlans.PlanEditor.EditPlan | src/components/pages/AdminPlansPage.jsx:49-57 | opens the plan: its `Id` is being edited and the form is `FormFor` it |
| AdminPlans.PlanEditor.CancelEdit | src/components/pages/AdminPlansPage.jsx:78-86 | closes the form and blanks it; the list is untouched |
| AdminPlans.PlanEditor.AddFeature | src/components/pages/AdminPlansPage.jsx:88-93 | only the form's features change, by `Appended` |
| AdminPlans.PlanEditor.UpdateFeature | src/components/pages/AdminPlansPage.jsx:95-100 | only the form's features change, by `UpdatedAt` |
| AdminPlans.PlanEditor.RemoveFeature | src/components/pages/AdminPlansPage.jsx:102-107 | only the form's features change, by `RemovedAt` |
| AdminPlans.PlanEditor.SavePlan | src/components/pages/AdminPlansPage.jsx:59-76 | a stored `Id` gets the merge of the form, which keeps the `Id` and stores the form's name, price and features; the list is reloaded and the form closes. A missing `Id` changes nothing and keeps the form open. Distinct `Id`s are preserved |
| PlanSelection.PopularPlanId | src/components/organisms/PlanSelection.jsx:63 | the second plan's `Id` when there are two or more, the only plan's when there is one, none for no plans |
| PlanSelection.PlanView | src/components/organisms/PlanSelection.jsx:53-84 | the empty view exactly when there are no plans; otherwise one card per plan in order, flagged popular exactly when its `Id` is the popular one |
| PlanSelection.ExactlyOnePopular | src/components/organisms/PlanSelection.jsx:84 | with distinct `Id`s exactly one card is flagged: the second, or the only one |
| PlanSelection.SelectPlan | src/components/organisms/PlanSelection.jsx:34-37 | leads to "/checkout" holding the chosen plan |
| PlanSelection.SelectionReachesCheckout | src/components/organisms/PlanSelection.jsx:34-37 | a chosen card's plan reaches checkout, which does not send the visitor back and holds that same plan |
| Header.NavItems | src/components/organisms/Header.jsx:16-31 | five items for admin, four otherwise; every path belongs to the role's own area, and no two share a path |
| Header.OneHighlighted | src/components/organisms/Header.jsx:46 | at most one item is highlighted, and exactly one when some item's path is the pathname |
| Header.RoleSwitchTarget | src/components/organisms/Header.jsx:48-54 | the switch leads to the other role's area, to that role's first navigation item |
| Header.LogoLink | src/components/organisms/Header.jsx:66 | the logo leads to the role's own first navigation item |
| Header.SwitchTwice | src/components/organisms/Header.jsx:48-66 | switching twice lands on the role's logo target |
| Header.Brand | src/components/organisms/Header.jsx:57-59 | the loaded value when present and non-empty, else the fallback |
| Header.FallbacksAreDefaults | src/components/organisms/Header.jsx:57-59 | the header's fallback name and colour equal the stored defaults, so before loading and with nothing stored it shows the same and no logo image |
| AppRouting.RoleOf | src/App.jsx:36-39 | admin exactly when the path starts with "/admin" |
| AppRouting.AuthPageMentionsAuthWord | src/App.jsx:95-102 | a path that passes the six-route sign-in test also passes the six-word test |
| AppRouting.OnAuthResult | src/App.jsx:60-110 | a signed-in user is stored, a signed-out one cleared. Signed in: to the redirect if given, else to the current path off the sign-in pages, else "/". Signed out: to "/login" off the sign-in pages, else stay on the current path. This shows the other branches are never taken |

## Left out

- Timing: the services' `setTimeout` delays, `async`/`Promise` sequencing, loading and error flags, toasts and `console` output. Operations are synchronous and return their results or errors as values.
- Dates: ISO date strings and `new Date(...)` parsing are not modelled. Timestamps are integers and `now` is a parameter, so the several clock reads of one handler are one value. The month and year of a timestamp come from a `calendar` parameter, because the browser's time zone is outside the model.
- Checkout's own `createdAt` and its placeholder customer `Id`: both are overwritten by `create`, which the model makes explicit.
- Prices: they are whole numbers in the model. Floating-point prices, `parseFloat`, `toString`, `Intl` currency formatting and `toLocaleDateString` are not modelled.
- `toLowerCase`: covers the ASCII letters only; Unicode case mapping is not modelled.
- Brand storage contents: modelled as a string-to-string map. The `JSON.stringify`/`JSON.parse` round trip and non-string values are not modelled. Storage reads are one of four outcomes: nothing usable, unreadable, malformed or a stored object. The `typeof document` test is taken as true.
- Updates: an `updates` object carries only the record's own fields; extra keys a caller might add are not modelled.
- Aliasing between results and the tables is not modelled. In the source the arrays hand out the stored objects, so the plan soft delete also changes objects in lists returned by earlier `getAll` calls, such as a page's plan list (`getById` returns a copy). The in-place `sort` calls (src/components/pages/AppointmentsPage.jsx:175-176, src/components/organisms/CustomerDashboard.jsx:278-280) are modelled as sorted copies.
- Order among equal dates: the contracts of the sorted lists state sortedness and which appointments they hold (a permutation of the filtered list, or for the history a sub-multiset of five that is the whole list when it has at most five), not where appointments with equal dates end up.
- `redirect` query parameter: `URLSearchParams` parsing is not modelled; the parameter arrives as an optional string.
- App setup: the `window.ApperSDK` setup, Redux `dispatch` (returned as a session update), `setIsInitialized` and the `onError` logging.
- Page glue: the header's mobile menu, the Reschedule and Schedule toasts, and the "Loading..." placeholders.
- Brand colour: the customer dashboard's colour fallback applies the same rule as `Header.PrimaryColor` and is not modelled separately.
- Rendering: `BillingPage`, `AdminSettingsPage`, `ProtectedRoute`, the presentational components and the render trees are not part of this model.
- AdminPlans.PlanEditor.SavePlan: requires a plan to be open, because the page renders the save button only in edit mode.
- CustomerService.CustomerTable.Update: keeps `Id`s distinct only for updates without an `Id`, because an update may overwrite `Id` (the same holds for the other three tables).

## Findings

| source | as written | input that shows it | evidently intended | confidence | as-written member | corrected member |
|---|---|---|---|---|---|---|
| src/services/api/customerService.js:27 | the next `Id` is the maximum stored `Id` plus one, taken with `Math.max` over all `Id`s (the same expression is in the plan, appointment and company services) | create on an empty table (an empty fixture, or after deleting every record): `Math.max()` is `-Infinity`, so the record gets `Id` `-Infinity`, and a second create assigns `-Infinity` again | 1 for an empty table, then one more than the largest | not executed | Tables.EmptyTableIdsCollideAsWritten | Tables.NextId |
