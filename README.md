# intake-portal, modelled in Dafny

intake-portal is a small Next.js web agency portal. Clients do three things in it:

- describe a website project in a four-step wizard, which prices the project as they go;
- pay for it in full or with a 50% deposit through a hosted checkout;
- follow their projects on a dashboard.

An admin page lists every project with revenue figures.

This project models the logic behind those screens and proves properties of it:

- the cost estimator;
- the intake schemas;
- the three API routes that write the database:
  - project creation and listing;
  - payment-intent creation;
  - the payment webhook;
- the user upsert done by the dashboard;
- the revenue and status figures of the dashboard and the admin page;
- the payment amounts;
- the intake form's requirement list;
- the status badge labels.

The database is three in-memory tables (users, projects, payments) held as sequences of rows. Each route is modelled in two parts:

- a pure transition function from the old tables to the reply and the new tables. Its contract carries the route's promises, and lemmas relate it to the other routes: it keeps the store's keys, redelivery does nothing more, what it creates is then listed.
- a method of the `Store.Database` class that performs the same writes in place. The `updateMany` rewrites are loops over the payment rows. Each method is proved to end in the state that the transition function describes, and to keep the keys and foreign keys.

Some source state is updated step by step:

- the wizard's step and checked features;
- the intake form's requirement rows;
- the payment page's loaded project and chosen option.

Each of these is a class whose methods say what the new state is.

Modules, one per source file, plus shared ones:

| module | file | models |
|---|---|---|
| `Wrappers` | wrappers.dfy | `Option`, and `Reply` (a JSON body or an HTTP error status with a message) |
| `Text` | text.dfy | JavaScript `replace("_", " ")`, `slice(-8)` and `trim() === ""` |
| `Records` | records.dfy | the table rows; keys and foreign keys (`Consistent`); the newest-first listing with payments attached |
| `SubmitPage` | submit_page.dfy | app/submit/page.tsx |
| `Validations` | validations.dfy | lib/validations.ts |
| `StripeWebhook` | stripe_webhook.dfy | app/api/webhooks/stripe/route.ts |
| `ProjectsRoute` | projects_route.dfy | app/api/projects/route.ts |
| `PaymentIntentRoute` | payment_intent_route.dfy | app/api/create-payment-intent/route.ts |
| `PaymentPage` | payment_page.dfy | app/payment/page.tsx |
| `IntakeForm` | intake_form.dfy | components/intake-form.tsx |
| `Aggregates` | aggregates.dfy | the revenue and count reductions, which app/dashboard/page.tsx and app/admin/page.tsx write out identically |
| `Dashboard` | dashboard.dfy | app/dashboard/page.tsx |
| `Admin` | admin.dfy | app/admin/page.tsx |
| `StatusBadge` | status_badge.dfy | components/ui/status-badge.tsx |
| `Store` | database.dfy | the routes' and the dashboard's writes, done in place on one mutable store |

Representation choices:

- **Identifiers and time.** Fresh row ids and the clock are parameters.
- **Authentication.** The signed-in Clerk user is an optional string. As in the source's `!userId` checks, a missing id and an empty one are both treated as no caller (`Records.SignedIn`). The same holds for the webhook's `!signature` check (`StripeWebhook.HasSignature`).
- **Stripe.** A verified signature is the event it produced, or None. A created payment intent is its id and client secret, or None.
- **Money.**
  - Payment amounts and the figures summed from them are reals.
  - The estimator works in whole dollars with multipliers in integer tenths (1.5 is 15).
  - `Math.round` is `floor(x + 1/2)`; the estimator proves it exact.
- **Failed writes.** A database write fails when it would break a key: a duplicate id, email or Clerk id, or a missing referenced row. The route then answers 500, as the source's `catch` does.

Several behaviours of the code are proved as they are:

- The webhook's two writes are not atomic. When the project update fails, the payments stay marked PAID and the reply is 500 (`StripeWebhook.CheckoutPartialFailure`).

- Every dashboard visitor is upserted under the same placeholder email. So a visit hands the shared row to the visitor (`Dashboard.VisitTakesOverSharedRow`), and a second new caller cannot create a project (`ProjectsRoute.SecondNewCallerRejected`).
- The admin gate admits every user with a row (`Admin.AnyUserAdmitted`).
- The PENDING row made by the payment-intent route has no session id. A completed checkout therefore never marks that row PAID (`PaymentIntentRoute.PendingRowIgnoredByCheckout`).

## Model

| member | source | states |
|---|---|---|
| `SubmitPage.MultiplierTenths` | app/submit/page.tsx:33-39 | The multipliers are BUSINESS 1, ECOMMERCE 1.5, PORTFOLIO 0.8, BLOG 0.9 and CUSTOM 2, in tenths. An unknown type gets 1. |
| `SubmitPage.FindMultiplier` | app/submit/page.tsx:97 | The first row whose value is the type decides. Its multiplier is used, or 1 when that multiplier is 0 (the `\|\| 1` fallback). A type with no row gets 1. |
| `SubmitPage.FirstTypeIndex` | app/submit/page.tsx:97 | `find` stops at the first row whose value is the type; no earlier row has it, and the index is the length when no row does. |
| `SubmitPage.PriceOf` | app/submit/page.tsx:20-31 | In a table with distinct names, a name's price is its row's cost, or 0 when the name is not listed. |
| `SubmitPage.FeatureNamesDistinct` | app/submit/page.tsx:20-31 | The FEATURES table has no duplicate name. |
| `SubmitPage.SelectedCostMultipleOf50` | app/submit/page.tsx:93 | When every table cost is a multiple of 50, so is the selected-features cost. |
| `SubmitPage.SelectedCostOnlyMembership` | app/submit/page.tsx:93 | The features cost depends only on which table names the selection contains, not on order or repeats. |
| `SubmitPage.SelectedCostAddOne` | app/submit/page.tsx:93 | Adding a name raises the features cost by its price only if it was not already selected. A repeated or unknown name adds nothing. |
| `SubmitPage.SelectedCostNotMentioned` | app/submit/page.tsx:93 | A name no table row carries adds nothing. |
| `SubmitPage.SelectedCostMonotone` | app/submit/page.tsx:93 | With non-negative prices, a larger selection never costs less. |
| `SubmitPage.SelectedCostOfNothing` | app/submit/page.tsx:93 | No selection costs 0. |
| `SubmitPage.EstimateIsExact` | app/submit/page.tsx:86-101 | The base is a multiple of 50. Base times multiplier is a whole number of dollars, and `Math.round` returns it unchanged. |
| `SubmitPage.RoundExactFifty` | app/submit/page.tsx:100 | Rounding 50·k times any table multiplier is exact. |
| `SubmitPage.EstimateFormula` | app/submit/page.tsx:86-101 | The estimate is exactly (1000 + 200·pages + the selected known features' costs) × multiplier. |
| `SubmitPage.EstimateNonNegative` | app/submit/page.tsx:90-98 | A non-negative page count gives an estimate of at least 800, so never a negative one. |
| `SubmitPage.SelectedCostNonNegative` | app/submit/page.tsx:93 | With non-negative feature prices, the selected features never cost less than 0. |
| `SubmitPage.EstimateMonotoneInPages` | app/submit/page.tsx:90-98 | For a fixed type and selection, more pages never lower the estimate. |
| `SubmitPage.EstimateMonotoneInFeatures` | app/submit/page.tsx:90-98 | For a fixed type and page count, a larger selection never lowers the estimate. |
| `SubmitPage.EstimateAddFeature` | app/submit/page.tsx:90-98 | Checking a feature raises the estimate by exactly its price × multiplier, or by nothing if it was already checked or is unknown. |
| `SubmitPage.EstimateExamples` | app/submit/page.tsx:86-101 | 5 pages with Responsive Design, SEO Optimization and Contact Forms give 3000 for BUSINESS, 4500 for ECOMMERCE and 3000 for an unknown type. |
| `SubmitPage.ToggleFeature` | app/submit/page.tsx:103-107 | Checking appends the name. Unchecking removes every occurrence and keeps the other names' multiplicities. |
| `SubmitPage.Without` | app/submit/page.tsx:105 | The filter drops every occurrence of the name and keeps every other name. |
| `SubmitPage.WithoutKeepsOrder` | app/submit/page.tsx:105 | The filter distributes over concatenation, so the names that remain keep their order. |
| `SubmitPage.WithoutAbsent` | app/submit/page.tsx:105 | Unchecking a name that is not selected changes nothing. |
| `SubmitPage.NextStepOf` | app/submit/page.tsx:160-187 | The step stays in 1..4. It advances by one exactly when the step is below 4, the trigger passed and, on step 2, a feature is selected; otherwise it stays. |
| `SubmitPage.PrevStepOf` | app/submit/page.tsx:189-191 | The step stays in 1..4 and goes back by one only above 1. |
| `SubmitPage.Wizard.constructor` | app/submit/page.tsx:42-43 | The wizard starts on step 1 with no feature checked. |
| `SubmitPage.Wizard.Progress` | app/submit/page.tsx:193 | Progress is step/4 of 100, between 25 and 100. |
| `SubmitPage.Wizard.HandleFeatureChange` | app/submit/page.tsx:103-107 | The selection becomes the toggled selection, and the form's features value becomes the same list. |
| `SubmitPage.Wizard.NextStep` | app/submit/page.tsx:160-187 | The step becomes `NextStepOf` of the old step, and the step stays in 1..4. |
| `SubmitPage.Wizard.PrevStep` | app/submit/page.tsx:189-191 | The step becomes `PrevStepOf` of the old step. |
| `Validations.LengthIssues` | lib/validations.ts:4-11 | No issue iff the length is within the bounds, inclusive. Every issue names the field. |
| `Validations.ClientFieldIssues` | lib/validations.ts:3-15 | A client field has no issue iff it meets its rule: names 2..50, a valid email, company at most 100 when given, phone free. |
| `Validations.IntakeFieldIssues` | lib/validations.ts:17-34 | An intake field has no issue iff it meets its rule: name 3..100, one of six types, budget in [100, 1000000], timeline non-empty, description 10..2000, 1..20 requirements, a listed priority if given. |
| `Validations.ParseClient` | lib/validations.ts:3-15 | Accepts exactly the valid client parts and returns them unchanged. On rejection, the failing fields are exactly those with an issue. |
| `Validations.ParseIntake` | lib/validations.ts:17-34 | Accepts exactly the valid intake parts; an absent priority becomes MEDIUM. On rejection, the failing fields are exactly those with an issue. |
| `Validations.ParseForm` | lib/validations.ts:36-39 | The combined form is accepted iff both parts are, and the issues are the client's followed by the intake's. |
| `Validations.ClientIssuesOverExact` | lib/validations.ts:3-15 | Among any list of client fields, an issue names a field iff it is listed and fails. |
| `Validations.IntakeIssuesOverExact` | lib/validations.ts:17-34 | Among any list of intake fields, an issue names a field iff it is listed and fails. |
| `Validations.ClientIssuesExact` | lib/validations.ts:3-15 | A field fails iff an issue names it, and no issue means valid. |
| `Validations.IntakeIssuesExact` | lib/validations.ts:17-34 | The same for the intake part. |
| `Validations.RequirementContentsIgnored` | lib/validations.ts:29-32 | The schema looks only at the number of requirements, never at their text. |
| `Validations.EmailAccepted` | lib/validations.ts:12 | The placeholder address is a valid email. |
| `Validations.EmailWithoutLocalPartRejected` | lib/validations.ts:12 | An address with nothing before "@" is rejected. |
| `Validations.EmailNeedsDot` | lib/validations.ts:12 | An address without a dot is rejected. |
| `Validations.NoDotNoDomain` | lib/validations.ts:12 | A domain needs a dot. |
| `Records.InsertUserKeepsConsistent` | app/api/projects/route.ts:23-28 | Inserting a user whose keys are free keeps every key and foreign key. |
| `Records.InsertProjectKeepsConsistent` | app/api/projects/route.ts:31-38 | Inserting a project with a free id and an existing owner keeps them. |
| `Records.InsertPaymentKeepsConsistent` | app/api/create-payment-intent/route.ts:27-34 | Inserting a payment with a free id and an existing project keeps them. |
| `Records.FindByClerkId` | app/api/projects/route.ts:18-20 | `findUnique` by Clerk id finds a row holding that id, and finds none iff no row holds it. |
| `Records.Insert` | app/api/projects/route.ts:66 | Placing a project in a newest-first list keeps it newest first and adds exactly that row. |
| `Records.SortNewestFirst` | app/api/projects/route.ts:66 | `orderBy createdAt desc` gives a newest-first permutation of its input. |
| `Records.OwnedBy` | app/api/projects/route.ts:64 | `where userId` keeps exactly the rows of that owner. |
| `Records.PaymentsOf` | app/dashboard/page.tsx:15 | `include payments` attaches exactly the payments whose project is that row. |
| `Records.Attach` | app/dashboard/page.tsx:15 | Each listed project is paired with its payments, in order. |
| `Records.ProjectsNewestFirst` | app/dashboard/page.tsx:12-18 | The listing is newest first and a permutation of the owner's rows, or of every row without an owner. Each entry carries its own payments. |
| `Records.OwnedListIsExact` | app/api/projects/route.ts:63-67 | A project is in the owner's listing iff it is in the table and belongs to the owner. |
| `StripeWebhook.MarkPaid` | app/api/webhooks/stripe/route.ts:31-39 | Every payment with the session id becomes PAID with the event's intent id. All other payments are unchanged. |
| `StripeWebhook.MarkFailed` | app/api/webhooks/stripe/route.ts:52-59 | Every payment with the intent id becomes FAILED. All other payments are unchanged. |
| `StripeWebhook.SetStatus` | app/api/webhooks/stripe/route.ts:41-45 | The update fails iff no project has the id. Otherwise only that project's status changes. |
| `StripeWebhook.WithStatus` | app/api/webhooks/stripe/route.ts:41-45 | Only the rows with the id get the new status. |
| `StripeWebhook.Reconcile` | app/api/webhooks/stripe/route.ts:25-65 | Checkout: without metadata, the step fails and nothing changes. With metadata, the payments are marked PAID first; the step succeeds iff the project exists, and only then does it become IN_PROGRESS. A failed intent marks payments FAILED and leaves projects alone. Any other event changes nothing. |
| `StripeWebhook.HandleWebhook` | app/api/webhooks/stripe/route.ts:6-71 | Without a signature, or with an empty one: 400 "No signature", no change. With a failed verification: 400, no change. Otherwise the reconciliation; the reply is `{received: true}` iff it completed, else 500. |
| `StripeWebhook.MarkPaidIdempotent` | app/api/webhooks/stripe/route.ts:31-39 | Marking the same session PAID twice equals marking it once. |
| `StripeWebhook.MarkFailedIdempotent` | app/api/webhooks/stripe/route.ts:52-59 | Marking the same intent FAILED twice equals marking it once. |
| `StripeWebhook.WithStatusIdempotent` | app/api/webhooks/stripe/route.ts:41-45 | Setting a status twice equals setting it once, and the id stays present. |
| `StripeWebhook.ReconcileIdempotent` | app/api/webhooks/stripe/route.ts:23-65 | Delivering an event again leaves the tables and the outcome as one delivery does. |
| `StripeWebhook.HandleWebhookIdempotent` | app/api/webhooks/stripe/route.ts:6-71 | The same for the whole handler, reply included. |
| `StripeWebhook.MarkPaidFrame` | app/api/webhooks/stripe/route.ts:31-39 | A checkout never changes a payment's id, project, amount or session. Only rows with the session id change. |
| `StripeWebhook.MarkFailedOnlyFails` | app/api/webhooks/stripe/route.ts:52-59 | A failed intent changes nothing but the status, and only to FAILED on a row with that intent id. |
| `StripeWebhook.CheckoutTouchesOneProject` | app/api/webhooks/stripe/route.ts:41-45 | A changed project row is the one named in the metadata, now IN_PROGRESS. |
| `StripeWebhook.HandleWebhookKeepsConsistent` | app/api/webhooks/stripe/route.ts:23-65 | The handler keeps every key and foreign key. |
| `StripeWebhook.CheckoutPartialFailure` | app/api/webhooks/stripe/route.ts:31-45 | For a signed, verified checkout whose project is missing, the payments stay marked PAID, projects are unchanged, and the reply is 500. |
| `ProjectsRoute.NewUser` | app/api/projects/route.ts:23-28 | A created user has the caller's Clerk id, the placeholder email and role USER. |
| `ProjectsRoute.CreateProject` | app/api/projects/route.ts:6-45 | No caller, or an empty id: 401, no change. Rejected body: 500, no change. A user row is created only when none has the caller's Clerk id. Success appends one SUBMITTED project owned by the caller's row, holding the body and the client's estimatedCost; when success happens is stated exactly. |
| `ProjectsRoute.Owner` | app/api/projects/route.ts:18-29 | The caller's row carries the caller's Clerk id and is the existing row when there is one. |
| `ProjectsRoute.ListProjects` | app/api/projects/route.ts:47-74 | No caller, or an empty id: 401. No user row: 404. Otherwise exactly the caller's projects, newest first, each with its payments. |
| `ProjectsRoute.CreateProjectKeepsConsistent` | app/api/projects/route.ts:6-45 | POST keeps every key and foreign key. |
| `ProjectsRoute.CreatedProjectIsListed` | app/api/projects/route.ts:31-67 | A created project appears in the caller's next GET. |
| `ProjectsRoute.SecondNewCallerRejected` | app/api/projects/route.ts:18-43 | Once a row has the placeholder email, a new signed-in caller's POST answers 500 and writes nothing. |
| `PaymentIntentRoute.PendingRow` | app/api/create-payment-intent/route.ts:27-34 | The row is PENDING and holds amount/100. It carries the request's project and the intent's id, and no session id. |
| `PaymentIntentRoute.CreatePaymentIntent` | app/api/create-payment-intent/route.ts:6-42 | No caller, or an empty id: 401, no row. No intent: 500, no row. Otherwise one PENDING row is appended, iff its keys are free and the project exists, and the client secret is returned. |
| `PaymentIntentRoute.CreatePaymentIntentKeepsConsistent` | app/api/create-payment-intent/route.ts:27-34 | The insert keeps every key and foreign key. |
| `PaymentIntentRoute.PendingRowIgnoredByCheckout` | app/api/create-payment-intent/route.ts:27-34 | A completed checkout leaves the row as it was. A failed-intent event with its intent id marks it FAILED. |
| `PaymentPage.Charge` | app/payment/page.tsx:65 | "full" charges the cost. Any other option charges half. |
| `PaymentPage.Cents` | app/payment/page.tsx:72 | Cents divided by 100 give the dollars back. |
| `PaymentPage.RemainingBalance` | app/payment/page.tsx:195-199 | The remaining balance is shown iff the option is "deposit". |
| `PaymentPage.DisplayedIsCharged` | app/payment/page.tsx:116-117 | The amount shown and on the button is the amount charged. |
| `PaymentPage.DepositPlusRemainingIsFull` | app/payment/page.tsx:195-199 | Deposit plus remaining balance is the full amount. |
| `PaymentPage.ChargeInCents` | app/payment/page.tsx:65-72 | The request carries 100 cents per dollar of cost for "full" and 50 for a deposit. |
| `PaymentPage.StoredAmountIsCharge` | app/payment/page.tsx:72 | The stored row's amount equals the charge: the route's /100 undoes the page's ×100. |
| `PaymentPage.PaymentForm.constructor` | app/payment/page.tsx:27-30 | Nothing is loaded, the option is "full" and the page is loading. |
| `PaymentPage.PaymentForm.FetchProject` | app/payment/page.tsx:39-58 | A fetched project is stored, and loading ends either way. |
| `PaymentPage.PaymentForm.SelectOption` | app/payment/page.tsx:27 | The chosen option is stored. |
| `PaymentPage.PaymentForm.HandlePayment` | app/payment/page.tsx:60-93 | With no project: no request, no change. Otherwise a request for the charge in cents, and the button is enabled again. |
| `IntakeForm.NonBlank` | components/intake-form.tsx:58 | Keeps exactly the entries that are not blank, so none of the result is blank. |
| `IntakeForm.NonBlankAppend` | components/intake-form.tsx:58 | The filter distributes over concatenation, so order is kept. |
| `IntakeForm.NonBlankKeepsFilled` | components/intake-form.tsx:58 | A list with no blank entry passes unchanged. |
| `IntakeForm.NonBlankIdempotent` | components/intake-form.tsx:80 | Filtering twice is filtering once. |
| `IntakeForm.WithoutIndex` | components/intake-form.tsx:67 | The index filter gives the list without entry i. It is one shorter; entries before i stay in place and entries after it move down by one. An index past the end changes nothing. |
| `IntakeForm.KeepOtherPositions` | components/intake-form.tsx:67 | Filtering a suffix that starts at position pos drops exactly the entry at the index when the index falls in that suffix, and nothing otherwise. |
| `IntakeForm.RequirementList.constructor` | components/intake-form.tsx:22 | The list starts as one empty row, and the form value starts as `[""]`. |
| `IntakeForm.RequirementList.CanRemove` | components/intake-form.tsx:264-268 | The remove control is offered iff there is more than one row. |
| `IntakeForm.RequirementList.HandleRequirementChange` | components/intake-form.tsx:52-60 | Only row i changes, and the length is kept. The form value becomes the rows without blanks. |
| `IntakeForm.RequirementList.AddRequirement` | components/intake-form.tsx:62-64 | Exactly one empty row is appended. The form value stays in step with the rows. |
| `IntakeForm.RequirementList.RemoveRequirement` | components/intake-form.tsx:66-73 | Exactly row i goes. The form value becomes the rows without blanks. |
| `IntakeForm.RemovalNeverEmpties` | components/intake-form.tsx:264-268 | With the control shown, a removal leaves at least one row. |
| `IntakeForm.OnFormSubmit` | components/intake-form.tsx:75-84 | The requirements passed on are exactly `NonBlank` of the entered ones: blanks are dropped, and order and duplicates are kept. Every other field is unchanged. |
| `IntakeForm.SubmitAsWritten` | components/intake-form.tsx:75-84 | A submission goes through iff both parts were valid before filtering. |
| `IntakeForm.DefaultRowSubmitsNothing` | components/intake-form.tsx:46 | With the default single empty row, the form is accepted and submits zero requirements, which the schema forbids. |
| `IntakeForm.DefaultRowExample` | components/intake-form.tsx:30-49 | A concrete such form exists. |
| `IntakeForm.SubmitChecked` | components/intake-form.tsx:75-84 | Blanks are dropped first. A submission has 1..20 requirements, none blank, and the schema accepts it. |
| `IntakeForm.AcceptedRequirements` | lib/validations.ts:29-32 | An accepted form keeps its requirements and has 1..20 of them. |
| `IntakeForm.CheckedAgreesWithoutBlanks` | components/intake-form.tsx:75-84 | Without blank rows, the corrected submit equals the one as written. |
| `IntakeForm.CheckedRefusesDefaultRow` | components/intake-form.tsx:46 | The corrected submit refuses the default single empty row. |
| `Aggregates.Count` | app/dashboard/page.tsx:80-81 | A count never exceeds the length. |
| `Aggregates.SumPermutation` | app/dashboard/page.tsx:73-78 | A total does not depend on the listing order. |
| `Aggregates.CountPermutation` | app/dashboard/page.tsx:80-81 | Neither does a count. |
| `Aggregates.LinkedTo` | app/dashboard/page.tsx:73-78 | Keeps exactly the payments whose project is listed. |
| `Aggregates.PaidSumIgnoresUnpaid` | app/dashboard/page.tsx:75 | A payment that is not PAID adds nothing to the total, whatever its amount. |
| `Aggregates.SumSingleMatch` | app/dashboard/page.tsx:73-78 | With unique project ids, a payment is counted once if its project is listed, else not at all. |
| `Aggregates.ExchangeSums` | app/dashboard/page.tsx:73-78 | The per-project paid totals add up to the PAID amounts of the payments of the listed projects. |
| `Aggregates.TotalOfAttach` | app/dashboard/page.tsx:73-78 | The total over a listing is the sum of each project's paid payments. |
| `Aggregates.OwnedByKeepsUnique` | app/dashboard/page.tsx:14 | An owner's projects still have unique ids. |
| `Aggregates.LinkedToAll` | app/admin/page.tsx:14-22 | When every payment's project exists, all payments are linked. |
| `Aggregates.TotalOfListing` | app/dashboard/page.tsx:73-78 | `totalSpent` is the total of the PAID payments of the listed projects. |
| `Aggregates.AdminRevenueIsAllPaid` | app/admin/page.tsx:69-74 | In a consistent store, `totalRevenue` is the total of every PAID payment. |
| `Aggregates.PaidSumAfterCheckout` | app/api/webhooks/stripe/route.ts:31-39 | A checkout raises the PAID total by exactly the amounts it newly marks PAID. |
| `Aggregates.PaidSumAfterFailure` | app/api/webhooks/stripe/route.ts:52-59 | A failed intent lowers the PAID total by exactly the PAID amounts it marks FAILED. |
| `Aggregates.CountOfAttach` | app/dashboard/page.tsx:80-81 | A status count over a listing is the count over its projects. |
| `Aggregates.CountOfListing` | app/admin/page.tsx:76-77 | A status count over the listing is the count over the listed table rows. |
| `Aggregates.StatusCountsPartition` | app/admin/page.tsx:76-77 | Each project counts under exactly one status. |
| `Aggregates.FirstPaymentStatus` | app/admin/page.tsx:222-224 | The first payment's stored status, or the page's text when there is none. |
| `Dashboard.EmailIndex` | app/dashboard/page.tsx:22 | Finds the first row with the email, and none iff no row has it. |
| `Dashboard.Upsert` | app/dashboard/page.tsx:20-30 | An existing email row gets only the caller's Clerk id, unless another row holds it. Otherwise a row with that email and Clerk id is appended, if its keys are free. A failure leaves the table unchanged. |
| `Dashboard.UpsertFindsCaller` | app/dashboard/page.tsx:20-41 | After the upsert, the caller's Clerk id finds the upserted row. |
| `Dashboard.UpsertKeepsConsistent` | app/dashboard/page.tsx:20-30 | The upsert keeps every key and foreign key. |
| `Dashboard.UpsertIdempotent` | app/dashboard/page.tsx:20-30 | A second upsert with the same caller changes nothing. |
| `Dashboard.VisitTakesOverSharedRow` | app/dashboard/page.tsx:40 | A visit by one caller takes the shared placeholder row from another, whose GET (under its non-empty id) then answers 404. |
| `Dashboard.DashboardPage` | app/dashboard/page.tsx:32-81 | Redirect exactly when there is no caller or the id is empty. Error page exactly when the upsert fails. Otherwise the page is shown, with exactly the caller's projects newest first; the counts are the IN_PROGRESS and COMPLETED projects; `totalSpent` is the PAID amounts of their payments. |
| `Dashboard.ListingFigures` | app/dashboard/page.tsx:73-81 | The same figures, for any owner's listing. |
| `Dashboard.MakePaymentOffered` | app/dashboard/page.tsx:226 | "Make Payment" shows iff the project is SUBMITTED and none of its payments is PAID. |
| `Dashboard.CheckoutEndsOffer` | app/dashboard/page.tsx:226 | A checkout that matches one of the project's payments removes the offer. |
| `Dashboard.PendingRowKeepsOffer` | app/dashboard/page.tsx:226 | A new PENDING payment keeps the offer. |
| `Dashboard.FeaturesPreview` | app/dashboard/page.tsx:186-195 | The first two features, and "+(n−2) more" exactly when n > 2. |
| `Dashboard.PaymentStatusText` | app/dashboard/page.tsx:211-215 | The first payment's status, or "Pending". |
| `Admin.RequireAdmin` | app/admin/page.tsx:24-43 | Admits exactly the signed-in callers (non-empty id) with a user row, and returns that row. |
| `Admin.AnyUserAdmitted` | app/admin/page.tsx:36-42 | Every user, whatever their role, is admitted under their own non-empty Clerk id. An empty id is turned away by `!userId`. |
| `Admin.AdminPage` | app/admin/page.tsx:45-77 | Every project newest first; the completed and active counts; in a consistent store, revenue equal to every PAID payment. |
| `Admin.IdBadge` | app/admin/page.tsx:193 | "N/A" for an empty id. Otherwise a non-empty suffix of the id, eight characters long when the id has that many. |
| `Admin.StatusText` | app/admin/page.tsx:200 | The label has the stored status's length. |
| `Admin.StatusTextValues` | app/admin/page.tsx:200 | IN_PROGRESS reads "IN PROGRESS", and every other status reads as stored. |
| `Admin.PaymentStatusText` | app/admin/page.tsx:222-224 | The first payment's status, or "No Payment". |
| `Text.FirstIndexOf` | app/admin/page.tsx:200 | The position of the first occurrence, with none before it; the length exactly when there is none. |
| `Text.ReplaceFirstUnderscore` | app/admin/page.tsx:200 | Only the first "_" becomes a space, and the length is kept. |
| `Text.LastEight` | app/admin/page.tsx:193 | The last eight characters, or the whole string when it is shorter. |
| `StatusBadge.BadgeType` | components/ui/status-badge.tsx:15 | The type is "project" when omitted. |
| `StatusBadge.GetStatusConfig` | components/ui/status-badge.tsx:20-106 | An unknown payment status keeps its text. Any non-payment type uses the project table, where an unknown status has its first "_" replaced. Known statuses get a label different from the raw name. |
| `StatusBadge.Badge` | components/ui/status-badge.tsx:13-20 | Without a type, an unknown status is labelled with its first "_" replaced. |
| `StatusBadge.PaymentBadgeLabels` | components/ui/status-badge.tsx:21-50 | PAID, PENDING, FAILED and PARTIAL read Paid, Pending, Failed and Partial, each distinct. |
| `StatusBadge.ProjectBadgeLabels` | components/ui/status-badge.tsx:62-97 | DRAFT…CANCELLED read Draft…Cancelled, each distinct, whether the type is omitted or any value but "payment". |
| `StatusBadge.UntypedPaymentStatusShownVerbatim` | components/ui/status-badge.tsx:98-104 | A payment status on an untyped badge falls to the project default and is shown as stored, e.g. "PAID". |
| `Store.Database.constructor` | app/api/projects/route.ts:6 | The store starts empty and consistent. |
| `Store.Database.CreateProject` | app/api/projects/route.ts:6-45 | Rows are inserted in place. The reply and tables are those `ProjectsRoute.CreateProject` gives, and every key and foreign key is kept. |
| `Store.Database.CreatePaymentIntent` | app/api/create-payment-intent/route.ts:6-42 | The same for `PaymentIntentRoute.CreatePaymentIntent`. |
| `Store.Database.MarkSessionPaid` | app/api/webhooks/stripe/route.ts:31-39 | The loop's rewrite of matching rows yields exactly `MarkPaid` of the old table. |
| `Store.Database.MarkIntentFailed` | app/api/webhooks/stripe/route.ts:52-59 | The loop's rewrite yields exactly `MarkFailed` of the old table. |
| `Store.Database.SetProjectStatus` | app/api/webhooks/stripe/route.ts:41-45 | The single-row update succeeds iff the id exists. It then equals `WithStatus`; otherwise nothing changes. |
| `Store.Database.HandleWebhook` | app/api/webhooks/stripe/route.ts:6-71 | The reply and tables are those `StripeWebhook.HandleWebhook` gives, and every key and foreign key is kept. |
| `Store.Database.VisitDashboard` | app/dashboard/page.tsx:32-81 | The upsert is done in place. The page and user table are those `Dashboard.DashboardPage` gives, and every key and foreign key is kept. |

## Left out

- Rendering, styling and colour class names. Toasts, router navigation, `fetch`, `useEffect` and `form.watch` subscriptions, and loading spinners. These are UI plumbing.
- Clerk, Stripe and Prisma themselves:
  - The signed-in user is a parameter.
  - Signature verification is a parameter: the event, or None.
  - Intent creation is a parameter.
  - The database is three in-memory tables whose failed writes are key violations.
- The HMAC check and provider behaviour are not modelled.
- `projectFormSchema` is imported by app/api/projects/route.ts but defined in no file of this model. Its verdict is the `parsed` parameter of `ProjectsRoute.CreateProject`.
- `form.trigger` is asynchronous. Its outcome is the `triggerOk` parameter of `SubmitPage.Wizard.NextStep`.
- The default deadline and the date-string conversion in app/submit/page.tsx, and dates shown on the pages. These depend on the clock and the locale.
- IEEE double arithmetic:
  - Payment amounts and totals are exact reals, so rounding error in the sums is not modelled.
  - The estimator is proved exact instead of modelled with doubles.
  - Budgets are integers.
- JavaScript strings are UTF-16. Here a string is a sequence of characters; lengths in the schema checks count characters.
- The error-message texts of the schemas are not modelled. Issues carry the failing field only.
- The email rule is a simplified form of the schema library's email pattern.
- The PATCH and DELETE handlers of app/api/projects/[id]/route.ts, lib/auth.ts, app/intake/page.tsx, the update-status and delete-project components, the layout, home and thank-you pages, the seed and the setup script are not part of this model.
- The redirect after `handlePayment`: the page expects a checkout `url` that the payment-intent route does not return. Only the request it sends is modelled.
- Records.PaymentsOf, Aggregates.FirstPaymentStatus, Dashboard.PaymentStatusText, Admin.PaymentStatusText: the queries include a project's payments with no `orderBy` (app/dashboard/page.tsx:15, app/admin/page.tsx:16, app/api/projects/route.ts:65), so which payment comes first is the database's choice. The model takes table order, and "the first payment" means the first in table order.
- Records.SortNewestFirst: the order of projects with the same `createdAt` is left open by the query and by the contract; only the timestamps are ordered.
- Concurrency: two requests never interleave. The webhook's non-atomic failure is modelled as two sequential writes.
- Whether a stored `estimatedCost` matches the estimator: the server stores the client's value and does not re-derive it.
- `Store.Database.VisitDashboard` only performs the upsert in place; the listing it shows is computed by `Dashboard.DashboardPage`.

## Findings

| source | as written | input that shows it | evidently intended | confidence | as-written member | corrected member |
|---|---|---|---|---|---|---|
| components/intake-form.tsx:75-84 | The resolver validates the requirement rows before `onFormSubmit` drops the blank ones. The default single empty row passes `min(1)`, and the submission then carries no requirement. | All other fields valid and requirements `[""]` (the form as it first appears, `IntakeForm.ExampleIntake`). | Blank rows are dropped before validation, so a submission always has 1 to 20 non-blank requirements. | not executed | `IntakeForm.DefaultRowSubmitsNothing` | `IntakeForm.SubmitChecked` |
