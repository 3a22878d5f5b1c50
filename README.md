# crystal-fusion: a Dafny model of the order, stage-recording and access logic

crystal-fusion is a Next.js front end over a ledger contract, a file store and an e-mail service. Its own behaviour is a set of small decision procedures. This project models those procedures and proves what they promise:

- **The six-step order wizard** (`OrderForm`).
  - A `Wizard` class keeps `currentStep` in 1..6.
  - The form record is edited one key at a time, and an edit only reaches the panel of the key's own step.
  - The class invariant is that every step before the current one passes `validateStep`.
  - `handleSubmit` does nothing unless step 6 passes. When it does pass, every step passes and the form is handed to the ledger exactly once.
- **The legacy single-page order form** (`OrderPage`).
  - The attached-file list is capped at five, and removal works by index.
  - The tracking id and the tracking URL in the QR code round-trip.
- **The stage-recording admin panels** (`Shipment`, `Certificates`, `Dashboard`, `AdminRoles`).
  - Each is a class whose fields are the component's maps and flags.
  - Every ledger write, upload, e-mail, alert and refresh is an event appended to a ghost `trace`.
  - A pure `…Effects` function states what one handler run appends, given whether a wallet is connected and how the external calls came back. Lemmas about those functions state the guards: no wallet means no write, no file means no upload, one write per run, and through which contract method.
  - The loading flags are proved lowered on every way out.
- **List filters and totals** (`Shipment`, `Certificates`, `Dashboard`, `AdminOrders`, `CertificatesPage`, `Track`).
  - Each filter is characterised by membership and is an order-preserving subsequence of its input.
  - The certificate and analysis totals are `while` loops proved against recursive sums.
  - The tracking progress is a percentage in [0, 100].
- **Access decisions** (`AdminAccess`, `Middleware`). The client-side allow-list gate and the request guard are pure decisions.

Supporting modules:

- `Text` gives ASCII lower/upper case, `includes`, `startsWith`, `split`/`join` with their round trip, and decimal rendering of ids with its round trip.
- `Seqs` gives `filter`, the subsequence relation, the add-or-remove toggle, `slice(0, n)` and index removal.
- `Effects` holds the event trace.
- `Orders` holds the ledger's `Order` record from `lib/interfaces.ts`.

External results are method parameters: a transaction's hash or thrown message, an upload's URI, the random id suffix and the current time.

Where the code and its design notes disagree, the model follows the code:

- **Admin gate rendering.** `AdminAccess.Decide` renders the protected children for any loaded, signed-in user. This includes a user whose address is not on the allow-list. The redirect to "/" is only pushed by the effect. The intended behaviour, that no admin content is shown to a non-admin, is not what the component does (`RenderIgnoresEmail`).
- **Certificates page record shape.** The records the certificates page hands to its panel carry the pickup stage under the key `Cshipping`, as a `cfShippingHash` field, and have no `csShipping` entry (`CertificatesPage.PageOrder`).
- **Shipment search over the records it is given.**
  - The shipment panel's search reads `order.finalDelivery.finalDeliveryHash` as `Order` in `lib/interfaces.ts` declares it.
  - The shipments page (app/admin/shipments/page.tsx lines 7-19) builds flat records with a `finalDeliveryHash` field and no `finalDelivery` object.
  - So in the running page a non-empty query throws during render on the first record that matches neither the id nor the fingerprint. It does not hide that record (`Shipment.FilterPageRecords`).
- **Stage 4 is never recorded from the shipment panel.**
  - The stage-4 tracking input has no `onChange`, and its record button has no `onClick`.
  - So the stage-4 e-mail is always refused (`Shipment.Panel.SendEmailConfirmation`).
  - No button on the panel writes through `updatefinalDeliveryTracking` (`Shipment.FinalDeliveryUnreachable`).

## Model

| member | source | states |
|---|---|---|
| OrderForm.Set | app/components/OrderForm.tsx:125-127 | `updateFormData` gives the named key the new value and every other key keeps its old value |
| OrderForm.GetDeterminesForm | lib/interfaces.ts:46-81 | the keys cover the whole form record, so "every other key unchanged" leaves nothing else that could change |
| OrderForm.StepOf | app/components/OrderForm.tsx:446-1040 | each key's input is rendered only inside the panel of one step in 1..6; `orderId` and `creationTime` have no input |
| OrderForm.ValidateStep | app/components/OrderForm.tsx:147-181 | `validateStep` passes only steps in 1..6, and step 5 always passes |
| OrderForm.InitialPassesOnlyStep5 | app/components/OrderForm.tsx:147-181 | the initial form (lines 58-81) passes step 5 and no other step, so neither Next on step 1 nor submit gets anywhere until fields are filled |
| OrderForm.ValidateStepLocal | app/components/OrderForm.tsx:147-181 | a step's verdict depends only on that step's fields: seven personal fields for step 1, date and time for 2, materials and quantity for 3, carats, cut, colour and setting for 4, signature, date and terms for 6 |
| OrderForm.Step1Local | app/components/OrderForm.tsx:149-158 | step 1 reads only fullName, email, phone, address, city, postalCode and country |
| OrderForm.Step2Local | app/components/OrderForm.tsx:159-160 | step 2 reads only pickupDate and pickupTime |
| OrderForm.Step3Local | app/components/OrderForm.tsx:161-162 | step 3 reads only sourceMaterial and quantity |
| OrderForm.Step4Local | app/components/OrderForm.tsx:163-169 | step 4 reads only caratSizes, cutPreference, colorPreference and settingPreference |
| OrderForm.Step6Local | app/components/OrderForm.tsx:172-177 | step 6 reads only signatureName, signatureDate and termsAccepted |
| OrderForm.SetKeepsOtherSteps | app/components/OrderForm.tsx:125-127 | editing a key of one step leaves the verdict of every other step unchanged |
| OrderForm.SetCarat | app/components/OrderForm.tsx:137-145 | `handleCaratQuantityChange` sets one carat entry, keeps the other carat entries and every other key |
| OrderForm.PositiveCaratCounts | app/components/OrderForm.tsx:163-165 | a positive quantity for any size meets step 4's "some quantity > 0" requirement |
| OrderForm.Stamped | app/components/OrderForm.tsx:200-202 | the submitted form has orderId "DMD-" + suffix and the given creation time, and every step field unchanged |
| OrderForm.StampedKeepsVerdicts | app/components/OrderForm.tsx:195-207 | assigning the id and time in place changes no step's verdict |
| OrderForm.Wizard.constructor | app/components/OrderForm.tsx:120-123 | the wizard starts on step 1 with the initial form, not submitting, with no result |
| OrderForm.Wizard.NextStep | app/components/OrderForm.tsx:183-187 | the step goes up by exactly one iff the current step validates and is below 6, and every earlier step still validates |
| OrderForm.Wizard.PrevStep | app/components/OrderForm.tsx:189-193 | the step goes down by one only above 1, without validating |
| OrderForm.Wizard.UpdateFormData | app/components/OrderForm.tsx:125-127 | an input on the current step's panel updates its key; the steps already passed stay passed |
| OrderForm.Wizard.HandleArrayToggle | app/components/OrderForm.tsx:129-135 | the list key becomes the toggle of its old list: all copies removed if present, appended if absent |
| OrderForm.Wizard.HandleCaratQuantityChange | app/components/OrderForm.tsx:137-145 | the form becomes `SetCarat` of the old form |
| OrderForm.Wizard.HandleSubmit | app/components/OrderForm.tsx:195-211 | nothing changes and nothing is submitted unless step 6 validates; otherwise the stamped form is submitted once, `orderResult` is the ledger's receipt or null, and when submitted from step 6 every step validates on it |
| Seqs.Toggle | app/components/OrderForm.tsx:129-135 | after a toggle the value is present iff it was absent, and every other value's membership is unchanged |
| Seqs.ToggleTwiceAbsent | app/components/OrderForm.tsx:129-135 | toggling an absent value twice restores the list exactly |
| Seqs.ToggleTwicePresent | app/components/ShipmentManagement.tsx:150-156 | toggling a present value twice keeps the same members, with every copy of the value moved to the end |
| OrderPage.WithText | app/order/page.tsx:55-57 | `handleInputChange` sets the named text field and keeps the other fields and the files |
| OrderPage.AddFiles | app/order/page.tsx:59-67 | a null selection keeps the list; any selection leaves at most 5 files; a list within the cap stays within it |
| OrderPage.AddFilesShape | app/order/page.tsx:59-67 | the file list stays at most 5; the old files keep their positions; the kept new files follow them in order |
| OrderPage.FullListUnchanged | app/order/page.tsx:64 | uploading to a list that already holds 5 files changes nothing |
| OrderPage.TrackingId | app/order/page.tsx:93-95 | a generated tracking id starts with "TRKVRF-" followed by the suffix |
| OrderPage.QrCodeDataRoundTrip | app/order/page.tsx:105-108 | the QR URL is the tracking base plus the id, and parsing it gives the id back |
| OrderPage.GeneratedCodeParses | app/order/page.tsx:93-108 | the QR code of a generated id parses back to "TRKVRF-" + suffix |
| OrderPage.Page.constructor | app/order/page.tsx:42-52 | every text field blank, no files, not submitting, no result |
| OrderPage.Page.HandleInputChange | app/order/page.tsx:55-57 | the form becomes the old form with the field set |
| OrderPage.Page.HandleFileUpload | app/order/page.tsx:59-67 | a null selection changes nothing; otherwise files = first 5 of (old ++ first 5 picked), and the cap is kept |
| OrderPage.Page.RemoveFile | app/order/page.tsx:69-74 | the file at the index is removed with the rest in order; an out-of-range index changes nothing |
| Seqs.DropIndexSlices | app/order/page.tsx:69-74 | index filtering deletes exactly position i when in range and nothing otherwise |
| OrderPage.Page.HandleSubmit | app/order/page.tsx:97-113 | the result holds the generated id, its tracking URL and the time, and submitting ends false |
| OrderPage.Page.ResetForm | app/order/page.tsx:144-154 | every field is blank, the files are empty and the result is cleared |
| Shipment.StagesTable | app/components/ShipmentManagement.tsx:82-131 | the table lists stage-1..stage-4 in order, with distinct ids, all requiring a ledger record |
| Shipment.MethodFor | app/components/ShipmentManagement.tsx:172-179 | stage-1, stage-2 and stage-3 each map to their own method, and exactly the other ids map to `updatefinalDeliveryTracking` |
| Shipment.DispatchInjectiveOnStages | app/components/ShipmentManagement.tsx:172-179 | the four stages write through four different methods |
| Shipment.RecordEffects | app/components/ShipmentManagement.tsx:158-198 | every run ends in an alert or a refresh; with a wallet the first event is the write through the stage's method with the id and the stored tracking |
| Shipment.RecordWrites | app/components/ShipmentManagement.tsx:158-198 | without a wallet no write; with one, exactly one write through the stage's method with (orderId, `fedexTrackings[stageId]`, undefined when missing) |
| Shipment.RecordRefreshes | app/components/ShipmentManagement.tsx:187-193 | the page refreshes iff there is a wallet and the transaction succeeded |
| Shipment.RecordButtonTarget | app/components/ShipmentManagement.tsx:536-721 | exactly the panels of stages 1 to 3 have a record button with a handler, each passing its own stage id, never stage-4 |
| Shipment.FinalDeliveryUnreachable | app/components/ShipmentManagement.tsx:536-721 | no record button on the panel writes through `updatefinalDeliveryTracking`; the stage-4 button has no handler |
| Shipment.HasTrackingInput | app/components/ShipmentManagement.tsx:499-693 | a panel with a bound tracking input is one of stages 1 to 3, and its record button records that same stage |
| Shipment.HasEmailButton | app/components/ShipmentManagement.tsx:517-713 | the e-mail button exists only on the stage-1 and stage-4 panels |
| Shipment.EmailEffects | app/components/ShipmentManagement.tsx:517-531 | one or two events ending in an alert; two exactly when an e-mail is sent first |
| Shipment.EmailSentIff | app/components/ShipmentManagement.tsx:517-531 | an e-mail is sent iff a non-empty tracking is stored for the stage, and it carries the stage's title, description and tracking |
| Shipment.MatchesSearch | app/components/ShipmentManagement.tsx:230-235 | an empty query matches every order, and an order's own decimal id matches it |
| Shipment.FilteredOrders | app/components/ShipmentManagement.tsx:229-240 | an order is kept iff its id string equals the query or the lower-cased query occurs in its lower-cased qrHash or finalDeliveryHash; the result is a subsequence |
| Shipment.EmptyQueryKeepsAll | app/components/ShipmentManagement.tsx:229-240 | an empty query keeps every order in order |
| Shipment.IdQueryKeepsOrder | app/components/ShipmentManagement.tsx:231 | querying an order's decimal id keeps that order |
| Shipment.FilterPageRecords | app/components/ShipmentManagement.tsx:229-240 | over the flat records the shipments page builds (app/admin/shipments/page.tsx lines 7-19), the filter completes iff every record passes the id or fingerprint test, and then keeps them all; otherwise reading `finalDelivery` of the record throws |
| Shipment.PageRecordSearch | app/admin/shipments/page.tsx:7-22 | an empty query renders every record; a query that no record's id or fingerprint matches throws as soon as there is a record |
| Shipment.Panel.constructor | app/components/ShipmentManagement.tsx:137-148 | empty query, no expanded rows, empty loading and tracking maps |
| Shipment.Panel.SetSearchQuery | app/components/ShipmentManagement.tsx:337 | the search box sets the query and nothing else |
| Shipment.Panel.Visible | app/components/ShipmentManagement.tsx:229-240 | the rows shown are the orders matching the current query |
| Shipment.Panel.TypeTracking | app/components/ShipmentManagement.tsx:499-626 | the three bound inputs store their text under their stage id, shared by all orders; stage-4 is never stored |
| Shipment.Panel.ToggleOrderExpansion | app/components/ShipmentManagement.tsx:150-156 | the expanded list becomes the toggle of the old list |
| Shipment.Panel.UpdateRecordHash | app/components/ShipmentManagement.tsx:158-198 | the stage's loading flag ends false on every path, including the no-wallet return, and the trace grows by `RecordEffects` |
| Shipment.Panel.RecordDisabled | app/components/ShipmentManagement.tsx:542 | a record button is disabled only while its stage has a loading entry set; `UpdateRecordHash` always leaves it enabled |
| Shipment.Panel.SendEmailConfirmation | app/components/ShipmentManagement.tsx:683-713 | the trace grows by `EmailEffects`; on the stage-4 panel it is always the "paste tracking first" alert |
| Certificates.FileKey | app/components/Certificates.tsx:170 | the key decodes: its first dash follows the decimal order id, and the step id follows that dash |
| Certificates.FileKeyInjective | app/components/Certificates.tsx:170 | different (order, step) pairs never share a `${orderId}-${stepId}` key |
| Certificates.DashAfterDigits | app/components/Certificates.tsx:170 | in a key, the first dash is the one right after the decimal order id |
| Certificates.PickedFileIsolated | app/components/Certificates.tsx:527-533 | picking a file for one order and step sets that pair's file and leaves every other pair's file unchanged |
| Certificates.StoreEffects | app/components/Certificates.tsx:164-207 | a run begins with an alert iff the wallet or the file is missing; it ends in an alert or refresh iff it was refused or both the upload and the write succeeded |
| Certificates.StoreWrites | app/components/Certificates.tsx:164-207 | without a wallet and a picked file, nothing is uploaded or written; with both, the upload comes first; the only write is `updateCertificateHASH(orderId, uri)`, made iff the upload succeeded, whatever the step |
| Certificates.FailuresAreSilent | app/components/Certificates.tsx:202-204 | a failed upload or write produces no alert and no refresh |
| Certificates.FilteredOrders | app/components/Certificates.tsx:158-162 | an empty query keeps all orders; otherwise exactly the orders whose id string equals the query, as a subsequence |
| Certificates.QuerySelectsOneId | app/components/Certificates.tsx:160 | a non-empty query selects a single order id |
| Certificates.Panel.constructor | app/components/Certificates.tsx:85-96 | loading starts as {step-2: false, step-3: false}, with no files and no expanded rows |
| Certificates.Panel.PickFile | app/components/Certificates.tsx:527-574 | a step panel's file input stores the first picked file, or null, under that order-step key |
| Certificates.Panel.ToggleOrderExpansion | app/components/Certificates.tsx:150-156 | the expanded list becomes the toggle of the old list |
| Certificates.Panel.StoreCertificate | app/components/Certificates.tsx:164-207 | the file is read from the key the inputs write; the step's flag ends false on every path; the trace grows by `StoreEffects` |
| CertificatesPage.ProjectAll | app/admin/certificates/page.tsx:9-39 | same length and order; id, hash, stages and timestamps copied; pickup stage under `Cshipping` |
| CertificatesPage.TotalCertificatesUploaded | app/admin/certificates/page.tsx:41-44 | the loop's total is the sum of the certificate-hash counts |
| CertificatesPage.TotalAnalysisUploaded | app/admin/certificates/page.tsx:46-49 | the loop's total is the number of orders with an analysis hash, at most the number of orders |
| CertificatesPage.AnalysisAtMostOrders | app/admin/certificates/page.tsx:46-49 | the analysis count never exceeds the number of orders |
| CertificatesPage.AnalysisCountIsFilterLength | app/admin/certificates/page.tsx:46-49 | the analysis count equals the length of the list filtered on a truthy analysis hash |
| CertificatesPage.CertificateSumAppend | app/admin/certificates/page.tsx:41-44 | the certificate total adds up over consecutive runs of orders |
| CertificatesPage.TotalsOfNothing | app/admin/certificates/page.tsx:41-49 | both totals are 0 with no orders, and an order without hashes adds nothing |
| Dashboard.MatchesSearch | app/components/AdminDashboard.tsx:124-131 | an empty query matches every order |
| Dashboard.FilteredOrders | app/components/AdminDashboard.tsx:123-134 | an order is kept iff the lower-cased query occurs in its qrHash, csShippingHash or cfShippingHash and the status filter is "all"; the result is a subsequence |
| Dashboard.EmptyQueryKeepsAll | app/components/AdminDashboard.tsx:123-134 | with status "all", an empty query keeps every order; "Showing X of Y" (line 465) has X ≤ Y |
| Dashboard.FindIndex | app/components/AdminDashboard.tsx:140 | the first index holding the id, or -1 exactly when none does |
| Dashboard.CancelEffects | app/components/AdminDashboard.tsx:136-165 | a run is silent iff there is a wallet and preparing the call threw; otherwise it ends in an alert or a refresh |
| Dashboard.CancelWrites | app/components/AdminDashboard.tsx:136-165 | no write without a wallet or when preparing throws; otherwise one `removeOrders` write with the order's index in the unfiltered list |
| Dashboard.Table.constructor | app/components/AdminDashboard.tsx:115-118 | empty query, status filter "all", nothing being deleted |
| Dashboard.Table.SetSearchQuery | app/components/AdminDashboard.tsx:321 | the query changes and the status filter stays "all" |
| Dashboard.Table.Visible | app/components/AdminDashboard.tsx:116-134 | with no control that changes the status filter, the visible rows depend on the query alone |
| Dashboard.Table.RowDisabled | app/components/AdminDashboard.tsx:409 | a row's cancel button is disabled only when its order is the one being deleted, so at most one id is disabled |
| Dashboard.Table.HandleCancelOrder | app/components/AdminDashboard.tsx:136-165 | without a wallet `deletingOrder` stays set to the id, so its row (line 409) stays disabled; otherwise it is cleared; the trace grows by `CancelEffects` |
| AdminOrders.MatchesSearch | app/admin/page.tsx:211-214 | an empty query matches every order |
| AdminOrders.MatchesStatus | app/admin/page.tsx:215-216 | any filter other than "all" admits only orders of that status, and each order passes its own status |
| AdminOrders.FilteredOrders | app/admin/page.tsx:210-218 | an order is kept iff the lower-cased query occurs in customer, product or trackingId, and the status filter is "all" or equals its status; the result is a subsequence |
| AdminOrders.DateFilterIgnored | app/admin/page.tsx:92 | the date filter has no effect on the result |
| AdminOrders.FilterSameOn | app/admin/page.tsx:210-218 | two tests that agree on every order give the same filtered list |
| AdminOrders.ShowingAtMostAll | app/admin/page.tsx:524 | "Showing X of Y" has X ≤ Y |
| AdminOrders.EmptyQuery | app/admin/page.tsx:210-218 | an empty query with "all" lists every order; with a status it lists exactly that status's orders in order |
| AdminOrders.StatusLabel | app/admin/page.tsx:205 | the badge label is the status with its first character upper-cased and the rest unchanged |
| AdminOrders.LabelMatchesStatus | app/admin/page.tsx:205 | the label equals the status up to case |
| AdminOrders.StatusLabels | app/admin/page.tsx:205 | the five statuses get the labels Pending, Processing, Shipped, Delivered and Cancelled |
| AdminRoles.ActionsDistinct | app/components/AdminRoles.tsx:256-388 | the three buttons call three different methods; Grant and Revoke pass the same `adminAddress` |
| AdminRoles.CallEffects | app/components/AdminRoles.tsx:47-88 | every run ends in an alert or a refresh; with a wallet the first event is the write with the single address argument |
| AdminRoles.CallWrites | app/components/AdminRoles.tsx:47-88 | without a wallet no write; with one, exactly one write with the single address argument; refresh iff the write succeeded |
| AdminRoles.Disabled | app/components/AdminRoles.tsx:265 | a button is disabled while loading or without a wallet, and an enabled button has a non-empty address |
| AdminRoles.Page.constructor | app/components/AdminRoles.tsx:41-43 | both addresses empty and not loading |
| AdminRoles.Page.SetAdminAddress | app/components/AdminRoles.tsx:251-252 | either admin-address input sets the one shared address |
| AdminRoles.Page.SetOwnerAddress | app/components/AdminRoles.tsx:375-376 | the owner input sets the owner address |
| AdminRoles.Page.ButtonDisabled | app/components/AdminRoles.tsx:265-389 | while a call is in flight every button is disabled; an enabled button has a wallet and a non-empty address of its own |
| AdminRoles.Page.CallContractFunction | app/components/AdminRoles.tsx:47-88 | without a wallet `isLoading` is untouched; past the check it ends false on success and on failure; the trace grows by `CallEffects` |
| AdminRoles.Page.Click | app/components/AdminRoles.tsx:256-389 | an enabled button (not loading, wallet present, address non-empty) writes through its method with its address and ends not loading |
| Track.CompletedCountBounds | app/components/TrackInner.tsx:177-179 | the completed count is at most the step count, equal to it iff all steps are completed, and 0 iff none is |
| Track.CalculateProgress | app/components/TrackInner.tsx:175-181 | 0 with no data; NaN for an empty step list; otherwise a value in [0, 100] with value × steps = 100 × completed |
| Track.ProgressExtremes | app/components/TrackInner.tsx:175-181 | progress is 100 iff every step is completed and 0 iff none is |
| Track.MockProgress | app/components/TrackInner.tsx:66-130 | the mock record (3 of 6 completed) shows 50 percent |
| Track.StepColor | app/components/TrackInner.tsx:164-173 | one of three colours: green iff completed, blue iff in progress |
| Track.StatusLabel | app/components/TrackInner.tsx:379-383 | "In Progress" iff in progress, "Pending" iff neither completed nor in progress |
| Track.ColorMatchesLabel | app/components/TrackInner.tsx:164-173 | green goes with "Completed", blue with "In Progress", and slate with "Pending" (lines 379-383); "Completed" only for "completed" |
| Track.ShowBlockchainButton | app/components/TrackInner.tsx:391-392 | the explorer button shows only on a completed, green step |
| Track.MockButtons | app/components/TrackInner.tsx:391-392 | on the mock record (lines 66-130) the button shows on exactly the first three steps |
| Track.Tracker.constructor | app/components/TrackInner.tsx:51-56 | empty query and input, no data, not loading, scanner closed |
| Track.Tracker.SetSearchQuery | app/components/TrackInner.tsx:194 | the search box sets the query |
| Track.Tracker.HandleSearch | app/components/TrackInner.tsx:132-140 | a blank query (by `trim`) changes nothing; any other query shows the mock record and stops loading |
| Track.Tracker.HandleScanResult | app/components/TrackInner.tsx:60-63 | the scan sets `inputValue` and closes the scanner; `searchQuery` is not in what it may change |
| Track.Tracker.ToggleScanner | app/components/TrackInner.tsx:235 | the scanner button flips the scanner |
| Track.Tracker.Progress | app/components/TrackInner.tsx:175-176 | with no data the progress is 0 |
| AdminAccess.AllowList | app/components/AdminAccess.tsx:17 | unset gives []; set gives a non-empty list of comma-free pieces |
| AdminAccess.AllowListRoundTrip | app/components/AdminAccess.tsx:17 | joining the list with "," gives the variable back, so no trimming or dropping happens |
| AdminAccess.EmptyVariableAdmitsNoEmail | app/components/AdminAccess.tsx:17-29 | an empty variable lists "", the value a missing e-mail is checked as |
| AdminAccess.Decide | app/components/AdminAccess.tsx:19-36 | not loaded: no redirect, no render; not signed in: "/sign-in" with no render; signed in: "/" iff the e-mail (missing = "") is not listed; render iff loaded and signed in |
| AdminAccess.RenderIgnoresEmail | app/components/AdminAccess.tsx:29-36 | rendering does not depend on the e-mail: a signed-in user who is not on the list is redirected and also rendered |
| AdminAccess.AdminAdmitted | app/components/AdminAccess.tsx:26-36 | a listed, signed-in user gets no redirect and sees the page |
| Middleware.Authenticated | middleware.ts:19 | only a present user id counts, and an empty one does not |
| Middleware.IsProtected | middleware.ts:13-17 | a path is protected iff it starts with "/admin" or "/order" |
| Middleware.Guard | middleware.ts:13-21 | redirect to "/sign-in" iff unauthenticated and the path starts with a protected prefix; otherwise pass |
| Middleware.ProtectedByPrefix | middleware.ts:13-17 | "/admin", "/order", the paths below them, "/administrator" and "/orders" are all protected |
| Middleware.TrackNeverRedirected | middleware.ts:13-21 | a "/track" path is never redirected, whatever the authentication |
| Middleware.AuthenticatedPasses | middleware.ts:19-49 | an authenticated user always passes; the admin e-mail check is commented out |
| Text.ContainsAt | app/components/AdminDashboard.tsx:125 | `includes` holds iff the substring occurs at some offset |
| Text.NatToStringInjective | app/components/ShipmentManagement.tsx:231 | different ids render as different decimal strings |
| Text.JoinSplit | app/components/AdminAccess.tsx:17 | joining the pieces of `split(sep)` with sep gives the string back |
| Effects.WritesAppend | app/components/ShipmentManagement.tsx:180-186 | the ledger writes of two runs in a row are the writes of each, in order |

## Left out

- Ledger, file store, e-mail and navigation services. They appear only as trace events with their arguments. Their results are parameters: a transaction hash or a thrown message, an upload URI, the receipt `addRecords` returns or its null.
- `addRecords` in app/server.ts: the keccak256 fingerprint, the signer and the contract call. Only its result matters here.
- `sendEmail`: it is imported from app/server.ts but not defined in that file. It is not part of this model beyond its call and arguments.
- Asynchrony. Every handler runs as one sequential call chain. The state a handler reads is the state current when it is called. The wallet account is a field the handlers only read.
- `Math.random` suffixes and `new Date()`. They are parameters of `OrderForm.Wizard.HandleSubmit` and `OrderPage.Page.HandleSubmit`. The calendar `disabled` predicates are not modelled.
- The 2000 ms and 1500 ms simulated delays.
- `Math.round` on the progress figure.
- Floating-point division. `Track.CalculateProgress` works over the reals.
- The `amount` column of app/admin/page.tsx is a real.
- `Number(bigint)` precision. Order ids are natural numbers, and timestamps are copied unchanged.
- Unicode case mapping. `Text.Lower` and `Text.UpperChar` map ASCII letters only.
- `trim` covers the ASCII white-space characters, no-break space and BOM, not every Unicode space separator.
- `OrderForm.Wizard.HandleSubmit`: if `addRecords` threw, the `catch` would leave `isSubmitting` true. `addRecords` catches its own errors and returns null, so this path cannot occur. The model has no thrown outcome for it.
- `OrderPage.Page.HandleSubmit` does no validation. The browser enforces the inputs' `required` attributes before the submit handler runs, and the model does not include that.
- `Dashboard.Table.HandleCancelOrder`: `sendTx` is fire-and-forget. The model records the write when it is handed over. Its later result is not observed, as in the source. An id that is not in the list gives index -1, which is passed through as it is.
- Shipment.FilteredOrders: models the search over the declared `Order` type. The records the shipments page actually passes lack `finalDelivery`, so there the third test throws instead of returning false. `Shipment.FilterPageRecords` models that separately, and `Shipment.Panel.Visible` uses the declared type.
- `Shipment.Panel.UpdateRecordHash` records the attempted write even when it throws. The source prepares and sends the call before the failure can be observed.
- Rendering, styling, icons, the QR canvas, print, share and clipboard.
- The drag-and-drop handlers of app/order/page.tsx. They only forward to `handleFileUpload`.
- The unused `stageFilter` and `showQrModal` state.
- app/page.tsx, app/admin/shipments/page.tsx, AdminAnalysis.tsx, Navbar.tsx, QRScanner.tsx and the other layout files. They are contract reads, PDF or canvas work, or wiring, and are not part of this model.
- The Next.js matcher globs of middleware.ts and the Clerk and thirdweb hook internals.
