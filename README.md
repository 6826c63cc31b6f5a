# HokTok admin panel: the data rules, in Dafny

This project models the data rules of the HokTok admin panel, a React application used to
run hotel bookings and a shop. Nearly all of its code is network and UI plumbing. Inside the
components sit a few rules that can be stated and proved:

- **The daily cash summary.** The opening balance is carried forward from the previous day,
  total = opening + income, and closing = total − expenses. One record per day is saved.
- **The daily statement.** This covers per-booking paid and due totals, removing unpaid
  invoices that are already listed, the daily income summed from the form, and the payment
  update for one booking.
- **The order table.** This covers which status changes need a confirmation, when the
  selector and the delete button are locked, the case-insensitive search, the status tabs,
  item counts, status messages and the per-order in-flight flags.
- **The image lists and size lists.** These belong to the product form and the story and
  slider templates: the 1-3 image limit, JPEG/PNG under 2 MiB, progress entries, and
  submit-time checks.
- **Small derived figures.** These are the expense form's total cost and cash in hand, the
  web bookings' page slice, and the dashboard's counts and sums over the orders that are
  not removed.

**Modelling conventions.**

- Amounts are `int` and dates are whole day numbers.
- Each network answer is a parameter, a datatype with one constructor per shape of answer.
  A request that throws is its own constructor.
- A component's state is a class. Each handler is a method with a `modifies` clause, and
  its `ensures` give the new value of every field.
- The computations are functions, with lemmas beside them.

**Modules.**

| module | file | models |
|---|---|---|
| `JsSemantics` | js_semantics.dfy | shared JavaScript semantics: `x \|\| 0`, `reduce` sums, `filter`, `toLowerCase`, `includes`, `slice` and `splice(i, 1)` |
| `ImageUpload` | image_upload.dfy | the upload logic that Product.js, StoryTemp.js and SliderTemp.js repeat line for line |
| `DailySummary` | daily_summary.dfy | component/DailySummary.js |
| `DailyStatement` | daily_statement.dfy | component/DailyStatement.js |
| `OrderManagement` | order.dfy | component/Order/Order.js |
| `Product` | product.dfy | component/Product/Product.js |
| `ExpenseInfo` | expense_info.dfy | component/Expense/ExpenseInfo.js |
| `WebBooking` | web_booking.dfy | component/WebBooking.js |
| `DashboardHome` | dashboard_home.dfy | component/DashboardHome.js |
| `StoryTemp` | story_temp.dfy | component/DynamicTemp/StoryTemp.js |
| `SliderTemp` | slider_temp.dfy | component/DynamicTemp/SliderTemp.js |

**Changing the date keeps the entered expenses.** The date effect at
component/DailySummary.js:39-42 only fetches the opening balance again, and nothing resets
`dailyExpenses`. `DailySummary.DailySummaryPanel.SelectDate` keeps them.

## Model

| member | source | states |
|---|---|---|
| DailySummary.OpeningIsPreviousClosing | component/DailySummary.js:15-21 | loading day d against the store gives the stored closing balance of day d − 1, or 0 when there is none |
| DailySummary.OpeningFallback | component/DailySummary.js:15-29 | any answer other than a 200 with a balance (non-200, missing balance, a thrown request) gives 0; a 200 with a balance gives that balance |
| DailySummary.DayRecord | component/DailySummary.js:32-54 | the record saved for a day is reconciled (total = opening + income, closing = total − expenses, with no clamping) and carries the day's date |
| DailySummary.SaveDaysKeepsEarlier | component/DailySummary.js:44-58 | saving days from d on leaves the stored records of earlier days unchanged |
| DailySummary.SavedDaysChain | component/DailySummary.js:15-58 | after saving consecutive days in order, each saved day is reconciled and holds its entered figures; each day opens with the previous day's closing balance; the first opens with the stored balance before it, or 0 |
| DailySummary.ResavingEarlierDayLeavesStaleSuccessor | component/DailySummary.js:15-58 | a concrete run: re-saving day 1 after day 2 was saved breaks the chain, so the chain holds only for saves in order |
| DailySummary.SummaryStore.Upsert | component/DailySummary.js:56 | the store creates or replaces the record of the record's date and changes no other day |
| DailySummary.DailySummaryPanel.constructor | component/DailySummary.js:8-12 | every figure starts at 0, and the totals already follow from the income |
| DailySummary.DailySummaryPanel.Recompute | component/DailySummary.js:32-37 | after the effect, total = opening + income and closing = total − expenses; the inputs are unchanged |
| DailySummary.DailySummaryPanel.FetchOpeningBalance | component/DailySummary.js:15-29 | the opening balance is the one the answer gives, the totals are recomputed, and nothing else changes |
| DailySummary.DailySummaryPanel.SelectDate | component/DailySummary.js:39-42 | a new date fetches the opening balance again; income and the entered expenses are kept |
| DailySummary.DailySummaryPanel.SetDailyIncome | component/DailySummary.js:32-37 | a new income from the parent is taken and the totals recomputed |
| DailySummary.DailySummaryPanel.SetDailyExpenses | component/DailySummary.js:105-110 | the expense input sets `value \|\| 0`, so clearing it gives 0; the totals are recomputed |
| DailySummary.DailySummaryPanel.Save | component/DailySummary.js:44-69 | the payload is exactly the six current figures and is reconciled; the store takes it iff the server answers 2xx; the save is reported as a success iff the status is 200 or 201, so a reported success is always stored; the panel's figures never change |
| DailyStatement.CumulativeTotals | component/DailyStatement.js:34-53 | paid + due = bill in both branches; paid is the booking's totalPaid (or 0) without an entry list, or the sum of the entries' totalPaid with one |
| DailyStatement.NewEntryMovesDueToPaid | component/DailyStatement.js:43-52 | one more invoice entry moves its payment from due to paid |
| DailyStatement.FindEntry | component/DailyStatement.js:86-88 | a found entry is in the list and is dated on the day |
| DailyStatement.FindEntryFirst | component/DailyStatement.js:86-88 | the entry found is the first one of the day, and none is found iff no entry has that day |
| DailyStatement.NoEntryNoAmount | component/DailyStatement.js:86-93 | a booking with no entry on the day contributes a daily amount of 0 |
| DailyStatement.DedupUnpaid | component/DailyStatement.js:69-74 | the deduplicated unpaid list is no longer than the unpaid list |
| DailyStatement.IdsOfMembership | component/DailyStatement.js:69-71 | an id is in the id list iff some regular invoice has it |
| DailyStatement.DedupKeeps | component/DailyStatement.js:69-74 | an unpaid invoice is kept iff it was unpaid and no regular invoice shares its id |
| DailyStatement.DedupKeepsOrder | component/DailyStatement.js:72-74 | the kept unpaid invoices are a subsequence of the unpaid list, in its order |
| DailyStatement.DedupWithoutOverlap | component/DailyStatement.js:72-74 | with no shared ids, nothing is removed |
| DailyStatement.Lookup | component/DailyStatement.js:116 | `values[id]` is missing iff no field of the form has that id |
| DailyStatement.LookupAssign | component/DailyStatement.js:90-93 | after assigning an id, looking it up gives the new value and every other id's value is unchanged |
| DailyStatement.IncomeAssign | component/DailyStatement.js:367-377 | setting one booking's amount changes the summed income by new − old |
| DailyStatement.InitialValuesKeys | component/DailyStatement.js:84-95 | the initial form has a value for an id iff some listed booking has that id |
| DailyStatement.InitialIncome | component/DailyStatement.js:84-104 | with distinct booking ids, the initial income is the sum over the bookings of the amount of their entry on the day (0 if there is none) |
| DailyStatement.BuildInitialValues | component/DailyStatement.js:84-95 | the `forEach` loop builds the same form as the specification function `InitialValues` |
| DailyStatement.SectionSum | component/DailyStatement.js:158-190 | in every section total, paid + due = bill |
| DailyStatement.SectionSumColumns | component/DailyStatement.js:158-190 | each column of a section total (bill, paid, daily, due) is the sum of that column over the section's bookings |
| DailyStatement.IncomeIsSectionDailySum | component/DailyStatement.js:84-104 | with distinct ids, the income right after a fetch equals the daily columns of the two sections added together |
| DailyStatement.FindBooking | component/DailyStatement.js:117-124 | none is found iff no booking has the id; a found booking has the id and is in the list |
| DailyStatement.PrepareUpdate | component/DailyStatement.js:113-135 | an id in neither list gives "Booking not found" and no request; otherwise newTotalPaid = totalPaid + the form amount and due = bill − newTotalPaid |
| DailyStatement.FetchOutcome | component/DailyStatement.js:55-111 | only a 200 answer changes the state; it then shows an income equal to the sum of the form, and no unpaid invoice shares an id with a regular one |
| DailyStatement.StatementView.constructor | component/DailyStatement.js:16-23 | empty lists, zero income, no submitting flags |
| DailyStatement.StatementView.FetchBookingsByDate | component/DailyStatement.js:55-111 | the new state is the fetch outcome, or the old state; income = sum of the form is preserved |
| DailyStatement.StatementView.SelectDate | component/DailyStatement.js:148-155 | the day is set and the bookings of that day are fetched |
| DailyStatement.StatementView.OnDailyAmountChange | component/DailyStatement.js:367-377 | the amount is set and the income moves by new − old, so income = sum of the form is preserved |
| DailyStatement.StatementView.HandleUpdate | component/DailyStatement.js:113-146 | sends exactly the prepared update; a 200 refetches; the booking's `submitting` flag ends cleared and the other flags are untouched |
| OrderManagement.Decide | component/Order/Order.js:116-133 | a change to processing confirms the deduction; processing → cancelled confirms the restoration; everything else is applied directly (each case as an iff) |
| OrderManagement.RequestSent | component/Order/Order.js:116-133 | a request is sent iff the change needs no dialog or the dialog was confirmed |
| OrderManagement.ProcessingAlwaysConfirmed | component/Order/Order.js:116-123 | a change to processing is never sent unconfirmed |
| OrderManagement.LockRules | component/Order/Order.js:334-355 | a delivered order is locked for both delete and status change; a pending or shipped order with nothing in flight is locked for neither |
| OrderManagement.FilteredOrders | component/Order/Order.js:363-374 | the search never adds orders |
| OrderManagement.SearchKeeps | component/Order/Order.js:363-374 | an order is kept iff it is non-null and one of orderNo, customer name, phone or status contains the lowered query; the result keeps the list's order |
| OrderManagement.FieldMatchesAt | component/Order/Order.js:366-372 | a field matches iff it exists and the lowered query occurs at some position of the lowered field |
| OrderManagement.SearchIgnoresCase | component/Order/Order.js:366-371 | two queries that lower to the same text keep the same orders |
| OrderManagement.EmptySearchKeeps | component/Order/Order.js:363-374 | an empty query keeps an order iff it has at least one of the four fields |
| OrderManagement.TabOrders | component/Order/Order.js:468-470 | a tab never has more orders than the filtered list |
| OrderManagement.TabContents | component/Order/Order.js:468-470 | a tab holds exactly the filtered orders of its status, so two tabs share none |
| OrderManagement.ItemCount | component/Order/Order.js:284 | a count is shown iff the order has an item list |
| OrderManagement.ItemCountAppend | component/Order/Order.js:284 | one more item adds its quantity, or nothing when the quantity is missing |
| OrderManagement.ItemCountNonNegative | component/Order/Order.js:284 | with non-negative quantities the count is non-negative |
| OrderManagement.FailureMessage | component/Order/Order.js:153-160 | "Insufficient stock" in the server message maps to the fixed text; otherwise a non-empty server message is shown; otherwise the generic text; never empty |
| OrderManagement.OrderBoard.constructor | component/Order/Order.js:59-68 | no orders, an empty search and no flags |
| OrderManagement.OrderBoard.FetchOrders | component/Order/Order.js:90-109 | the list becomes the answer's orders; the search and flags are unchanged |
| OrderManagement.OrderBoard.SetSearchText | component/Order/Order.js:407 | the raw text is stored; nothing else changes |
| OrderManagement.OrderBoard.StartStatusChange | component/Order/Order.js:135-137 | the order's flag is raised, which locks its selector; no other flag changes |
| OrderManagement.OrderBoard.FinishStatusChange | component/Order/Order.js:138-163 | the success or failure message is chosen from the outcome; a success refetches the orders; the order's flag is cleared whatever the outcome; other flags are untouched |
| OrderManagement.OrderBoard.ChangeStatus | component/Order/Order.js:116-164 | a change is sent iff `RequestSent` allows it; a sent change shows the success message for the new status and refetches, or shows the failure message; the flag ends cleared; an unsent change alters no flag and shows nothing |
| Product.InStockIffSomeSize | component/Product/Product.js:306-316 | with non-negative stocks, the product is shown in stock iff some size has positive stock |
| Product.Subcategories | component/Product/Product.js:53-65 | a known category has a non-empty list; any other category gives [] |
| Product.MergeFields | component/Product/Product.js:234-237 | `setFieldsValue` with every field replaces the form; with no field it leaves the form as it is |
| Product.MergeFieldsSettles | component/Product/Product.js:234-237 | merging the same product again changes nothing more, and a merge of every field hides what the form held before |
| Product.EditLeavesStaleSubCategory | component/Product/Product.js:229-241 | with no reset between two edits, a second product without `subCategory` shows the first product's subcategory |
| Product.SubcategoriesDisjoint | component/Product/Product.js:53-65 | two categories share no subcategory |
| Product.ValidateSubmit | component/Product/Product.js:183-202 | accepted iff 1-3 images, at least one size, and a non-empty product id when editing (`!currentProduct?._id`); each failure gives its own message, checked in source order |
| Product.SentRequestsAreValid | component/Product/Product.js:189-214 | every product sent has 1-3 images and at least one size, and an update names its product by a non-empty id |
| Product.ProductEditor.constructor | component/Product/Product.js:33-67 | an empty form in create mode with no images |
| Product.ProductEditor.SetFields | component/Product/Product.js:393-530 | typing into the inputs sets the fields other than the two Selects; nothing else changes |
| Product.ProductEditor.SetSubCategory | component/Product/Product.js:424-436 | the subcategory Select sets or clears the chosen subcategory; nothing else changes |
| Product.ProductEditor.SetCurrentSize | component/Product/Product.js:536-595 | a size input sets the size being entered; nothing else changes |
| Product.ProductEditor.AddSize | component/Product/Product.js:148-169 | a complete size (stock 0 allowed) is appended and the inputs reset; an incomplete one changes nothing; total stock grows by the added size's stock |
| Product.ProductEditor.RemoveSize | component/Product/Product.js:171-175 | exactly the element at the index leaves the list, and total stock drops by its stock |
| Product.ProductEditor.HandleCategoryChange | component/Product/Product.js:85-88 | the form takes the category, the choices become its list, and the chosen subcategory is cleared; after a switch no subcategory of the previous category is offered |
| Product.ProductEditor.StartCreate | component/Product/Product.js:362-369 | create mode with no product id, reset form fields, no sizes and no images |
| Product.ProductEditor.HandleEdit | component/Product/Product.js:229-241 | edit mode with the product's id, images and sizes; the product is merged into the form, so a field it does not carry (its subcategory, its discount price) keeps the form's previous value; the choices are those of the product's category, or none when it carries none |
| Product.ProductEditor.UploadImage | component/Product/Product.js:493-507 | an upload is attempted iff the control is offered, not disabled, and the file passes `beforeUpload`; a success appends the URL at the end; the progress entry is removed; at most 3 images |
| Product.ProductEditor.HandleSubmit | component/Product/Product.js:183-227 | a failed check sends nothing; otherwise it sends a create, or an update of a non-empty id, carrying the form's fields with the images and sizes attached; a save that does not throw resets the fields and clears the images and sizes |
| ImageUpload.BeforeUpload | component/Product/Product.js:134-146 | accepts iff the file is JPEG or PNG and strictly under 2 MiB; a wrong type and a large file each get their message (the same in StoryTemp.js:91-103 and SliderTemp.js:91-103) |
| ImageUpload.ImageUploader.constructor | component/Product/Product.js:38-40 | no images, no progress entries, not uploading |
| ImageUpload.ImageUploader.StartUpload | component/Product/Product.js:90-96 | marks uploading and creates the index's progress entry at 0; the images are unchanged |
| ImageUpload.ImageUploader.FinishUpload | component/Product/Product.js:97-131 | a success appends its URL at the end and returns it; a failure appends nothing and returns ""; either way uploading stops and the progress entry is deleted |
| ImageUpload.ImageUploader.RemoveImage | component/Product/Product.js:177-181 | exactly the image at the index leaves the list |
| ImageUpload.ImageUploader.Load | component/Product/Product.js:229-233 | an edited record's images replace the list |
| ImageUpload.ImageUploader.Clear | component/Product/Product.js:216-219 | the list is emptied after a save |
| ImageUpload.TemplateUpload | component/DynamicTemp/StoryTemp.js:314-332 | an upload runs iff the control is offered, enabled, and the file passes; it is reported as a success iff the host answered with a non-empty URL; a host success appends its URL at the end and anything else appends nothing; the progress entry is removed and uploading stops; at most 3 images |
| ExpenseInfo.Recomputed | component/Expense/ExpenseInfo.js:83-91 | the derived fields satisfy totalCost = flower + delivery + additional and cashInHand = grandTotal − totalCost; no other field changes |
| ExpenseInfo.RecomputedIdempotent | component/Expense/ExpenseInfo.js:159-167 | recomputing twice gives the same values, and a consistent form is left as it is |
| ExpenseInfo.SubmitPayload | component/Expense/ExpenseInfo.js:106-116 | the body has recomputed totals that override the form, and `invoiceId` from the looked-up invoice; the other fields, `createdBy` and `createdDate` included, are the form's |
| ExpenseInfo.PayloadOfConsistentForm | component/Expense/ExpenseInfo.js:109-116 | a consistent form is sent unchanged apart from `invoiceId` |
| ExpenseInfo.InitialValues | component/Expense/ExpenseInfo.js:94-105 | the empty form is consistent, created by the logged-in user, and dated at the time the component first rendered |
| ExpenseInfo.EditsKeepStamp | component/Expense/ExpenseInfo.js:145-168 | no series of field changes alters the creator or the creation date |
| ExpenseInfo.NewExpenseStampedAtMount | component/Expense/ExpenseInfo.js:94-116 | a new expense is sent with the first render's time as its `createdDate` and the logged-in user as its creator, whatever edits came first |
| ExpenseInfo.CostEditShiftsTotals | component/Expense/ExpenseInfo.js:145-168 | editing a cost moves the total cost by the change and the cash in hand by its opposite |
| ExpenseInfo.ExpenseForm.constructor | component/Expense/ExpenseInfo.js:31-40 | an empty, closed form in create mode |
| ExpenseInfo.ExpenseForm.HandleFieldChange | component/Expense/ExpenseInfo.js:145-168 | the edited field takes its value; a found invoice sets the grand total and the invoice id; the totals are recomputed from the latest values; the creator and creation date are kept |
| ExpenseInfo.ExpenseForm.OpenCreate | component/Expense/ExpenseInfo.js:347-353 | an empty open form in create mode |
| ExpenseInfo.ExpenseForm.HandleEdit | component/Expense/ExpenseInfo.js:171-187 | the record's values are loaded with `invoiceId` set to its id, in edit mode under its key |
| ExpenseInfo.ExpenseForm.Submit | component/Expense/ExpenseInfo.js:106-143 | the body is the recomputed payload and carries the form's creation date; it is a PUT to the key iff editing; a 200 resets and closes the form; any other outcome changes nothing |
| ExpenseInfo.SearchByCreator | component/Expense/ExpenseInfo.js:209-216 | the search never adds expenses |
| ExpenseInfo.SearchKeeps | component/Expense/ExpenseInfo.js:211-213 | an expense is kept iff its lowered createdBy contains the lowered query at some position; order is kept |
| ExpenseInfo.EmptySearchKeepsAll | component/Expense/ExpenseInfo.js:211-213 | an empty query keeps every expense |
| ExpenseInfo.ExpenseList.constructor | component/Expense/ExpenseInfo.js:34-38 | no expenses, page 1 of size 10 |
| ExpenseInfo.ExpenseList.FetchExpense | component/Expense/ExpenseInfo.js:43-59 | a 200 answer replaces both lists; anything else changes nothing |
| ExpenseInfo.ExpenseList.HandleSearch | component/Expense/ExpenseInfo.js:209-216 | the shown list is the search over all expenses, and the page goes back to 1 keeping its size |
| WebBooking.PageContents | component/WebBooking.js:69-72 | a page holds at most pageSize bookings, exactly the ones from offset (current − 1)·pageSize on, in order |
| WebBooking.PagesArePrefix | component/WebBooking.js:69-72 | pages 1..k together are the first k·pageSize bookings, so none is skipped or repeated |
| WebBooking.PageCount | component/WebBooking.js:293-299 | the page count covers the list, and no page is left empty |
| WebBooking.AllPagesShowEverything | component/WebBooking.js:69-72 | paging through every page shows the whole filtered list in order |
| WebBooking.WebBookingView.constructor | component/WebBooking.js:24-31 | empty lists, an empty search, page 1 of size 10 |
| WebBooking.WebBookingView.FetchWebBookingInfo | component/WebBooking.js:33-45 | a 200 answer replaces both lists; anything else changes nothing |
| WebBooking.WebBookingView.OnPaginationChange | component/WebBooking.js:297-299 | both the page and the page size are taken; nothing else changes |
| WebBooking.WebBookingView.HandleSearch | component/WebBooking.js:51-66 | the lowered query is stored; the filter then throws, so the shown list and the pagination stay as they were |
| DashboardHome.Visible | component/DashboardHome.js:65-67 | filtering out removed orders never adds orders |
| DashboardHome.FetchKeepsVisibleOrders | component/DashboardHome.js:58-77 | after a 200, an order is shown iff it is in the answer and its status id is not 255, in the answer's order; a failed fetch shows nothing |
| DashboardHome.NoRemovedOrderShown | component/DashboardHome.js:58-77 | no fetch, whatever its outcome, puts an order with status id 255 on the dashboard |
| DashboardHome.CountsBounded | component/DashboardHome.js:107-117 | completed and today's counts are at most the total count |
| DashboardHome.CompletedAreShownCompleted | component/DashboardHome.js:115-117 | the completed orders counted are exactly the shown orders with status "completed" |
| DashboardHome.TotalSalesSplitsByDay | component/DashboardHome.js:119-129 | total sales = today's sales + the sales of the other days |
| DashboardHome.TodaysSalesAtMostTotal | component/DashboardHome.js:119-129 | with non-negative amounts, 0 ≤ today's sales ≤ total sales |
| DashboardHome.SalesExcludeRemoved | component/DashboardHome.js:65-67 | shown sales = the answer's sales − the sales of its removed orders |
| DashboardHome.StoreVisibility | component/DashboardHome.js:78-102 | a store admin with a store id sees exactly the stores with that id; anyone else sees every store; a non-array answer gives []; a failure keeps the list |
| StoryTemp.OnFinish | component/DynamicTemp/StoryTemp.js:112-134 | rejected with the count message iff the images are not 1-3; otherwise a PUT for the edited story or a POST of the payload |
| StoryTemp.ResavedPayloadIsStable | component/DynamicTemp/StoryTemp.js:119-125 | the payload never carries an empty additional description, and a story saved from a payload and sent again sends the same payload |
| StoryTemp.SentStoriesHaveOneToThreeImages | component/DynamicTemp/StoryTemp.js:114-117 | every story sent has 1-3 images |
| StoryTemp.EditAndSaveRoundTrip | component/DynamicTemp/StoryTemp.js:112-158 | opening a story and saving it unchanged puts back its id, fields and images |
| StoryTemp.StoryEditor.constructor | component/DynamicTemp/StoryTemp.js:28-36 | an empty closed form with no images |
| StoryTemp.StoryEditor.OpenCreate | component/DynamicTemp/StoryTemp.js:242-247 | nothing edited, an empty form, no images, dialog open |
| StoryTemp.StoryEditor.HandleEdit | component/DynamicTemp/StoryTemp.js:148-158 | the story's fields and images are loaded and it becomes the edited one |
| StoryTemp.StoryEditor.OpenView | component/DynamicTemp/StoryTemp.js:219-222 | the story becomes the current one and the form is left as it was |
| StoryTemp.StoryEditor.SetFields | component/DynamicTemp/StoryTemp.js:265-292 | typing sets the fields; nothing else changes |
| StoryTemp.StoryEditor.Upload | component/DynamicTemp/StoryTemp.js:314-332 | the templates' upload rules applied to this form's images: a host success appends its URL, anything else appends nothing, the progress entry is removed |
| StoryTemp.StoryEditor.RemoveImage | component/DynamicTemp/StoryTemp.js:105-109 | exactly the image at the index leaves the list, and the others keep their order |
| StoryTemp.StoryEditor.Submit | component/DynamicTemp/StoryTemp.js:112-145 | sends `OnFinish` of the current form; an accepted save resets the form and images and closes the dialog; otherwise nothing changes |
| SliderTemp.OnFinish | component/DynamicTemp/SliderTemp.js:112-133 | rejected with the count message iff the images are not 1-3; otherwise a PUT for the edited slider or a POST of the payload |
| SliderTemp.SentSlidesHaveOneToThreeImages | component/DynamicTemp/SliderTemp.js:114-117 | every slider sent has 1-3 images |
| SliderTemp.EditAndSaveRoundTrip | component/DynamicTemp/SliderTemp.js:112-156 | opening a slider and saving it unchanged puts back exactly its id, fields and images |
| SliderTemp.SliderEditor.constructor | component/DynamicTemp/SliderTemp.js:28-36 | an empty closed form with no images |
| SliderTemp.SliderEditor.OpenCreate | component/DynamicTemp/SliderTemp.js:240-245 | nothing edited, an empty form, no images, dialog open |
| SliderTemp.SliderEditor.HandleEdit | component/DynamicTemp/SliderTemp.js:147-156 | the slider's fields and images are loaded and it becomes the edited one |
| SliderTemp.SliderEditor.OpenView | component/DynamicTemp/SliderTemp.js:217-220 | the slider becomes the current one and the form is left as it was |
| SliderTemp.SliderEditor.SetFields | component/DynamicTemp/SliderTemp.js:263-284 | typing sets the fields; nothing else changes |
| SliderTemp.SliderEditor.Upload | component/DynamicTemp/SliderTemp.js:306-324 | the templates' upload rules applied to this form's images: a host success appends its URL, anything else appends nothing, the progress entry is removed |
| SliderTemp.SliderEditor.RemoveImage | component/DynamicTemp/SliderTemp.js:105-109 | exactly the image at the index leaves the list, and the others keep their order |
| SliderTemp.SliderEditor.Submit | component/DynamicTemp/SliderTemp.js:112-144 | sends `OnFinish` of the current form; an accepted save resets the form and images and closes the dialog; otherwise nothing changes |

## Left out

- Network calls: the backend requests and the image host's `fetch` are not modelled. Their answers are parameters of the methods that receive them.
- Rendering, tables, modals, drawers, skeletons, and the toast messages.
- Formik, antd Form internals and the Yup schemas. Form fields are modelled as plain values, and the required-field rules of `form.validateFields()` (Product.js:185) are not modelled.
- `localStorage` and the session: the login id, role and store id are parameters. app/login/page.js and app/dashboard/page.js are not part of this model.
- component/AgentInformation.js is not part of this model: its only logic is assembling user payloads.
- Floating point: amounts are integers. `Number()` parsing of inputs and `toFixed` formatting are not modelled.
- The `NaN` that ExpenseInfo.js:66-80 produces when the invoice lookup answers with a 2xx other than 200 is not modelled. In that case `fetchGrandTotal` returns `undefined`.
- The clock: the formatted time of the expense form's first render (`dayjs()` at ExpenseInfo.js:103) is a parameter of `ExpenseInfo.ExpenseForm`.
- `fetchProducts` and the Total Products card of the dashboard (DashboardHome.js:47-56, 108) are not modelled. The card only shows the length of the fetched list.
- Dates: dayjs formatting, parsing and time zones are replaced by day numbers. The 30-day sales window at component/DashboardHome.js:131-139 compares formatted strings and is not modelled.
- Async ordering: rapid saves, stale state read by a handler after an await, and concurrent operators are not modelled. Each handler is one atomic step.
- Deleting records is not modelled: `handleDelete` in Product.js, StoryTemp.js, SliderTemp.js and ExpenseInfo.js, and `handleDeleteOrder` in Order.js. Only the rule that disables deletion of a delivered order is kept.
- The order edit drawer (`handleSubmit`, Order.js:201) and the order details view are not modelled.
- The story and slider lists (`fetchStories`, `fetchSliders`), image previews and the upload percentages reported by `onUploadProgress` are not modelled. The progress entry is only created at 0 and deleted.
- Inventory deduction and restoration on a status change happen on the server and are not modelled.
- OrderManagement.SearchKeeps: case folding is ASCII-only (`LowerChar` folds A-Z). JavaScript's `toLowerCase` also folds other letters and can change a string's length, so non-ASCII letters here compare case-sensitively.
- OrderManagement.SearchIgnoresCase: queries that differ only in the case of non-ASCII letters are not shown to keep the same orders, because case folding is ASCII-only.
- ExpenseInfo.SearchKeeps: case folding is ASCII-only, so a creator name and a query that differ in the case of a non-ASCII letter do not match, although `toLowerCase` would make them match.
- WebBooking.WebBookingView.HandleSearch: the stored query is lowered with the ASCII-only case folding.
- WebBooking.WebBookingView.HandleSearch: the filter at component/WebBooking.js:54 reads `bookings`, a name the component does not define. The handler therefore throws after storing the query, and the page reset at :65 is never reached. The model does not reset the page, and it does not model a working search filter.
- DailySummary.DailySummaryPanel.Save: requires that the recompute effect has run since the last change (`Valid()`). In the component the effect always runs before the save button can be used.
- DailyStatement.InitialIncome: requires distinct booking ids, and so does DailyStatement.IncomeIsSectionDailySum. With a repeated id, the form holds one value per id, and the income counts each id once and not each row.
- Product.ProductEditor.UploadImage: Product.js:499-506 reports every finished upload to the widget as a success, even one that appended nothing. The model states which URL was appended and does not model the widget's report.
- ExpenseInfo.ExpenseForm.HandleFieldChange: there is no grand-total edit, because the grand-total input is disabled (ExpenseInfo.js:292) and has no change handler. The invoice-number branch of the handler is modelled as written, although its input is also disabled (ExpenseInfo.js:288).
