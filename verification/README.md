# DiscoverTours in Dafny

A model of the logic of the DiscoverTours tour-booking site. The site has two halves:

- **The server** is an Express application over a Prisma database. It has routes for tours, bookings, destinations, settings and login, plus three seed scripts.
- **The client** is a React application: the public tour grid, the cruises page, the information pages, the checkout, the chat assistant and the shared image component, plus the admin dashboard and its editors.

Each core source file becomes one Dafny module, in the form the source takes:

- **Database tables** are classes. Each holds the table's rows as a sequence and states which keys are unique in `Valid()`. Row order is explicit, so `findMany` order is part of the model.
- **Route handlers** that write are methods with `modifies`. Handlers that only read are functions.
- **React components** are classes whose fields are the component's state. Each event handler is a method.
- **Async handlers** are split in two at the `await`:
  - `Begin…` sets the busy flag and returns the request that would be sent.
  - `…Settled` takes the outcome of the call as a parameter and finishes the handler.
- **Pure rules** are functions with lemmas:
  - the tag parser and formatter, and the JSON tag encoding;
  - the category filters and the settings fold;
  - the list builders of the editors;
  - the login check and the title mapping.
- **The seed scripts** are methods whose `for` loops carry invariants. They are proved against the "insert when the key is absent" fold of `Tables`.

Helper modules:

| module | what it holds |
|---|---|
| `Options` | `Option` |
| `Http` | a response: a body, or a status and an error text |
| `Seqs` | filter, map, subsequence |
| `JsStrings` | `trim`, `split`/`join`, `includes`, `parseInt`, `parseFloat`, `String(n)` as JavaScript defines them |
| `Tables` | keyed rows and insert-if-absent |
| `TagsJson` | the JSON text of a list of strings, in the grammar of RFC 8259 sections 5 (arrays) and 7 (strings) |

Modelling choices:

- Money, prices and ratings are integers. The seed ratings are kept in tenths, so 4.9 becomes 49.
- Dates are opaque strings.
- Identifiers the store generates (uuids, `createdAt`) are parameters.
- Network results are parameters, as are the answers of `window.confirm` and the recommender's reply.

## Model

Predicates and functions without a contract of their own are the definitions the rows below are stated over. Examples are the tag text (`TourEditor.FormatTags`), the JSON text (`TagsJson.Encode`, `TagsJson.Decode`), the category filters (`Cruises.IsCruise`, `Cruises.CruiseTours`) and what a screen shows (`BookingList.ShowsReceiptLink`, `TourGrid.TourGridState.Shown`). Each is pinned down by the lemmas and methods that name it.

| member | source | states |
|---|---|---|
| ToursRoute.StoredTags | server/src/routes/tours.ts:55 | the stored text decodes back to the body's tags, or to `[]` when they are absent |
| ToursRoute.Present | server/src/routes/tours.ts:12-15 | a row presents iff its tags text decodes; the presented tour keeps the id and carries the decoded tags |
| ToursRoute.PresentAll | server/src/routes/tours.ts:12-15 | the list presents every row in order, and fails iff some row's tags do not decode |
| ToursRoute.PresentNewRow | server/src/routes/tours.ts:47-62 | a created row presents with exactly the body's fields and its tags, or `[]` |
| ToursRoute.PresentUpdatedRow | server/src/routes/tours.ts:74-90 | an updated row presents with the body's fields and the old id, rating and reviews |
| ToursRoute.TourTable.constructor | server/src/routes/tours.ts:5 | the tour table holds the given rows, with unique ids |
| ToursRoute.TourTable.List | server/src/routes/tours.ts:8-20 | GET / returns every row, count and order kept, tags decoded; it fails with 500 iff a stored tags text does not parse |
| ToursRoute.TourTable.Get | server/src/routes/tours.ts:23-40 | 404 iff no tour has the id; with unique ids, success iff the row with the id presents, and then the answer is that presented row |
| ToursRoute.TourTable.Create | server/src/routes/tours.ts:43-67 | appends one row built from the body with tags JSON-encoded; a clashing id leaves the table unchanged and answers 500 |
| ToursRoute.TourTable.Update | server/src/routes/tours.ts:70-94 | rewrites the seven body fields of that tour only and answers the tour with the body's fields, the old rating and reviews, and the body's tags or `[]`; an unknown id answers 500 and changes nothing |
| ToursRoute.TourTable.Delete | server/src/routes/tours.ts:97-106 | removes exactly the rows with that id; an unknown id answers 500 and changes nothing |
| ToursRoute.CreatedTourListed | server/src/routes/tours.ts:47-62 | after a create, the list still presents and ends with the created tour |
| TagsJson.DecodeEncode | server/src/routes/tours.ts:14 | decoding the JSON text of any list of strings gives the list back |
| BookingsRoute.ReceiptImage | server/src/routes/bookings.ts:14 | a path exists iff a file was uploaded, and it is `/uploads/` followed by the file name |
| BookingsRoute.NewBooking | server/src/routes/bookings.ts:13-28 | a row exists iff `guests` parses as an integer and `totalPrice` as a number; the row is PENDING and holds the parsed values |
| BookingsRoute.SetStatusOnlyStatus | server/src/routes/bookings.ts:57-61 | a status update changes no field but `status`, and only on the targeted booking; the ids are kept |
| BookingsRoute.SetStatus | server/src/routes/bookings.ts:57-61 | the booking with that id takes the status with every other field kept; every other booking is unchanged |
| BookingsRoute.InsertByDate | server/src/routes/bookings.ts:46 | inserting into a newest-first list keeps it newest first and adds exactly that booking |
| BookingsRoute.SortNewestFirst | server/src/routes/bookings.ts:46 | the result is ordered by `createdAt`, newest first, and is a permutation of the input |
| BookingsRoute.BookingTable.List | server/src/routes/bookings.ts:38-52 | GET / returns every booking with its tour title, newest first, as a permutation of the table |
| BookingsRoute.BookingTable.Create | server/src/routes/bookings.ts:10-35 | appends the new PENDING booking iff the numbers parse, the tour exists and the id is fresh; otherwise 500 and no change |
| BookingsRoute.BookingTable.UpdateStatus | server/src/routes/bookings.ts:55-66 | sets the status of that booking only, with no check on the transition, and answers the stored row, which is the old booking with the new status; an unknown id answers 500 |
| BookingsRoute.BookingTable.constructor | server/src/routes/bookings.ts:5 | the booking table holds the given rows, with unique ids |
| Checkout.StoredBookingMatchesRequest | components/Checkout.tsx:41-50 | the booking the server stores for the checkout's request is PENDING and keeps the guests and total sent |
| Checkout.CheckoutState.constructor | components/Checkout.tsx:12-19 | starts at step 1 with 2 guests, empty text fields, no receipt, no file in the file input and not processing |
| Checkout.CheckoutState.TotalPrice | components/Checkout.tsx:29 | the total is the tour price times the guests |
| Checkout.CheckoutState.HandleNext | components/Checkout.tsx:31-127 | moves to step 2 iff the four required fields are filled, and never beyond; no field but the step changes |
| Checkout.CheckoutState.GoBack | components/Checkout.tsx:95-203 | returns to step 1 and keeps the typed fields, the guests and the stored receipt; the step-2 file input is removed, so it holds no file |
| Checkout.CheckoutState.DecrementGuests | components/Checkout.tsx:118 | one guest fewer, never below one; the total drops by one tour price; every other field is unchanged |
| Checkout.CheckoutState.IncrementGuests | components/Checkout.tsx:120 | exactly one guest more, with no upper bound; every other field is unchanged |
| Checkout.CheckoutState.SetText | components/Checkout.tsx:102-127 | on the step-1 form, sets only the named text field |
| Checkout.CheckoutState.SetReceipt | components/Checkout.tsx:171-206 | on the step-2 form, stores the chosen file as the receipt and records whether the input holds a file; nothing else changes; submit is enabled iff a file is chosen and no payment runs |
| Checkout.CheckoutState.BeginPayment | components/Checkout.tsx:35-206 | a request is sent iff submit is enabled and the `required` file input holds a file; after Go Back the button can be enabled by the kept receipt while the new input is empty, and then nothing is sent; a request carries the typed name, email, phone and date, the guests, the tour id, the total and the receipt; processing is set and nothing else changes |
| Checkout.CheckoutState.PaymentSettled | components/Checkout.tsx:51-62 | clears processing either way, keeps every other field, and yields the details of the request sent, without a total, iff the call succeeded |
| BookingList.Actions | components/admin/BookingList.tsx:89-104 | an action is offered iff it is CONFIRMED or CANCELLED and differs from the current status; at least one is offered |
| BookingList.ActionsPerStatus | components/admin/BookingList.tsx:89-104 | PENDING offers both actions, CONFIRMED only Cancel, CANCELLED only Confirm |
| BookingList.Badge | components/admin/BookingList.tsx:80-83 | emerald iff CONFIRMED, red iff CANCELLED, amber otherwise |
| BookingList.ReceiptLinkIffUploaded | components/admin/BookingList.tsx:62-77 | for a created booking, the receipt link shows iff a file was uploaded |
| BookingList.ApplyPatches | components/admin/BookingList.tsx:91-99 | after a series of the screen's status patches, only statuses change, a booking no patch names is unchanged, and the last patch sets its booking's status |
| BookingList.NeverBackToPending | components/admin/BookingList.tsx:91-99 | patches from this screen never make a booking PENDING that was not PENDING before |
| BookingList.BookingListState.FetchSettled | components/admin/BookingList.tsx:12-21 | loading ends either way; the list is replaced only on success |
| BookingList.BookingListState.constructor | components/admin/BookingList.tsx:5-6 | an empty list, loading |
| BookingList.BookingListState.ClickAction | components/admin/BookingList.tsx:91-99 | a click sends the row's id with a CONFIRMED or CANCELLED status |
| BookingList.BookingListState.UpdateSettled | components/admin/BookingList.tsx:23-30 | a refetch follows iff the patch succeeded |
| TourEditor.ParseTags | components/admin/TourEditor.tsx:34 | every parsed tag is non-empty, has no comma and no surrounding whitespace |
| TourEditor.FormatParse | components/admin/TourEditor.tsx:18-34 | parsing the joined text of well-formed tags gives the tags back |
| TourEditor.ParseStable | components/admin/TourEditor.tsx:18-34 | formatting a parse and parsing again changes nothing |
| TourEditor.NoTagsIffSeparators | components/admin/TourEditor.tsx:34 | the text parses to no tags iff it holds only commas and whitespace |
| TourEditor.SetField | components/admin/TourEditor.tsx:23-26 | only the named field changes |
| TourEditor.PriceText | components/admin/TourEditor.tsx:14 | a zero price gives `''`; any other price reads back as itself |
| TourEditor.InitialForm | components/admin/TourEditor.tsx:11-19 | every field is `''` for a new tour; for an edit, the tour's fields with its tags joined by `, ` |
| TourEditor.MakePayload | components/admin/TourEditor.tsx:32-35 | the form with only `tags` replaced by the parsed, well-formed list |
| TourEditor.UneditedTagsKept | components/admin/TourEditor.tsx:18-34 | saving an unedited form sends the tour's own well-formed tags |
| TourEditor.Request | components/admin/TourEditor.tsx:38-42 | a PUT to the tour's path iff the edited tour has an id, a POST otherwise; the body is the payload |
| TourEditor.TourEditorState.constructor | components/admin/TourEditor.tsx:11-21 | the form starts from `InitialForm` and is not loading |
| TourEditor.TourEditorState.HandleChange | components/admin/TourEditor.tsx:23-26 | the form becomes `SetField` of the old form |
| TourEditor.TourEditorState.BeginSubmit | components/admin/TourEditor.tsx:28-147 | a request is sent iff the form is not already loading and every required field is filled with the category one of the four options; then it sets loading and sends `Request` of the form; otherwise nothing changes |
| TourEditor.UneditedFormComplete | components/admin/TourEditor.tsx:11-128 | the form opened on a stored tour can be submitted unedited iff its category is one of the four options and its title, price, duration, image and description are non-empty |
| TourEditor.TourEditorState.SubmitSettled | components/admin/TourEditor.tsx:43-49 | clears loading; `onSave` runs iff the request succeeded |
| TourList.TourListState.constructor | components/admin/TourList.tsx:6-9 | starts in the list view, loading, with no tour selected |
| TourList.TourListState.Editor | components/admin/TourList.tsx:52-60 | the editor shows iff the view is create or edit, with the selected tour as its data |
| TourList.TourListState.FetchSettled | components/admin/TourList.tsx:15-24 | loading ends; the list is replaced only on success |
| TourList.TourListState.HandleCreate | components/admin/TourList.tsx:42-45 | create view with no tour, so every save is a POST |
| TourList.TourListState.HandleEdit | components/admin/TourList.tsx:37-40 | edit view on that tour, so a save is a PUT when it has an id |
| TourList.TourListState.HandleSave | components/admin/TourList.tsx:47-50 | back to the list view, with a refetch |
| TourList.TourListState.HandleCancel | components/admin/TourList.tsx:57 | back to the list view, without a refetch |
| TourList.TourListState.HandleDelete | components/admin/TourList.tsx:26-31 | a DELETE of `/tours/<id>` iff the dialog was confirmed |
| TourList.TourListState.DeleteSettled | components/admin/TourList.tsx:29-34 | a refetch iff the delete succeeded |
| TourGrid.Buttons | components/TourGrid.tsx:30-50 | `All` followed by the five categories in declaration order, all distinct |
| TourGrid.Filtered | components/TourGrid.tsx:15-17 | `All` keeps the list; any other choice keeps only tours of exactly that category |
| TourGrid.FilteredExactly | components/TourGrid.tsx:15-17 | a tour is shown iff it was fetched and matches the choice; the result is a subsequence of the fetch |
| TourGrid.TourGridState.constructor | components/TourGrid.tsx:8-9 | starts on `All`, which shows the list unchanged |
| TourGrid.TourGridState.FetchSettled | components/TourGrid.tsx:11-13 | the fetched list replaces the tours; a failed fetch changes nothing |
| TourGrid.TourGridState.Select | components/TourGrid.tsx:31-42 | the clicked button becomes the category; `All` shows everything |
| Cruises.CruiseToursExactly | components/Cruises.tsx:20 | exactly the tours whose category contains `Cruise` are kept, in order |
| Cruises.CruiseCategoriesPass | components/Cruises.tsx:20 | the three cruise categories of the seeds pass the filter |
| Cruises.OtherCategoriesFail | components/Cruises.tsx:20 | no other tour category passes |
| Cruises.CruisesState.LoadSettled | components/Cruises.tsx:13-26 | the cruise tours on success; a failed fetch leaves the list as it was, empty at first |
| Cruises.CruisesState.constructor | components/Cruises.tsx:13 | no tours yet |
| DestinationsRoute.ApplyPatch | server/src/routes/destinations.ts:61-64 | fields in the body replace the stored ones, the others and the id are kept |
| DestinationsRoute.EmptyPatchIdentity | server/src/routes/destinations.ts:61-64 | an empty body changes nothing |
| DestinationsRoute.ToursOf | server/src/routes/destinations.ts:31-33 | exactly the tours whose destination is the given id, in table order |
| DestinationsRoute.FullPatchOfSelf | server/src/routes/destinations.ts:61-64 | a body restating the stored fields changes nothing |
| DestinationsRoute.UpdateResponse | server/src/routes/destinations.ts:58-69 | success iff the id exists, the body has no `_count` and the patched slug clashes with no other row; the answer is the patched row |
| DestinationsRoute.DestinationTable.List | server/src/routes/destinations.ts:9-18 | every destination in order with the number of its linked tours |
| DestinationsRoute.DestinationTable.constructor | server/src/routes/destinations.ts:6 | the destination table holds the given rows, with unique ids and slugs |
| DestinationsRoute.DestinationTable.Get | server/src/routes/destinations.ts:21-43 | 404 iff no destination has that id or slug; otherwise a matching destination with its tours |
| DestinationsRoute.DestinationTable.Create | server/src/routes/destinations.ts:46-55 | appends the row iff its id and slug are new; otherwise 500 and no change |
| DestinationsRoute.DestinationTable.Update | server/src/routes/destinations.ts:58-69 | answers `UpdateResponse`; on success the row with that id is patched and every other row is kept; on failure nothing changes |
| DestinationsRoute.DestinationTable.Delete | server/src/routes/destinations.ts:72-82 | removes that destination only; an unknown id answers 500 |
| DestinationsEditor.SetField | components/admin/DestinationsEditor.tsx:126-171 | the named field takes the value (the optional images and content become present); every other field, the id and the tour count are kept |
| DestinationsEditor.ReplaceById | components/admin/DestinationsEditor.tsx:84 | same length and counts; entries with the returned id become the result, the others are unchanged |
| DestinationsEditor.AppendCreated | components/admin/DestinationsEditor.tsx:89 | the created destination at the end with a count of 0 |
| DestinationsEditor.RemoveById | components/admin/DestinationsEditor.tsx:67 | an entry remains iff it was there and has another id; the result keeps the list's order |
| DestinationsEditor.ReplaceByIdIdempotent | components/admin/DestinationsEditor.tsx:84 | replacing twice with the same result is replacing once |
| DestinationsEditor.Listed | server/src/routes/destinations.ts:9-18 | a listed destination reaches the editor with its id, its slug and a `_count` |
| DestinationsEditor.SentBody | components/admin/DestinationsEditor.tsx:83 | as written, the update body carries the edited fields and the `_count` of the listed entry |
| DestinationsEditor.ListedEditRejected | components/admin/DestinationsEditor.tsx:83 | as written, any edit of a listed destination keeps its `_count`, so the update answers 500 |
| DestinationsEditor.SetFieldsKeepsIdAndCount | components/admin/DestinationsEditor.tsx:126-171 | edits of the form never change the id or the `_count` |
| DestinationsEditor.CorrectedBody | components/admin/DestinationsEditor.tsx:83 | the update body without `_count`, otherwise the body as written |
| DestinationsEditor.CorrectedEditStored | server/src/routes/destinations.ts:58-69 | with the corrected body, an edit with a free slug is stored: the row takes the edited fields, keeping its id and its images or content where the form has none |
| DestinationsEditor.SuccessMessagesStyled | components/admin/DestinationsEditor.tsx:115 | the three success messages are styled as successes |
| DestinationsEditor.DeleteFailureStyled | components/admin/DestinationsEditor.tsx:115 | the delete failure message is not styled as a success |
| DestinationsEditor.SaveFailureStyled | components/admin/DestinationsEditor.tsx:115 | the save failure message is not styled as a success |
| DestinationsEditor.DestinationsEditorState.FetchSettled | components/admin/DestinationsEditor.tsx:28-37 | loading ends; the list is replaced only on success |
| DestinationsEditor.DestinationsEditorState.constructor | components/admin/DestinationsEditor.tsx:18-22 | an empty list, loading, with no form open and no message |
| DestinationsEditor.DestinationsEditorState.HandleEdit | components/admin/DestinationsEditor.tsx:39-42 | the form opens on that destination |
| DestinationsEditor.DestinationsEditorState.HandleAddNew | components/admin/DestinationsEditor.tsx:44-54 | the form opens on a blank destination without an id |
| DestinationsEditor.DestinationsEditorState.HandleCloseForm | components/admin/DestinationsEditor.tsx:56-59 | the form closes and forgets the destination |
| DestinationsEditor.DestinationsEditorState.HandleChange | components/admin/DestinationsEditor.tsx:126-171 | the edited destination becomes `SetField` of the old one |
| DestinationsEditor.DestinationsEditorState.HandleDelete | components/admin/DestinationsEditor.tsx:61-66 | a delete is sent iff the id is present and the dialog was confirmed |
| DestinationsEditor.DestinationsEditorState.DeleteSettled | components/admin/DestinationsEditor.tsx:65-73 | success removes that id and reports it; failure keeps the list and reports the failure |
| DestinationsEditor.DestinationsEditorState.BeginSave | components/admin/DestinationsEditor.tsx:76-164 | nothing without a destination or with an empty required field; otherwise an update of the edited fields without `_count` when it has an id, a create without one |
| DestinationsEditor.DestinationsEditorState.SaveSettled | components/admin/DestinationsEditor.tsx:81-98 | success replaces or appends, then closes the form; failure keeps the list and the form |
| SettingsRoute.StringifyValues | server/src/routes/settings.ts:32-33 | text is stored as it is, and a number reads back as itself |
| SettingsRoute.AsMap | server/src/routes/settings.ts:12-15 | the object's keys are exactly the stored keys |
| SettingsRoute.Upsert | server/src/routes/settings.ts:30-34 | an upsert keeps the keys unique |
| SettingsRoute.UpsertAll | server/src/routes/settings.ts:29-37 | a POST's upserts keep the keys unique |
| SettingsRoute.AsMapValues | server/src/routes/settings.ts:12-15 | with unique keys, the object maps every row's key to that row's value |
| SettingsRoute.UpsertAsMap | server/src/routes/settings.ts:30-34 | one upsert sets that key in the object and leaves the others |
| SettingsRoute.UpsertAllAsMap | server/src/routes/settings.ts:29-37 | after a POST every body key holds `String` of its value, and every other key keeps its value |
| SettingsRoute.PostTwiceSameAsOnce | server/src/routes/settings.ts:29-37 | posting the same body twice gives the object of posting it once |
| SettingsRoute.SettingsTable.Snapshot | server/src/routes/settings.ts:10-15 | the object holds exactly the stored keys, each with its row's value |
| SettingsRoute.SettingsTable.Get | server/src/routes/settings.ts:8-22 | the whole object, or 500 with the fetch error |
| SettingsRoute.SettingsTable.Post | server/src/routes/settings.ts:25-51 | all upserts commit together or none does; the answer is the whole refreshed object |
| SettingsRoute.SettingsTable.constructor | server/src/routes/settings.ts:5 | the settings table holds the given rows, with unique keys |
| SettingsForms.Lookup | components/admin/PagesEditor.tsx:19 | the stored value, or `''` when the key is absent |
| SettingsForms.Assign | components/admin/SettingsEditor.tsx:14-17 | sets only the named key; every other key is unchanged |
| SettingsForms.ShowsHeroPreview | components/admin/HomeEditor.tsx:50-54 | the preview shows iff `heroImage` is present and non-empty |
| SettingsForms.FormMapEditor.constructor | components/admin/SettingsEditor.tsx:6-12 | the form starts as the current settings |
| SettingsForms.FormMapEditor.SettingsChanged | components/admin/HomeEditor.tsx:11-13 | a settings change resets the form to the new settings |
| SettingsForms.FormMapEditor.HandleChange | components/admin/HomeEditor.tsx:15-18 | the form becomes `Assign` of the old form |
| SettingsForms.FormMapEditor.BeginSubmit | components/admin/SettingsEditor.tsx:19-123 | sends iff not already saving; then sets saving and sends the whole form; otherwise nothing changes |
| SettingsForms.FormMapEditor.SubmitSettled | components/admin/SettingsEditor.tsx:22-30 | clears saving; success reloads from the answer with the saved message, failure keeps the form with the failure message |
| PagesEditor.PageKeys | components/admin/PagesEditor.tsx:4-9 | exactly the four page keys |
| PagesEditor.SaveBody | components/admin/PagesEditor.tsx:25-28 | the settings with only the selected key set to the content |
| PagesEditor.SavedContentReloads | components/admin/PagesEditor.tsx:18-35 | when the posted body is `SaveBody` of what the server holds, the object it answers is that body: the page reloads the saved content and every other key keeps its value |
| PagesEditor.PagesEditorState.constructor | components/admin/PagesEditor.tsx:13-20 | `page_about` is selected and its stored content loaded |
| PagesEditor.PagesEditorState.Select | components/admin/PagesEditor.tsx:18-52 | selects the page; the stored content loads iff the selection changes, so pressing the selected page keeps unsaved text |
| PagesEditor.PagesEditorState.SettingsChanged | components/admin/PagesEditor.tsx:18-20 | the content reloads from the new settings |
| PagesEditor.PagesEditorState.EditContent | components/admin/PagesEditor.tsx:68 | only the content changes |
| PagesEditor.PagesEditorState.BeginSave | components/admin/PagesEditor.tsx:22-79 | sends iff not already saving; then sets saving and sends `SaveBody`; otherwise nothing changes |
| PagesEditor.PagesEditorState.SaveSettled | components/admin/PagesEditor.tsx:29-35 | clears saving; success and failure have distinct messages, and success reloads the content |
| InfoPage.SettingKey | components/InfoPage.tsx:46 | `page_` followed by the type; always one of the editor's keys, never the about page |
| InfoPage.SettingKeyInjective | components/InfoPage.tsx:46 | different pages read different keys |
| InfoPage.Render | components/InfoPage.tsx:47-86 | custom HTML iff the stored value is non-empty; otherwise the questions for the FAQ and the body text for the others |
| InfoPage.EditorContentShown | components/InfoPage.tsx:61 | what the pages editor saves under a page's key is what that page shows |
| TestimonialsEditor.NormaliseOne | components/admin/TestimonialsEditor.tsx:32-36 | a falsy id becomes index + 1, a falsy rating becomes 5, the other fields are kept |
| TestimonialsEditor.Normalise | components/admin/TestimonialsEditor.tsx:27-43 | unparsable text gives `[]`; otherwise the same length, each element normalised, ids and ratings non-zero |
| TestimonialsEditor.NormaliseCanRepeatIds | components/admin/TestimonialsEditor.tsx:32-36 | a stored entry with id 2 followed by one without an id loads as two entries with id 2 |
| TestimonialsEditor.MaxId | components/admin/TestimonialsEditor.tsx:72 | at least 0 and every id; it is 0 or one of the ids |
| TestimonialsEditor.NextId | components/admin/TestimonialsEditor.tsx:72 | at least 1 and greater than every id |
| TestimonialsEditor.Added | components/admin/TestimonialsEditor.tsx:72-73 | appends the draft with a fresh id; unique ids stay unique |
| TestimonialsEditor.Edited | components/admin/TestimonialsEditor.tsx:66-69 | same length and ids; only entries with that id are replaced; unique ids stay unique |
| TestimonialsEditor.Deleted | components/admin/TestimonialsEditor.tsx:93 | an entry remains iff it was there and has another id |
| TestimonialsEditor.DeletedKeepsOrder | components/admin/TestimonialsEditor.tsx:93 | the remaining entries keep their order, and unique ids stay unique |
| TestimonialsEditor.StarLine | components/admin/TestimonialsEditor.tsx:203 | defined iff the rating is 0 to 5; five stars, the first `rating` of them filled |
| TestimonialsEditor.TestimonialsEditorState.constructor | components/admin/TestimonialsEditor.tsx:14-25 | an empty list, no entry being edited, and a blank form rated 5 |
| TestimonialsEditor.TestimonialsEditorState.StoredTextChanged | components/admin/TestimonialsEditor.tsx:27-43 | no text leaves the list; otherwise the list is `Normalise` of the parse |
| TestimonialsEditor.TestimonialsEditorState.SetName | components/admin/TestimonialsEditor.tsx:121 | only the name of the form changes |
| TestimonialsEditor.TestimonialsEditorState.SetCountry | components/admin/TestimonialsEditor.tsx:131 | only the country of the form changes |
| TestimonialsEditor.TestimonialsEditorState.SetQuote | components/admin/TestimonialsEditor.tsx:155 | only the quote of the form changes |
| TestimonialsEditor.TestimonialsEditorState.SetRating | components/admin/TestimonialsEditor.tsx:139-143 | a star sets a rating from 1 to 5; nothing else changes |
| TestimonialsEditor.TestimonialsEditorState.HandleSubmit | components/admin/TestimonialsEditor.tsx:61-165 | a save starts iff no save runs and name, country and quote are filled; then `Edited` while editing, `Added` otherwise, editing cleared and the form reset; otherwise nothing changes; unique ids stay unique |
| TestimonialsEditor.TestimonialsEditorState.HandleEdit | components/admin/TestimonialsEditor.tsx:81-89 | the form takes the entry's fields, whatever its rating, and editing is that id |
| TestimonialsEditor.TestimonialsEditorState.HandleDelete | components/admin/TestimonialsEditor.tsx:91-97 | after confirmation the list becomes `Deleted` and is saved; otherwise nothing; unique ids stay unique |
| TestimonialsEditor.TestimonialsEditorState.SaveSettled | components/admin/TestimonialsEditor.tsx:45-59 | clears saving, with the message matching the outcome |
| TestimonialsEditor.TestimonialsEditorState.HandleCancel | components/admin/TestimonialsEditor.tsx:99-102 | clears editing and resets the form |
| AuthRoute.Login | server/src/routes/auth.ts:7-28 | success iff a user has that name and exactly that password; the token is constant and the user shown has no password; other failures are 401 |
| AuthRoute.LoginPerUser | server/src/routes/auth.ts:12-24 | each stored user logs in with exactly its own password |
| AuthRoute.UnknownAndWrongAlike | server/src/routes/auth.ts:16-18 | an unknown name and a wrong password get the identical answer |
| ProfileEditor.Rejection | components/admin/ProfileEditor.tsx:26-34 | a mismatch is reported first, and only for a non-empty new password; then a missing user id |
| ProfileEditor.MakeRequest | components/admin/ProfileEditor.tsx:38-43 | the typed fields, with the new password undefined iff it is empty |
| ProfileEditor.OutcomeAsWritten | components/admin/ProfileEditor.tsx:37-47 | as written, every request ends with the failure message |
| ProfileEditor.Outcome | components/admin/ProfileEditor.tsx:44-47 | the success message iff the server accepts |
| ProfileEditor.AcceptedRequestReportedAsFailure | components/admin/ProfileEditor.tsx:37-47 | a request the server would accept is still reported as a failure |
| ProfileEditor.ProfileEditorState.constructor | components/admin/ProfileEditor.tsx:7-20 | username `admin`, empty password fields, no message |
| ProfileEditor.ProfileEditorState.SetFields | components/admin/ProfileEditor.tsx:65-99 | the four inputs take the typed values |
| ProfileEditor.ProfileEditorState.BeginSubmit | components/admin/ProfileEditor.tsx:22-109 | nothing happens while saving or with an empty username or current password; otherwise clears the message, and a rejection sets its message and sends nothing, while an accepted form sets saving and sends `MakeRequest`, whose username and current password are non-empty |
| ProfileEditor.ProfileEditorState.SubmitSettled | components/admin/ProfileEditor.tsx:44-50 | clears saving, with the message given by `Outcome` |
| AdminDashboard.LastSegment | components/admin/AdminDashboard.tsx:19 | the text after the last `/`: a suffix of the path without `/` |
| AdminDashboard.TitleOf | components/admin/AdminDashboard.tsx:20-30 | each of the eight segments gets its title; any other gets `Dashboard` |
| AdminDashboard.PageTitle | components/admin/AdminDashboard.tsx:18-31 | the header shows one of the eight titles or `Dashboard` |
| AdminDashboard.TitleFromLastSegment | components/admin/AdminDashboard.tsx:18-31 | the title depends only on the text after the last `/` |
| AdminDashboard.TrailingSlashIsDashboard | components/admin/AdminDashboard.tsx:29 | a trailing slash gives `Dashboard` |
| AdminDashboard.AsciiLower | components/admin/AdminDashboard.tsx:64-73 | each ASCII capital folded to lower case, every other character kept |
| AdminDashboard.TrimTrailingSlashes | components/admin/AdminDashboard.tsx:64-73 | the longest prefix not ending in `/`; only slashes are dropped |
| AdminDashboard.TrailingSlashScreenTitledDashboard | components/admin/AdminDashboard.tsx:18-31 | as written, `/admin/tours/` shows the tour list under `Dashboard` |
| AdminDashboard.CapitalisedScreenTitledDashboard | components/admin/AdminDashboard.tsx:18-31 | as written, `/admin/Tours` shows the tour list under `Dashboard` |
| AdminDashboard.ScreenTitle | components/admin/AdminDashboard.tsx:18-73 | the title of the screen the router ends on |
| AdminDashboard.ScreenTitleOnExactPaths | components/admin/AdminDashboard.tsx:18-73 | on the eight paths the sidebar links to, the corrected title is the title as written |
| AdminDashboard.RouteTarget | components/admin/AdminDashboard.tsx:64-73 | a path below `/admin/` that spells a segment up to ASCII case and trailing slashes renders that screen; any other redirects to bookings |
| AdminDashboard.RoutedScreensTitled | components/admin/AdminDashboard.tsx:64-73 | the corrected header never shows `Dashboard` over a screen |
| ChatAssistant.SendIgnoredExactly | components/ChatAssistant.tsx:24 | a send is ignored iff the input is whitespace only or a reply is pending |
| ChatAssistant.ChatState.constructor | components/ChatAssistant.tsx:7-12 | closed, holding only the greeting, with no input and not loading |
| ChatAssistant.ChatState.SetInput | components/ChatAssistant.tsx:103 | only the input changes |
| ChatAssistant.ChatState.BeginSend | components/ChatAssistant.tsx:23-32 | ignored, or: appends the untrimmed user message, clears the input, sets loading and calls with the history before it |
| ChatAssistant.ChatState.SendSettled | components/ChatAssistant.tsx:32-38 | one model message on a reply, none on an error; loading ends either way |
| ChatAssistant.ChatState.Toggle | components/ChatAssistant.tsx:45 | flips `isOpen` only |
| Image.ImageState.constructor | components/common/Image.tsx:8-10 | a missing fallback is the placeholder; the image starts neither loaded nor failed, with the skeleton shown |
| Image.ImageState.DisplayedSrc | components/common/Image.tsx:21 | the fallback once loading failed, the `src` prop otherwise |
| Image.ImageState.SrcChanged | components/common/Image.tsx:8-21 | a new `src` prop keeps the error and loaded flags, so after a failure the fallback is shown for the new source too, and the skeleton does not come back |
| Image.ImageState.HandleError | components/common/Image.tsx:12-16 | the error flag is set and stays set; the fallback is shown and the skeleton hidden |
| Image.ImageState.HandleLoad | components/common/Image.tsx:24 | loaded; the source is kept and the skeleton hidden |
| Image.ImageState.ShowsSkeleton | components/common/Image.tsx:29 | the skeleton shows iff the image is neither loaded nor failed |
| Seed.Row | server/prisma/seed.ts:6-79 | the stored row keeps the id and category, and its tags text decodes to the seed's tags |
| Seed.SeedRowIds | server/prisma/seed.ts:8-68 | the six seed rows have the ids `1` to `6`, one each |
| Seed.SeedTagsDecode | server/prisma/seed.ts:17-77 | every seed row's tags decode, so every seed row presents |
| Seed.SeedTours | server/prisma/seed.ts:85-98 | the loop inserts each tour whose id is absent and leaves existing rows; ids stay unique |
| Seed.SeedAdmin | server/prisma/seed.ts:101-115 | the admin user is appended iff no user is named `admin`; usernames stay unique |
| Seed.Run | server/prisma/seed.ts:81-118 | the tour loop, then the admin step |
| Seed.AfterRunPresent | server/prisma/seed.ts:85-115 | after a run the ids `1` to `6` and the admin user are present, and no other key was added |
| Seed.RunTwiceSameAsOnce | server/prisma/seed.ts:85-115 | a second run changes neither table |
| SeedCruises.CruiseRowIds | server/prisma/seed_cruises.ts:7-44 | the three cruise rows have the ids `20`, `21` and `22`, one each |
| SeedCruises.IdsDisjoint | server/prisma/seed_cruises.ts:9-34 | the cruise ids are not base seed ids |
| SeedCruises.Run | server/prisma/seed_cruises.ts:49-62 | inserts each cruise whose id is absent and leaves existing rows |
| SeedCruises.RunPresentAndIdempotent | server/prisma/seed_cruises.ts:49-62 | after a run the three cruises are present; a second run changes nothing |
| SeedCruises.SeedsCommute | server/prisma/seed_cruises.ts:49-62 | running the two seeds in either order stores the same rows |
| SeedCruises.CruiseCategoriesPassFilter | server/prisma/seed_cruises.ts:15-39 | every cruise category passes the cruises page's filter |
| SeedCruises.OnlyNileCruisesIsCategory | server/prisma/seed_cruises.ts:15-39 | only `Nile Cruises` is a value of the category enumeration |
| SeedDestinations.SeedSlugsDistinct | server/prisma/seed_destinations.ts:9-80 | the five seed slugs are pairwise distinct |
| SeedDestinations.WithIds | server/prisma/seed_destinations.ts:107-109 | each seed with its generated id, keeping the slugs |
| SeedDestinations.Run | server/prisma/seed_destinations.ts:101-114 | the loop creates each destination whose slug is absent; ids and slugs stay unique |
| SeedDestinations.RunPresent | server/prisma/seed_destinations.ts:101-114 | every seed slug is present after a run; existing rows are kept unchanged, and each new row is a seed whose slug was absent |
| SeedDestinations.SeedListPresent | server/prisma/seed_destinations.ts:9-114 | after a run of the script's list, each of the five slugs names a destination |
| SeedDestinations.RunTwiceSameAsOnce | server/prisma/seed_destinations.ts:101-114 | a second run changes nothing, whatever ids the store would generate |

## Left out

- Prisma, Express and axios plumbing are not modelled:
  - connections, routing and multipart parsing;
  - the upload middleware, the static upload folder and `/health`.
- A store failure other than a key clash or an unknown key is not modelled. Only the settings route, whose transaction is the point, takes a `commits` flag.
- The Prisma `findMany` order is the table order in the model. The database gives no such promise.
- Floating point is not modelled:
  - prices, totals and ratings are integers;
  - `parseFloat` reads an optional sign and the integer digits; a fraction or an exponent is not modelled;
  - the seed ratings 4.7 to 5.0 are kept in tenths.
- `new Date(date)`, `toLocaleDateString` and `createdAt` are opaque. `createdAt` is an integer chosen by the store.
- The JSON text of the testimonials list is not modelled. `JSON.parse` of that text is a parameter: `None` where it throws.
- `JSON.stringify` of the list on save is not modelled, and neither is the surrogate-pair half of `\u` escapes in `TagsJson`. The encoder never emits those escapes.
- A settings POST body whose values are arrays or objects is not modelled. Scalars and `null` are modelled.
- The loading flag of the settings provider (the "Loading..." screens) is not modelled. The editors take the settings object as it changes.
- `window.confirm`, `alert`, `setTimeout`, `localStorage`, `window.scrollTo` and scrolling are left out:
  - a confirmation is a boolean parameter;
  - the stored user id is an optional parameter;
  - timers that clear messages are not modelled.
- The chat recommender is an external call. Its reply is an optional parameter.
- The descriptive fields of the destination seeds (description, images, HTML content) are not reproduced. Only the slugs and names are.
- The descriptive fields of the tour seeds are reproduced as text, but the model states nothing about them.
- AuthRoute.Login: a body without a username makes the unique lookup throw, which the model answers with 500. A body whose username is not a string is not modelled.
- ToursRoute.Present: a stored tags text that is valid JSON but not a list of strings (`5`, `{}`, `[1]`) fails to present in the model, while `JSON.parse` accepts it and the route presents whatever value it gives. Every row the model's routes and seeds write holds a list of strings.
- ToursRoute.PresentAll: for the same reason, a list holding such a row fails in the model, where the route presents it.
- ToursRoute.TourTable.List: for the same reason, such a row makes the model answer 500, where the route answers 200.
- DestinationsRoute.ApplyPatch: the body's `id` is not part of the patch. The editor sends the row's own id, which leaves the row unchanged; a body with another id, which would move the row, is not modelled.
- DestinationsRoute.UpdateResponse: of the fields that are not columns, only `_count` is modelled, and the store is taken to reject it.
- AdminDashboard.RouteTarget: the router's percent-decoding of the path is not modelled; the path below `/admin/` is taken as decoded text.
- Checkout.CheckoutState.HandleNext: only the `required` check of the inputs is modelled. The format checks of `type="email"` and `type="date"` are not modelled.
- TourEditor.TourEditorState.BeginSubmit: of the browser's checks only `required` and the category options are modelled. The format checks of the `type="number"` price (`TourEditor.tsx:89`) and the `type="url"` image (`TourEditor.tsx:112`) are not modelled.
- SettingsForms.FormMapEditor.BeginSubmit: the format checks of the `type="email"` and `type="url"` inputs (`SettingsEditor.tsx:51`, `:88`, `:99`, `:110`) are not modelled; a form the browser would refuse for its format is sent in the model.
- DestinationsEditor.DestinationsEditorState.BeginSave: the screen is modelled with the corrected update body, `CorrectedBody`, which leaves out `_count`. As written it sends `SentBody`, the whole entry; `ListedEditRejected` states what that does (see Findings).
- The category enumeration of `types.ts` and the `CATEGORIES` list of `constants.ts` are one constant in `TourGrid`. The client-side tour list of `constants.ts` is not modelled.

## Findings

| source | as written | input that shows it | evidently intended | confidence | as-written member | corrected member |
|---|---|---|---|---|---|---|
| components/admin/ProfileEditor.tsx:38 | `authService.updateProfile` is called, but `services/api.ts:38-43` defines only `login`. The call throws a TypeError inside the `try`, so every submit that passes the checks ends with "Failed to update profile." | a matching new password and confirmation, and a stored user id | the request is sent to a profile route, and the success message is shown when the server accepts it | not executed | ProfileEditor.OutcomeAsWritten, ProfileEditor.AcceptedRequestReportedAsFailure | ProfileEditor.Outcome, ProfileEditor.ProfileEditorState.SubmitSettled |
| components/admin/DestinationsEditor.tsx:83 | The update sends the whole edited entry, and an entry from the list carries the `_count` object of `server/src/routes/destinations.ts:12`. The route passes the body to `prisma.destination.update` as `data` (`destinations.ts:63`), where `_count` is no field. | any edit of a destination opened from the list | only the edited fields are sent, so the row is updated | not executed; it rests on the store rejecting the unknown `_count` argument | DestinationsEditor.SentBody, DestinationsEditor.ListedEditRejected | DestinationsEditor.CorrectedBody, DestinationsEditor.CorrectedEditStored, DestinationsEditor.DestinationsEditorState.BeginSave |
| components/admin/AdminDashboard.tsx:18-31 | The header title is chosen by the text after the last `/`, while the routes at lines 64-73 match a segment up to ASCII case and ignore trailing slashes. | `/admin/tours/` or `/admin/Tours` | the header names the screen shown | not executed | AdminDashboard.TrailingSlashScreenTitledDashboard, AdminDashboard.CapitalisedScreenTitledDashboard | AdminDashboard.ScreenTitle, AdminDashboard.RoutedScreensTitled |
