# HarvestHub AI marketplace — a Dafny model of its list and state logic

HarvestHub AI is a client-side farmers' marketplace written in TypeScript and
React. It has no server. Its "backend" is a set of module-level arrays in
`services/mockData.ts`:
- users;
- produce listings;
- farm profiles;
- notifications;
- conversations;
- messages.

Small service functions and page handlers read and mutate those arrays. This
project models that logic in Dafny and proves what it promises. The modelled
parts are:

- **The listing store** (`ProduceService`). It answers three queries: a
  farmer's listings, the filtered marketplace, and a listing by id. It
  changes the table in place with add-at-front, merge-update by id and
  delete by id.
- **The user store** (`UserService`, `MockData`). This covers profile
  updates with their mirror into the farm profile, and the farm profiles
  derived from users and listings when the application starts. It also
  states the seed invariant that every conversation's last message is stored
  and points back to that conversation.
- **The session** (`AuthContext`). It covers restore from storage, login by
  e-mail, registration with its duplicate-e-mail refusal, logout, and
  replacing the signed-in user. The registration page (`RegistrationPage`)
  adds the password rules, the role-specific fields and the role toggle.
- **The listing form** (`ProduceListingForm`). This covers tag and photo
  list editing, the edit-ownership check, validation, and the record that is
  saved.
- **The owner's list** (`MyProducePage`, `ProduceListItem`). This covers the
  status and search filter, delete and status toggle kept in sync with the
  table, the status buttons (active ↔ sold out) and the status label.
- **Messaging** (`MessagingPage`). This covers the user's conversations
  newest first, the choice of the active conversation, its messages oldest
  first, and sending a message. A send either promotes a temporary `new-`
  conversation to a stored one or touches an existing one.
- **Notifications** (`NotificationCenter`). This covers the visible set
  newest first, marking one or all read, and the unread filter.
- **Connections** (`Connections`, `BuyerConnectionsPage`,
  `FarmerConnectionsPage`). This covers the counterpart set, one card per
  counterpart of the other role with its status, and the newest-first sort.
- **The route guard** (`AppRoutes`) and **the FAQ search** (`HelpPage`).

The model uses these conventions:
- A page whose handlers replace React state is a class whose methods assign
  its fields.
- The shared arrays are the fields of `MockData.Db`, and service methods name
  the fields they change in `modifies`.
- Pure filters and derivations are functions.
- Loops in the source (the connection pages' `forEach` passes) are methods
  with loop invariants, proved equal to the functions that specify them.
- Timestamps are integers (milliseconds), and prices are integers (cents).
- Ids that the source builds from `Date.now()` are built from a
  caller-supplied number `stamp`.

Helper modules:
- `Text`: ASCII lower/upper case, substring search, JavaScript `trim`.
- `Lists`: `filter`, `find`, `findIndex`, de-duplication and subsequences.
- `Sorting`: `Array.prototype.sort` with a numeric comparator. Because
  ECMAScript's sort is stable, it is modelled as a stable insertion sort.
- `Wrappers`: `Option`, `Result`, the `Patch` type for a `Partial<T>` key,
  and JavaScript truthiness of optional strings.
- `Types`: the records of `types.ts` and the constants of `constants.ts`.

## Model

| member | source | states |
|---|---|---|
| Wrappers.OrElse | copy-of-harvesthub-ai/services/mockData.ts:156-157 | `x \|\| fallback` on an optional string: the value when it is a non-empty string, otherwise the fallback; never empty when the fallback is not |
| Text.Lower | copy-of-harvesthub-ai/services/produceService.ts:19 | `toLowerCase` keeps the length, maps each character, and leaves no upper-case ASCII letter |
| Text.Upper | copy-of-harvesthub-ai/components/ProduceListItem.tsx:40 | `toUpperCase` keeps the length, maps each character, and leaves no lower-case ASCII letter |
| Text.LowerIdempotent | copy-of-harvesthub-ai/services/produceService.ts:26 | lower-casing an already lower-cased string changes nothing |
| Text.Contains | copy-of-harvesthub-ai/services/produceService.ts:23 | `includes` holds exactly when the needle occurs at some position of the haystack |
| Text.ContainsLower | copy-of-harvesthub-ai/pages/HelpPage.tsx:69 | an occurrence survives lower-casing both strings, so a case-insensitive search finds every exact match |
| Text.Trim | copy-of-harvesthub-ai/pages/ProduceListingForm.tsx:92 | `trim` returns the slice of its input left after cutting a white run off the front and one off the back, and that slice neither starts nor ends with white space |
| Text.TrimEmptyIffBlank | copy-of-harvesthub-ai/pages/ProduceListingForm.tsx:107 | the trimmed input is empty exactly when every character is white space |
| Text.TrimIdempotent | copy-of-harvesthub-ai/pages/ProduceListingForm.tsx:110 | trimming twice is trimming once |
| Text.ReplaceFirst | copy-of-harvesthub-ai/components/ProduceListItem.tsx:40 | `replace('_', ' ')` keeps the length, turns the first `_` into a space and keeps every other character, and changes nothing when there is no `_` |
| Text.NatToStringInjective | copy-of-harvesthub-ai/services/produceService.ts:46 | different clock values give different decimal texts, so ids built from them differ |
| Text.NatToString | copy-of-harvesthub-ai/services/produceService.ts:46 | a clock value's decimal text: non-empty, digits only, one digit exactly below ten |
| Lists.Filter | copy-of-harvesthub-ai/services/produceService.ts:10 | `filter` keeps exactly the elements that pass, in their original order (an order-preserving subsequence) |
| Lists.FilterConcat | copy-of-harvesthub-ai/pages/BuyerConnectionsPage.tsx:45-46 | filtering a concatenation is concatenating the filtered parts |
| Lists.FilterCommute | copy-of-harvesthub-ai/pages/MyProducePage.tsx:77-79 | two successive filters can be applied in either order |
| Lists.Find | copy-of-harvesthub-ai/services/produceService.ts:39 | `find` returns the element at the first index that passes, or nothing when no element passes |
| Lists.FirstIndex | copy-of-harvesthub-ai/services/produceService.ts:59 | `findIndex` is -1 when no element passes, else the first index that does |
| Lists.Distinct | copy-of-harvesthub-ai/services/mockData.ts:163 | `Array.from(new Set(s))` has no duplicates, the same elements as `s`, and keeps their order |
| Lists.DistinctFirstOccurrenceOrder | copy-of-harvesthub-ai/services/mockData.ts:163 | the distinct elements appear in the order of their first occurrences |
| Sorting.SortDesc | copy-of-harvesthub-ai/pages/MessagingPage.tsx:36 | the newest-first sort is a permutation of its input, sorted by descending key |
| Sorting.SortAsc | copy-of-harvesthub-ai/pages/MessagingPage.tsx:84 | the oldest-first sort is a permutation with the same elements, sorted by ascending key |
| Sorting.SortDescAppendSmallest | copy-of-harvesthub-ai/pages/MessagingPage.tsx:141 | sorting after appending an element whose key is not larger than any other gives the sorted input followed by that element |
| Sorting.SortAscAppendLargest | copy-of-harvesthub-ai/pages/MessagingPage.tsx:84 | in the oldest-first sort, appending an element whose key is not smaller than any other gives the sorted input followed by that element |
| Sorting.SortDescLargestFirst | copy-of-harvesthub-ai/pages/MessagingPage.tsx:141 | an element with a strictly largest key heads the sorted list |
| Sorting.SortDescDistinct | copy-of-harvesthub-ai/pages/BuyerConnectionsPage.tsx:63 | sorting keeps elements with distinct ids distinct |
| MockData.Db.constructor | copy-of-harvesthub-ai/services/mockData.ts:148-165 | start-up state: farm profiles derived from users and listings; the seeded conversations and messages linked |
| MockData.ActiveListings | copy-of-harvesthub-ai/services/mockData.ts:151 | a farmer's listings are exactly their `active` ones, in table order |
| MockData.Categories | copy-of-harvesthub-ai/services/mockData.ts:163 | `map(p => p.category)`, position by position |
| MockData.DeriveFarmProfiles | copy-of-harvesthub-ai/services/mockData.ts:148-150 | one profile per farmer, in user-table order |
| MockData.ProfilesFollowFarmers | copy-of-harvesthub-ai/services/mockData.ts:148-153 | the i-th profile belongs to the i-th farmer of the user table |
| MockData.DerivedProfileContents | copy-of-harvesthub-ai/services/mockData.ts:151-163 | a profile's listings are exactly the farmer's active ones in order; its primary produce is their distinct categories; practices are `Organic, Sustainable` exactly when the description mentions "organic" in any case and `Sustainable` otherwise; a non-empty story or picture is copied and an empty or missing one gets the default (`DeriveProfile` builds it) |
| MockData.OrganicTagIsCaseInsensitive | copy-of-harvesthub-ai/services/mockData.ts:159 | a description mentioning "organic" in any capitalisation earns `['Organic', 'Sustainable']` |
| MockData.SeedMessages | copy-of-harvesthub-ai/services/mockData.ts:222-273 | each seeded conversation's last message is in the message table and points back to it |
| ProduceService.ForFarmer | copy-of-harvesthub-ai/services/produceService.ts:9-12 | exactly the farmer's listings, whatever their status, in table order |
| ProduceService.ByCategory | copy-of-harvesthub-ai/services/produceService.ts:18-20 | keeps exactly the listings whose category equals the present, non-empty filter ignoring case, in order |
| ProduceService.ByLocation | copy-of-harvesthub-ai/services/produceService.ts:21-24 | keeps exactly the listings whose location contains the present, non-empty filter ignoring case, in order |
| ProduceService.ByQuery | copy-of-harvesthub-ai/services/produceService.ts:25-33 | keeps exactly the listings whose name, description, a tag or farm name contains the present, non-empty search text ignoring case, in order |
| ProduceService.AllProduce | copy-of-harvesthub-ai/services/produceService.ts:14-36 | exactly the active listings that meet each present, non-empty filter, in table order (`Selected` combines the three filter predicates) |
| ProduceService.FiltersAreCaseInsensitive | copy-of-harvesthub-ai/services/produceService.ts:18-33 | lower-casing the filter strings first gives the same marketplace |
| ProduceService.LowerOpt | copy-of-harvesthub-ai/services/produceService.ts:19 | lower-casing an optional filter keeps it present and non-empty exactly when it was |
| ProduceService.NoFiltersMeansAllActive | copy-of-harvesthub-ai/services/produceService.ts:15-17 | without filters, or with only empty ones, the marketplace is every active listing |
| ProduceService.ProduceById | copy-of-harvesthub-ai/services/produceService.ts:38-41 | the first listing with the id; nothing exactly when no listing has it |
| ProduceService.IndexOfId | copy-of-harvesthub-ai/services/produceService.ts:59 | the first index with the id, or -1 exactly when none has it |
| ProduceService.ByIdAgreesWithIndex | copy-of-harvesthub-ai/services/produceService.ts:39 | with unique ids, lookup by id and the index found by id agree |
| ProduceService.ListingIdInjective | copy-of-harvesthub-ai/services/produceService.ts:46 | listings created at different milliseconds get different `prod-` ids (`ListingId` builds the id) |
| ProduceService.NewListing | copy-of-harvesthub-ai/services/produceService.ts:44-53 | the new record: every draft field copied (category, description, price, unit, quantity, harvest and availability dates, photos, location, tags, status), a `prod-` id from `ListingId`, the farmer's names, zero views and inquiries, both dates now |
| ProduceService.Merge | copy-of-harvesthub-ai/services/produceService.ts:61 | `{...p, ...u, updatedAt}`: supplied keys override, absent keys keep old values, identity and counters stay for the keys the pages send, updatedAt is refreshed |
| ProduceService.StatusPatchChangesOnlyStatus | copy-of-harvesthub-ai/pages/MyProducePage.tsx:65 | a status-only update changes the status and updatedAt and nothing else (`StatusPatch` is the toggle's update) |
| ProduceService.DraftPatchTakesDraft | copy-of-harvesthub-ai/pages/ProduceListingForm.tsx:206 | saving an edit takes every draft field and keeps id, names, counters and creation time (`DraftPatch` is the form's update) |
| ProduceService.UpdatedTable | copy-of-harvesthub-ai/services/produceService.ts:58-65 | only the first entry with the id changes, to the merge; an unknown id leaves the table unchanged |
| ProduceService.UpdateKeepsIds | copy-of-harvesthub-ai/services/produceService.ts:61 | an update keeps ids unique, and the id afterwards finds the merged listing |
| ProduceService.RemoveAt | copy-of-harvesthub-ai/services/produceService.ts:70 | `splice(k, 1)` drops position k and shifts the rest down one place |
| ProduceService.DeleteRemovesId | copy-of-harvesthub-ai/services/produceService.ts:67-72 | with unique ids, after a delete no listing has the id and ids stay unique |
| ProduceService.RemovePreservesOrder | copy-of-harvesthub-ai/services/produceService.ts:70 | the remaining listings keep their relative order |
| ProduceService.AddedListingFirst | copy-of-harvesthub-ai/services/produceService.ts:54 | the added listing is the first found by its id and heads its farmer's list; a fresh id keeps ids unique |
| ProduceService.AddProduce | copy-of-harvesthub-ai/services/produceService.ts:43-56 | the new listing is put at index 0 in front of the unchanged old table and returned |
| ProduceService.UpdateProduce | copy-of-harvesthub-ai/services/produceService.ts:58-65 | the table becomes the updated table; the merged record is returned; nothing is returned and nothing changes for an unknown id |
| ProduceService.DeleteProduce | copy-of-harvesthub-ai/services/produceService.ts:67-74 | true and the first entry with the id spliced out, or false and the table unchanged |
| UserService.UserById | copy-of-harvesthub-ai/services/userService.ts:9-12 | the first user with the id, or nothing exactly when no user has it |
| UserService.UserIndex | copy-of-harvesthub-ai/services/userService.ts:15 | the first index with the id, or -1 exactly when none has it |
| UserService.ProfileIndex | copy-of-harvesthub-ai/services/userService.ts:20 | the first index of a profile with the farmer id, or -1 exactly when none has it |
| UserService.SyncedProfiles | copy-of-harvesthub-ai/services/userService.ts:19-25 | for a farmer, the first profile with their id becomes its mirrored copy; every other profile, and every profile for a non-farmer, is unchanged |
| UserService.UpdateUserProfile | copy-of-harvesthub-ai/services/userService.ts:14-30 | an unknown id changes nothing and returns nothing; a known one replaces only that user by the merge, returns it, and mirrors into the profile table |
| UserService.MergeKeepsIdentity | copy-of-harvesthub-ai/services/userService.ts:17 | for the keys the profile page sends, an update never changes a user's id, role, join date or produce interests (`MergeUser` is the spread) |
| UserService.EmptyPatchIsIdentity | copy-of-harvesthub-ai/services/userService.ts:17 | an update with no keys leaves the user unchanged |
| UserService.SyncMirrorsTruthyFields | copy-of-harvesthub-ai/services/userService.ts:22-24 | only a non-empty farm name, story or picture is copied into the profile; everything else in it stays (`SyncProfile` is the copy) |
| UserService.NonFarmerLeavesProfiles | copy-of-harvesthub-ai/services/userService.ts:19 | updating a non-farmer never touches the profile table |
| UserService.SyncTouchesOnlyOwnProfile | copy-of-harvesthub-ai/services/userService.ts:20-24 | no other farmer's profile changes |
| UserService.FarmProfileByFarmerId | copy-of-harvesthub-ai/services/userService.ts:32-42 | the farmer's first stored profile with only its listings replaced, by exactly the live active ones in table order, or nothing when there is no profile |
| UserService.NewActiveListingLeadsProfile | copy-of-harvesthub-ai/services/userService.ts:38 | an active listing just added at the front leads the farmer's profile listings |
| UserService.Recommendations | copy-of-harvesthub-ai/services/userService.ts:45-54 | nothing for an unknown buyer, otherwise the first (at most) two stored profiles in order |
| AuthContext.NewUser | copy-of-harvesthub-ai/contexts/AuthContext.tsx:67-71 | the registered record: the request's fields, a `user-` id and the creation time |
| AuthContext.UserByEmail | copy-of-harvesthub-ai/contexts/AuthContext.tsx:46 | the first user with the e-mail, or nothing exactly when no user has it |
| AuthContext.AuthState.constructor | copy-of-harvesthub-ai/contexts/AuthContext.tsx:21-22 | nobody signed in, still loading |
| AuthContext.AuthState.RestoreSession | copy-of-harvesthub-ai/contexts/AuthContext.tsx:25-40 | a readable stored user is restored, an unreadable entry removed; loading ends |
| AuthContext.AuthState.Login | copy-of-harvesthub-ai/contexts/AuthContext.tsx:42-57 | the first user with the e-mail signs in and is saved, with no password check; an unknown e-mail changes nothing; loading ends |
| AuthContext.AuthState.Register | copy-of-harvesthub-ai/contexts/AuthContext.tsx:59-77 | a taken e-mail is refused with its error and nothing changes; otherwise the new user is appended, signed in and saved; loading ends |
| AuthContext.AuthState.Logout | copy-of-harvesthub-ai/contexts/AuthContext.tsx:79-84 | nobody signed in and the stored session removed |
| AuthContext.AuthState.UpdateUserContext | copy-of-harvesthub-ai/contexts/AuthContext.tsx:86-89 | the given user is signed in and saved |
| AuthContext.RegisterKeepsEmailsUnique | copy-of-harvesthub-ai/contexts/AuthContext.tsx:62-72 | registration keeps e-mail addresses unique |
| AuthContext.RegisteredUserCanLogIn | copy-of-harvesthub-ai/contexts/AuthContext.tsx:46 | after registering, logging in with the same e-mail finds the new user |
| RegistrationPage.PasswordError | copy-of-harvesthub-ai/pages/RegistrationPage.tsx:49-56 | no error exactly when the passwords match and have at least 6 characters; a mismatch is reported before the length |
| RegistrationPage.UserDataFor | copy-of-harvesthub-ai/pages/RegistrationPage.tsx:58-69 | farm fields only for farmers, business fields only for buyers, a picture seeded by the e-mail (`SeededPicture`) |
| RegistrationPage.RegistrationForm.constructor | copy-of-harvesthub-ai/pages/RegistrationPage.tsx:18-31 | the handed-over role (else buyer), blank fields, no messages (`InitialRole`) |
| RegistrationPage.RegistrationForm.ToggleRole | copy-of-harvesthub-ai/pages/RegistrationPage.tsx:90-100 | the new role; its own fields kept, the other role's fields blanked, the rest untouched |
| RegistrationPage.RegistrationForm.HandleSubmit | copy-of-harvesthub-ai/pages/RegistrationPage.tsx:44-88 | a password problem is shown without registering and leaves the auth context untouched (user, stored session, loading); a duplicate e-mail shows the error and keeps user and session; otherwise the new user is appended, signed in and saved, the welcome (`WelcomeText`) is shown and the page goes to the role's dashboard (`HomeFor`); loading ends whenever the context was called |
| RegistrationPage.HomeFor | copy-of-harvesthub-ai/pages/RegistrationPage.tsx:77-82 | a new farmer goes to the farmer-only dashboard and anyone else to the buyer-only one; for a farmer or buyer this is the guard's home |
| AppRoutes.Guard | copy-of-harvesthub-ai/App.tsx:28-47 | loading shows the placeholder; a visitor goes to login; the page renders exactly for a signed-in user of the required role (if any); a wrong role goes to its own home |
| AppRoutes.HomeOf | copy-of-harvesthub-ai/App.tsx:39-43 | a farmer's and a buyer's home is a page for that role only; a user without a role goes to a public page |
| AppRoutes.RolePagesRenderOnlyForTheirRole | copy-of-harvesthub-ai/App.tsx:71-80 | a farmer page renders only for a signed-in farmer, a buyer page only for a signed-in buyer (`RouteAccess` is the route table, `Visit` the guard applied to it) |
| AppRoutes.RedirectsLandOnOpenPages | copy-of-harvesthub-ai/App.tsx:35-44 | every redirect of the guard lands on a page that renders for that session |
| AppRoutes.VisitorsNeverSeeGuardedPages | copy-of-harvesthub-ai/App.tsx:71-86 | no guarded route renders for a visitor who is not signed in |
| ProduceListingForm.InitialData | copy-of-harvesthub-ai/pages/ProduceListingForm.tsx:24-37 | a blank form: first category and unit, price 0, quantity 1, active, available from today, the user's location or "" |
| ProduceListingForm.DatePart | copy-of-harvesthub-ai/pages/ProduceListingForm.tsx:60-61 | the text before the first `T`, or the whole text when there is none |
| ProduceListingForm.FromListing | copy-of-harvesthub-ai/pages/ProduceListingForm.tsx:56-64 | the form takes the stored listing's fields, dates cut to their date part |
| ProduceListingForm.Validate | copy-of-harvesthub-ai/pages/ProduceListingForm.tsx:172-175 | valid exactly when name, category and location are non-empty and price and quantity are positive |
| ProduceListingForm.DefaultImageNeverApplied | copy-of-harvesthub-ai/pages/ProduceListingForm.tsx:197 | as written, an empty photo list is submitted empty, without the default image (`SubmissionAsWritten` is the record as the code builds it) |
| ProduceListingForm.PhotosOrDefault | copy-of-harvesthub-ai/pages/ProduceListingForm.tsx:197 | the saved photos are never empty: the given ones, or the default image alone |
| ProduceListingForm.Submission | copy-of-harvesthub-ai/pages/ProduceListingForm.tsx:187-201 | the submitted record as written, except that it always carries a photo |
| ProduceListingForm.ListingForm.constructor | copy-of-harvesthub-ai/pages/ProduceListingForm.tsx:24-44 | the blank form with empty inputs and no messages |
| ProduceListingForm.ListingForm.LoadForEdit | copy-of-harvesthub-ai/pages/ProduceListingForm.tsx:50-68 | only a listing owned by the user fills the form; a missing or foreign one sets the error and redirects |
| ProduceListingForm.ListingForm.AddTag | copy-of-harvesthub-ai/pages/ProduceListingForm.tsx:91-96 | a non-blank, new, trimmed and lower-cased tag is appended; the input is always cleared; nothing else changes (`TagOf` is the tag the input adds) |
| ProduceListingForm.ListingForm.RemoveTag | copy-of-harvesthub-ai/pages/ProduceListingForm.tsx:98-100 | every copy of the tag is removed, the others keep their order |
| ProduceListingForm.ListingForm.AddPhotoUrl | copy-of-harvesthub-ai/pages/ProduceListingForm.tsx:106-118 | a new non-blank URL is appended trimmed when the raw input starts with a web scheme; otherwise the error is shown and the input kept; blank or repeated input just clears it (`WebUrl` is the scheme test) |
| ProduceListingForm.ListingForm.RemovePhoto | copy-of-harvesthub-ai/pages/ProduceListingForm.tsx:120-122 | every copy of the URL is removed, the others keep their order |
| ProduceListingForm.ListingForm.Submit | copy-of-harvesthub-ai/pages/ProduceListingForm.tsx:165-222 | refused with nothing saved without a user, on invalid data, or when photo-less saving is declined; otherwise a new listing goes to the front of the table or the edited one is updated, with the success text and redirect; the saved photos are the corrected ones (see Findings); the success text is `SuccessText` |
| ProduceListingForm.AddTagKeepsTagsDistinct | copy-of-harvesthub-ai/pages/ProduceListingForm.tsx:92-93 | adding a tag never creates a duplicate |
| ProduceListingForm.SavedListingIsValid | copy-of-harvesthub-ai/pages/ProduceListingForm.tsx:172-208 | a listing saved from valid data meets the validation rules and belongs to the submitting farmer; with the corrected submission it also has a photo |
| ProduceListingForm.RemoveTagExact | copy-of-harvesthub-ai/pages/ProduceListingForm.tsx:99 | after removal the tag is gone and every other tag remains |
| MyProducePage.FilteredProduce | copy-of-harvesthub-ai/pages/MyProducePage.tsx:77-79 | exactly the listings of the chosen status whose name or category contains the term (any case), in order |
| MyProducePage.NoFilterShowsAll | copy-of-harvesthub-ai/pages/MyProducePage.tsx:77-79 | "All Statuses" with an empty search shows every listing |
| MyProducePage.EmptyStateText | copy-of-harvesthub-ai/pages/MyProducePage.tsx:144 | no text while rows show; otherwise "no listings yet" exactly when the list is empty, "no matches" exactly when it is not |
| MyProducePage.ReplaceById | copy-of-harvesthub-ai/pages/MyProducePage.tsx:67 | every row with the id is replaced by the updated record, the others unchanged |
| MyProducePage.MyProduceView.constructor | copy-of-harvesthub-ai/pages/MyProducePage.tsx:17-21 | empty list, all statuses, empty search |
| MyProducePage.MyProduceView.Fetch | copy-of-harvesthub-ai/pages/MyProducePage.tsx:24-37 | the list becomes the farmer's listings; nothing without a user |
| MyProducePage.MyProduceView.HandleDelete | copy-of-harvesthub-ai/pages/MyProducePage.tsx:47-60 | after confirmation the listing is deleted and the list loses exactly the rows with the id; list and table stay in sync |
| MyProducePage.MyProduceView.HandleToggleStatus | copy-of-harvesthub-ai/pages/MyProducePage.tsx:62-74 | the table is updated and the returned record replaces the rows with the id; list and table stay in sync |
| MyProducePage.RemoveAtIsFilter | copy-of-harvesthub-ai/pages/MyProducePage.tsx:52 | with unique ids, splicing out the listing is filtering its id out |
| MyProducePage.DeleteStaysInSync | copy-of-harvesthub-ai/pages/MyProducePage.tsx:51-52 | deleting in the table and filtering the list give the same farmer's list |
| MyProducePage.UpdateStaysInSync | copy-of-harvesthub-ai/pages/MyProducePage.tsx:65-67 | updating in the table and replacing in the list give the same farmer's list |
| MyProducePage.ReplaceAbsent | copy-of-harvesthub-ai/pages/MyProducePage.tsx:67 | replacing an id that does not occur changes nothing |
| ProduceListItem.Thumbnail | copy-of-harvesthub-ai/components/ProduceListItem.tsx:16 | the first photo, or the default image when there is none |
| ProduceListItem.SoldOutLabel | copy-of-harvesthub-ai/components/ProduceListItem.tsx:40 | the sold-out badge reads "SOLD OUT" (`StatusLabel` is the badge text) |
| ProduceListItem.PlainLabel | copy-of-harvesthub-ai/components/ProduceListItem.tsx:40 | the other badges are the status text in capitals (`StatusLabel` is the badge text) |
| ProduceListItem.Actions | copy-of-harvesthub-ai/components/ProduceListItem.tsx:44-49 | Edit first and Delete last always; "Mark Sold Out" exactly for active, "Relist" exactly for sold out |
| ProduceListItem.StatusButtonIsAToggle | copy-of-harvesthub-ai/components/ProduceListItem.tsx:45-48 | the status button leads to a different status whose button leads back |
| ProduceListItem.NoToggleForExpiredOrDraft | copy-of-harvesthub-ai/components/ProduceListItem.tsx:44-49 | expired and draft listings offer only Edit and Delete |
| MessagingPage.UserConversations | copy-of-harvesthub-ai/pages/MessagingPage.tsx:34-36 | exactly the user's conversations, newest update first |
| MessagingPage.ConversationMessages | copy-of-harvesthub-ai/pages/MessagingPage.tsx:82-84 | the conversation's messages, each as often as in the table, oldest first |
| MessagingPage.RecipientName | copy-of-harvesthub-ai/pages/MessagingPage.tsx:61 | the handed-over name, else the stored user's name, else "Unknown User"; never empty |
| MessagingPage.TemporaryConversation | copy-of-harvesthub-ai/pages/MessagingPage.tsx:55-66 | a `new-` conversation between the user and the recipient, named for both, with no last message |
| MessagingPage.ExistingWith | copy-of-harvesthub-ai/pages/MessagingPage.tsx:46-49 | the first conversation with the recipient (about the named listing, if any), or none exactly when there is none |
| MessagingPage.OtherParticipant | copy-of-harvesthub-ai/pages/MessagingPage.tsx:105 | the first participant other than the user, or none when the user is alone |
| MessagingPage.TemporaryConversationShowsRecipient | copy-of-harvesthub-ai/pages/MessagingPage.tsx:56-61 | the prepared conversation has the recipient as its other participant and shows them under the chosen name; an empty (falsy) recipient id shows the fallback instead (`OtherName` is the shown name) |
| MessagingPage.TouchById | copy-of-harvesthub-ai/pages/MessagingPage.tsx:139 | the conversation with the id gets the new last message and time, the others are unchanged |
| MessagingPage.ConversationIndex | copy-of-harvesthub-ai/pages/MessagingPage.tsx:144 | the first index with the id, or -1 when none has it |
| MessagingPage.MessagingView.constructor | copy-of-harvesthub-ai/pages/MessagingPage.tsx:20-26 | nothing listed or active, an empty draft, loading |
| MessagingPage.MessagingView.Init | copy-of-harvesthub-ai/pages/MessagingPage.tsx:30-76 | without a user nothing changes; otherwise the user's conversations are listed and the first conversation opens as in `OpenInitial`, with the address and the messages left alone wherever that does not set them |
| MessagingPage.MessagingView.LoadConversations | copy-of-harvesthub-ai/pages/MessagingPage.tsx:32-37 | the list becomes the user's conversations, newest first, and every one of them involves the user |
| MessagingPage.MessagingView.OpenInitial | copy-of-harvesthub-ai/pages/MessagingPage.tsx:41-73 | opens the route's conversation (or none), else an existing or a temporary one with the hand-over's recipient, else the newest; the address moves only to an opened existing or newest conversation and the messages are cleared only for a temporary one, both staying as they were on every other branch |
| MessagingPage.MessagingView.LoadMessages | copy-of-harvesthub-ai/pages/MessagingPage.tsx:79-89 | a stored conversation's messages oldest first; none for a temporary one |
| MessagingPage.MessagingView.SelectConversation | copy-of-harvesthub-ai/pages/MessagingPage.tsx:96-99 | the chosen conversation becomes active and the address shows its id |
| MessagingPage.MessagingView.SendMessage | copy-of-harvesthub-ai/pages/MessagingPage.tsx:100-151 | nothing happens unless a user, an open conversation with someone else whose id is not empty, and a non-blank draft exist (`CanSend`); otherwise the message is appended to the table and the page, the conversation is stored or touched (`TableAfterSend`, `ListAfterSend`), the draft cleared, and a first message navigates to the new conversation's address; the address stays otherwise and loading never changes |
| MessagingPage.MessagingView.Deliver | copy-of-harvesthub-ai/pages/MessagingPage.tsx:108-148 | once the page can send: the new message, table, list, open conversation and draft, and the `convo-` address for a first message |
| MessagingPage.Outgoing | copy-of-harvesthub-ai/pages/MessagingPage.tsx:108-116 | the message from the user to the other participant with the text, the time and `read` false, in a fresh `convo-` conversation for a temporary one |
| MessagingPage.Stored | copy-of-harvesthub-ai/pages/MessagingPage.tsx:122-127 | the conversation after a send carries the message's conversation id, the message as last message and its time |
| MessagingPage.OutgoingIsBetweenParticipants | copy-of-harvesthub-ai/pages/MessagingPage.tsx:103-116 | every sent message goes from the user to another participant with a non-empty id, with the trimmed, non-blank draft, unread |
| MessagingPage.SendKeepsLinked | copy-of-harvesthub-ai/pages/MessagingPage.tsx:129-148 | a send keeps every stored conversation's last message in the message table, pointing back to it (through `TableAfterSend`) |
| MessagingPage.SendKeepsListMine | copy-of-harvesthub-ai/pages/MessagingPage.tsx:132-142 | after a send the page still lists only the user's conversations |
| MessagingPage.AppendMatchesReload | copy-of-harvesthub-ai/pages/MessagingPage.tsx:119 | appending the newest message locally shows what reloading the conversation would |
| MessagingPage.TouchedConversationFirst | copy-of-harvesthub-ai/pages/MessagingPage.tsx:138-141 | after a reply newer than every other update, its conversation heads the re-sorted list |
| NotificationCenter.VisibleFor | copy-of-harvesthub-ai/pages/NotificationCenterPage.tsx:35-36 | exactly the notifications addressed to the user plus every tip and welcome, newest first |
| NotificationCenter.MarkRead | copy-of-harvesthub-ai/pages/NotificationCenterPage.tsx:41-46 | only the rows with the id are marked read; length and order stay |
| NotificationCenter.MarkAll | copy-of-harvesthub-ai/pages/NotificationCenterPage.tsx:48-50 | every row is marked read; length and order stay |
| NotificationCenter.Filtered | copy-of-harvesthub-ai/pages/NotificationCenterPage.tsx:52-54 | "all" shows every row; "unread" shows exactly the unread ones, in order |
| NotificationCenter.EmptyText | copy-of-harvesthub-ai/pages/NotificationCenterPage.tsx:117 | the caught-up text shows exactly when no row shows |
| NotificationCenter.NotificationCenterView.constructor | copy-of-harvesthub-ai/pages/NotificationCenterPage.tsx:27-29 | no rows, loading, showing all |
| NotificationCenter.NotificationCenterView.Load | copy-of-harvesthub-ai/pages/NotificationCenterPage.tsx:31-39 | the user's visible set, nothing without a user; loading ends |
| NotificationCenter.NotificationCenterView.MarkAsRead | copy-of-harvesthub-ai/pages/NotificationCenterPage.tsx:41-46 | the page's rows with the id are marked read |
| NotificationCenter.NotificationCenterView.MarkAllAsRead | copy-of-harvesthub-ai/pages/NotificationCenterPage.tsx:48-50 | every row is marked read, so the button and the unread rows disappear |
| NotificationCenter.NotificationCenterView.SetFilter | copy-of-harvesthub-ai/pages/NotificationCenterPage.tsx:81 | the chosen filter |
| NotificationCenter.MarkReadOnlyTouchesId | copy-of-harvesthub-ai/pages/NotificationCenterPage.tsx:43 | marking changes nothing but the read flag, and only of rows with the id |
| NotificationCenter.MarkReadUnread | copy-of-harvesthub-ai/pages/NotificationCenterPage.tsx:41-54 | after marking, the unread rows are the old unread rows without the id |
| NotificationCenter.MarkReadIdempotent | copy-of-harvesthub-ai/pages/NotificationCenterPage.tsx:43 | marking the same notification twice is marking it once |
| NotificationCenter.MarkAllClearsUnread | copy-of-harvesthub-ai/pages/NotificationCenterPage.tsx:48-54 | after marking all, nothing is unread and the unread filter lists nothing |
| NotificationCenter.MarkAllIdempotent | copy-of-harvesthub-ai/pages/NotificationCenterPage.tsx:49 | marking all twice is marking all once |
| NotificationCenter.MarkAllOfferedIffUnreadShown | copy-of-harvesthub-ai/pages/NotificationCenterPage.tsx:71 | "Mark All as Read" shows exactly when the unread filter would list something |
| NotificationCenter.MarkedRowOffersNoButton | copy-of-harvesthub-ai/pages/NotificationCenterPage.tsx:107 | after marking, no row with the id offers "Mark as Read" |
| Connections.CounterpartsMeaning | copy-of-harvesthub-ai/pages/BuyerConnectionsPage.tsx:35-42 | an id is a counterpart exactly when it is another participant of one of the user's conversations |
| Connections.NotOwnCounterpart | copy-of-harvesthub-ai/pages/BuyerConnectionsPage.tsx:39 | the user is never their own counterpart |
| Connections.CollectCounterparts | copy-of-harvesthub-ai/pages/BuyerConnectionsPage.tsx:35-42 | the nested `forEach` passes fill exactly the counterpart set |
| Connections.Relevant | copy-of-harvesthub-ai/pages/BuyerConnectionsPage.tsx:47-49 | the first conversation of the list shared by both, or none exactly when they share none |
| Connections.LastInteraction | copy-of-harvesthub-ai/pages/BuyerConnectionsPage.tsx:56 | the shared conversation's update time, present exactly when there is one |
| Connections.MapSeq | copy-of-harvesthub-ai/pages/BuyerConnectionsPage.tsx:50 | one record per user, position by position |
| Connections.MapSeqConcat | copy-of-harvesthub-ai/pages/BuyerConnectionsPage.tsx:45-60 | mapping a concatenation is concatenating the mapped parts |
| Connections.Connected | copy-of-harvesthub-ai/pages/BuyerConnectionsPage.tsx:44-60 | no more records than users |
| Connections.ConnectedMembers | copy-of-harvesthub-ai/pages/FarmerConnectionsPage.tsx:41-56 | the records are exactly those of the users of the role among the counterparts |
| Connections.CollectConnections | copy-of-harvesthub-ai/pages/FarmerConnectionsPage.tsx:41-56 | the `forEach` over the users pushes exactly the records of the eligible users, in table order |
| Connections.FilterKeepsUniqueIds | copy-of-harvesthub-ai/pages/BuyerConnectionsPage.tsx:46 | filtering users keeps their ids unique |
| Connections.ConnectedOncePerUser | copy-of-harvesthub-ai/pages/BuyerConnectionsPage.tsx:45-60 | with unique user ids, each counterpart gets one record |
| BuyerConnectionsPage.CardFor | copy-of-harvesthub-ai/pages/BuyerConnectionsPage.tsx:47-58 | the farmer's card: "New Message" exactly when the shared conversation's last message is the farmer's and unread, else "Viewed" |
| BuyerConnectionsPage.FarmerConnections | copy-of-harvesthub-ai/pages/BuyerConnectionsPage.tsx:44-63 | exactly the cards of the farmers among the buyer's counterparts, newest interaction first (a missing date counts as 0) |
| BuyerConnectionsPage.CardFallbacks | copy-of-harvesthub-ai/pages/BuyerConnectionsPage.tsx:52-55 | a missing farm name or location reads "A Local Farm" or "Unknown Location"; no card has an empty farm name, location or picture |
| BuyerConnectionsPage.OneCardPerFarmer | copy-of-harvesthub-ai/pages/BuyerConnectionsPage.tsx:45-63 | with unique user ids every farmer has one card |
| BuyerConnectionsPage.NoSelfConnection | copy-of-harvesthub-ai/pages/BuyerConnectionsPage.tsx:39 | the buyer never appears among their own cards |
| BuyerConnectionsPage.Render | copy-of-harvesthub-ai/pages/BuyerConnectionsPage.tsx:70-80 | cards exactly for a signed-in buyer; the buyers-only warning exactly for another role |
| BuyerConnectionsPage.BuyerConnectionsView.constructor | copy-of-harvesthub-ai/pages/BuyerConnectionsPage.tsx:29-30 | no cards, loading |
| BuyerConnectionsPage.BuyerConnectionsView.Load | copy-of-harvesthub-ai/pages/BuyerConnectionsPage.tsx:32-68 | a signed-in buyer gets the farmer connections; anyone else keeps the old list; loading ends |
| FarmerConnectionsPage.CardFor | copy-of-harvesthub-ai/pages/FarmerConnectionsPage.tsx:44-54 | the buyer's card: "New Inquiry" exactly when the shared conversation's last message is the buyer's and unread, else "Responded" |
| FarmerConnectionsPage.BuyerConnections | copy-of-harvesthub-ai/pages/FarmerConnectionsPage.tsx:41-59 | exactly the cards of the buyers among the farmer's counterparts, newest interaction first |
| FarmerConnectionsPage.CardNames | copy-of-harvesthub-ai/pages/FarmerConnectionsPage.tsx:49-50 | the business name, else the person's name; the business type, else "Individual Buyer" |
| FarmerConnectionsPage.OneCardPerBuyer | copy-of-harvesthub-ai/pages/FarmerConnectionsPage.tsx:42-59 | with unique user ids every buyer has one card |
| FarmerConnectionsPage.NoSelfConnection | copy-of-harvesthub-ai/pages/FarmerConnectionsPage.tsx:36 | the farmer never appears among their own cards |
| FarmerConnectionsPage.Avatar | copy-of-harvesthub-ai/pages/FarmerConnectionsPage.tsx:88 | the stored picture, else an avatar address that contains the buyer's id |
| FarmerConnectionsPage.Render | copy-of-harvesthub-ai/pages/FarmerConnectionsPage.tsx:65-75 | cards exactly for a signed-in farmer; the farmers-only warning exactly for another role |
| FarmerConnectionsPage.FarmerConnectionsView.constructor | copy-of-harvesthub-ai/pages/FarmerConnectionsPage.tsx:26-27 | no cards, loading |
| FarmerConnectionsPage.FarmerConnectionsView.Load | copy-of-harvesthub-ai/pages/FarmerConnectionsPage.tsx:29-63 | a signed-in farmer gets the buyer connections; anyone else keeps the old list; loading ends |
| HelpPage.FilteredFaqs | copy-of-harvesthub-ai/pages/HelpPage.tsx:67-70 | every question for an empty term, else exactly those whose question or answer contains it (any case), in order |
| HelpPage.EmptyTermShowsEverything | copy-of-harvesthub-ai/pages/HelpPage.tsx:95-103 | with an empty box every section lists all its questions |
| HelpPage.SectionShowsItsMatches | copy-of-harvesthub-ai/pages/HelpPage.tsx:95-103 | a section lists exactly its own matching questions, in its own order |
| HelpPage.NoResultsIffSectionsEmpty | copy-of-harvesthub-ai/pages/HelpPage.tsx:89-103 | "No FAQs found" shows exactly when a term is typed and no section lists anything |
| HelpPage.NothingShown | copy-of-harvesthub-ai/pages/HelpPage.tsx:95 | when nothing matches, a section lists nothing |
| HelpPage.SearchIgnoresCase | copy-of-harvesthub-ai/pages/HelpPage.tsx:69 | searching for the lower-cased term finds the same questions |
| HelpPage.WithField | copy-of-harvesthub-ai/pages/HelpPage.tsx:55 | the named contact field takes the value, the others stay |
| HelpPage.HelpView.constructor | copy-of-harvesthub-ai/pages/HelpPage.tsx:50-52 | empty search, empty contact form, not submitted |
| HelpPage.HelpView.Search | copy-of-harvesthub-ai/pages/HelpPage.tsx:85 | the typed term |
| HelpPage.HelpView.ContactChange | copy-of-harvesthub-ai/pages/HelpPage.tsx:54-56 | the contact form with the named field changed |
| HelpPage.HelpView.ContactSubmit | copy-of-harvesthub-ai/pages/HelpPage.tsx:58-64 | the form is replaced by the thank-you note |

## Left out

- The AI features in `services/geminiService.ts` (price suggestions, generated descriptions, market insights) are not part of this model. They are foreign API calls, so the listing form's "suggest a price" and "generate a description" buttons are left out with them.
- Simulated latency (`delay`, `setTimeout`) is left out: every service call is synchronous. Nothing runs concurrently, and the spinners that cover waiting are left out.
- Browser storage is reduced to a three-valued `StoredSession` (nothing, a user, unreadable); JSON encoding and date re-parsing are not modelled.
- Ids and clocks: `Date.now()` and `new Date()` become the parameters `stamp` and `now` (integers). ISO date text is cut at its `T` without any calendar computation, and the default "available from" date is a parameter.
- Prices are whole cents. `parseFloat`, `toFixed` and floating-point comparison are not modelled.
- Case mapping is ASCII only (JavaScript's `toLowerCase`/`toUpperCase` also map other letters). White space for `trim` is the ECMAScript WhiteSpace and LineTerminator set. Strings are sequences of characters rather than UTF-16 code units.
- The generic `handleChange` setters of the forms, and the search-box and filter setters of MyProducePage, are plain field assignments. They are not modelled except where a page's class has the field.
- Rendering (JSX), `navigate` and `scrollIntoView` are left out. A page's redirect is a `redirect` or `url` field, and `window.confirm` answers are boolean parameters.
- The browser's `required` checks on the help contact form and `console.log` are left out.
- The seed rows of users, produce and notifications in `services/mockData.ts` are constructor parameters. The seeded conversations and messages are modelled literally, since the linking invariant is about them.
- Sorting is modelled on values, not as in-place reordering of the array, and as a stable sort (which ECMAScript requires).
- `includes(faq)` in `HelpPage.tsx` compares object references; the model compares values. The FAQ lists hold no two equal entries, so the results agree.
- Object aliasing is not modelled. In the source, the seeded conversations share objects with the message table, and the messaging page assigns `lastMessage`/`updatedAt` on the stored conversation object in place. The model replaces that table entry by an updated value instead.
- MessagingPage.MessagingView.SendMessage: its contract states the new state through `TableAfterSend` and `ListAfterSend`; the invariants those keep are the separate lemmas `SendKeepsLinked` and `SendKeepsListMine`.
- NotificationCenter.NotificationCenterView.MarkAsRead: marks the page's copy only, as the source does; the notification table is never changed.
- ProducePatch and UserPatch hold only the keys the pages send. These are the listing form's draft fields, the status toggle and the profile page's fields. The spreads `{...p, ...updates}` (produceService.ts:61) and `{...u, ...updates}` (userService.ts:17) would overwrite any key of a `Partial<T>`. So `Merge` keeping id, names, counters and creation time, and `MergeKeepsIdentity`, hold for those callers, not for an arbitrary partial record.
- ProduceListingForm.ListingForm.Submit: saves the corrected submission (`Submission`, which puts the default image into an empty photo list). The program as written saves `photos: []` in that case, as `SubmissionAsWritten` and `DefaultImageNeverApplied` show (see Findings). `SavedListingIsValid`'s photo clause is about the corrected submission.
- The other pages (dashboards, marketplace, produce detail, farmer profile, user profile, login, landing, about, not found) and the presentational components are not part of this model.

## Findings

| source | as written | input that shows it | evidently intended | confidence | as-written member | corrected member |
|---|---|---|---|---|---|---|
| copy-of-harvesthub-ai/pages/ProduceListingForm.tsx:197 | `photos: formData.photos \|\| [DEFAULT_PRODUCE_IMAGE]` never uses the default, because an empty array is truthy in JavaScript | a valid form with `photos == []`, and the "continue without photos?" question answered yes: the listing is saved with no photo | a listing saved without photos gets the default image (the comment says "Default image if none provided") | high, not executed | ProduceListingForm.DefaultImageNeverApplied | ProduceListingForm.PhotosOrDefault |
