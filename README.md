# Bella Vista restaurant site — a Dafny model of its data handling

The site has public sections (menu, gallery, testimonials) and an admin panel
that manages four resources: menu items, reservations, gallery images and
testimonials. This project models the logic behind them:

- **the mock data layer** (`lib/adminData.ts`). Each resource keeps a list in
  localStorage under its own key and offers `getAll`, `create`, `update` and
  `delete`. The dashboard counts are derived from the four lists. The store is
  the class `AdminData.AdminStore`. Its state is a map from storage key to
  `Some(list)` or `None`; `None` is stored text that does not parse. There is
  also a flag for server-side rendering, where no window exists. The ids
  (`Date.now()`) and the current day (`new Date()`) are method parameters;
- **the admin page controller** (`app/admin/page.tsx`). It holds the page state
  record, the dashboard counts and the list updates each panel applies when a
  request settles. A request's outcome (`Reply`) is a parameter;
- **the public sections**. These are the testimonials carousel (the class
  `TestimonialsSection.Carousel`), the gallery lightbox (the class
  `GallerySection.Gallery`) and the menu's category filter. All three
  normalise fetched records with defaults;
- **the admin login state** (`hooks/useAuth.ts`, the class `Auth.Session`) and
  **the layout's redirect rule** (`app/admin/layout.tsx`).

Records are modelled as JavaScript objects (`Json.Record`, a map from field name
to `Json.Value`), because the code treats them that way:
- `o.k` is `Field(o, k)`, which is `undefined` when the field is missing;
- `{...a, ...b}` is the map union `a + b`;
- `a || b` is `Or(a, b)`, which follows JavaScript truthiness;
- `===` on ids and statuses is value equality.

Each entity's shape is a constructor function (`AdminData.MenuItem`,
`AdminData.Reservation`, …) used for the seeded lists. The JavaScript array
methods the code uses (`filter`, `map` with a merge or a replacement, `find`,
`findIndex`) are in `RecordLists`, together with their properties.

Where the written design and the code disagree, the model follows the code:
- the code does no validation, so there is no `ValidationError`;
- ids are timestamps, not guaranteed unique, so uniqueness after `create` is
  proved only when the new id is fresh;
- any status can be written by `update`;
- an `update` whose fields change the `id` persists the change and then throws
  "not found" (`AdminData.UpdateMovingIdThrows`).

## Model

| member | source | states |
|---|---|---|
| `RecordLists.Where` | lib/adminData.ts:117 | `filter` on one field: a record is in the result iff it is in the list and passes; the result is no longer than the list |
| `RecordLists.WhereIsSubsequence` | lib/adminData.ts:117 | the filtered records keep their original order |
| `RecordLists.WhereMultiplicity` | lib/adminData.ts:117 | each surviving record occurs as often as before, and each dropped one not at all |
| `RecordLists.WhereCommute` | lib/adminData.ts:117 | removing by two values gives the same list in either order |
| `RecordLists.WhereKeepsAll` | lib/adminData.ts:117 | a filter that every entry passes returns the list unchanged |
| `RecordLists.WhereIdempotent` | components/sections/MenuSection.tsx:98 | filtering twice by the same test is filtering once |
| `RecordLists.WhereAppend` | lib/adminData.ts:97 | filtering distributes over appending |
| `RecordLists.MergeWhere` | lib/adminData.ts:105-107 | the `map` with `{...item, ...updates}`: same length; records with another id unchanged; matching records become `old + updates` |
| `RecordLists.ReplaceWhere` | app/admin/page.tsx:269 | the `map` that swaps in the reply: same length; non-matching entries unchanged; matching entries become the reply |
| `RecordLists.FindIndex` | components/sections/GallerySection.tsx:78 | `findIndex`: -1 iff nothing matches; otherwise the first matching position |
| `RecordLists.FindIndexIsFirst` | components/sections/GallerySection.tsx:78 | a matching position with no match before it is the one `findIndex` reports |
| `RecordLists.FindIndexOfUnique` | components/sections/GallerySection.tsx:78 | with unique values, searching for an entry's own value finds that entry |
| `RecordLists.Find` | lib/adminData.ts:109 | `find`: none iff nothing matches; otherwise the first entry of the list that matches |
| `RecordLists.AppendFreshKeepsUnique` | lib/adminData.ts:96-97 | appending a record with a fresh value keeps the values unique |
| `RecordLists.SubsequenceOfItself` | components/sections/MenuSection.tsx:96-97 | the unfiltered list trivially keeps its order |
| `RecordLists.MapRecords` | components/sections/MenuSection.tsx:84 | `map`: same length, the function applied at every position |
| `RecordLists.ReplaceIfNonEmpty` | components/sections/MenuSection.tsx:79-94 | the mount fetch of every public section (also GallerySection.tsx:52-68, TestimonialsSection.tsx:63-82): only a non-empty fetched array replaces the shown list, by its normalised records in the same order; otherwise, rejection included, the list stays; a non-empty list stays non-empty |
| `AdminData.StorageKeysDistinct` | lib/adminData.ts:90 | the four resources use four different storage keys |
| `AdminData.OtherKeys` | lib/adminData.ts:126 | no other resource shares a resource's key |
| `AdminData.IsoDay` | lib/adminData.ts:207 | the day stamp is ten characters `YYYY-MM-DD`: digits with dashes at positions 4 and 7 |
| `AdminData.IsoDayRoundTrip` | lib/adminData.ts:207 | the stamp parses back to the day it was written from |
| `AdminData.FourDigits` | lib/adminData.ts:207 | a year below 10000 is its four decimal digits |
| `AdminData.TwoDigits` | lib/adminData.ts:207 | a month or day is its two decimal digits |
| `AdminData.Stamped` | lib/adminData.ts:204-208 | the created record has `id` = the timestamp and, for a testimonial, `date` = today's stamp; these override caller fields; every other caller field is kept and no other key is added |
| `AdminData.UpdateOutcome` | lib/adminData.ts:109-111 | `update` throws the resource's "not found" message iff no record in the written list has the id; otherwise it returns a record with that id |
| `AdminData.UpdatePresent` | lib/adminData.ts:105-111 | on a present id, with updates that keep `id`: returns the first matching record merged; unlisted fields keep old values; listed fields take the new ones |
| `AdminData.UpdateAbsent` | lib/adminData.ts:105-111 | on an absent id: the written list equals the old list and the call throws "not found" |
| `AdminData.UpdateMovingIdThrows` | lib/adminData.ts:102-112 | updates that move the record to an unused id change the written list but still throw "not found" |
| `AdminData.DeleteAbsent` | lib/adminData.ts:114-119 | deleting an absent id leaves the list unchanged |
| `AdminData.DeleteUndoesCreate` | lib/adminData.ts:93-119 | deleting the fresh id of a just-created record gives back the list from before the creation |
| `AdminData.CreateKeepsIdsUnique` | lib/adminData.ts:96-97 | with a fresh timestamp, unique ids stay unique after `create` |
| `AdminData.Pending` | lib/adminData.ts:243 | exactly the reservations whose status is 'pending', each as often as in the list |
| `AdminData.StatsOf` | lib/adminData.ts:243-252 | totalReservations is the number of reservations; pendingReservations is the number of pending ones and is at most the total; the other counts are list lengths |
| `AdminData.AdminStore.constructor` | lib/adminData.ts:66-75 | the store starts from the given storage and window flag |
| `AdminData.AdminStore.Load` | lib/adminData.ts:67-75 | `getFromStorage`: the stored list when a window exists and the key holds parseable text; otherwise the default |
| `AdminData.AdminStore.Save` | lib/adminData.ts:77-84 | writes the list under the key, and only when a window exists |
| `AdminData.AdminStore.GetAll` | lib/adminData.ts:67-91 | returns the stored list when it exists and parses; otherwise (missing, unparseable, no window) the seed |
| `AdminData.AdminStore.Create` | lib/adminData.ts:93-100 | returns the stamped record; the stored list becomes the old list plus that record at the end; other resources are unchanged |
| `AdminData.AdminStore.Update` | lib/adminData.ts:102-112 | writes back the merge-by-id of the old list; the result is the lookup in the written list, or the "not found" error; other resources are unchanged |
| `AdminData.AdminStore.Delete` | lib/adminData.ts:114-119 | writes back the old list without the records carrying the id; afterwards no stored record has it; other resources are unchanged |
| `AdminData.AdminStore.GetDashboardStats` | lib/adminData.ts:235-254 | the counts equal the lengths of the four lists `getAll` returns and the number of pending reservations |
| `AdminPage.FilteredReservations` | app/admin/page.tsx:424-427 | 'all' gives the whole list; any other filter gives exactly the reservations with that status, in order, each as often as in the list |
| `AdminPage.FilterIdempotent` | app/admin/page.tsx:424-427 | applying the same status filter twice equals applying it once |
| `AdminPage.AfterFetchAll` | app/admin/page.tsx:53-88 | on success, the lists are as received and the stats are their counts; the pending count equals the size of the 'pending' filter view; on failure only `loading` changes; `loading` ends false |
| `AdminPage.RecentReservations` | app/admin/page.tsx:210 | at most three reservations: the first ones, in list order |
| `AdminPage.EditMenuItem` | app/admin/page.tsx:292-296 | the item becomes the one being edited, its fields fill the form, and the form opens |
| `AdminPage.SubmitMenu` | app/admin/page.tsx:254-290 | editing replaces exactly the entries with the edited `_id` by the reply, keeping the length and other entries; adding appends the reply after all prior entries; success resets the form; a thrown request changes nothing |
| `AdminPage.SubmitNew` | app/admin/page.tsx:530-551 | gallery/testimonial add: the reply is appended after all prior entries; the form is closed and reset to the panel's blank fields (lines 528 and 640); a thrown request changes nothing |
| `AdminPage.TwoDeletesAsWritten` | app/admin/page.tsx:298-305 | two deletes invoked on the same rendered list: the final list is the rendered list minus only the `_id` whose request settled last |
| `AdminPage.OverlappingDeletesRestore` | app/admin/page.tsx:301 | for two different `_id`s, an entry removed by the first delete to settle is back in the list after the second |
| `AdminPage.TwoDeletes` | app/admin/page.tsx:298-305 | corrected (each delete filters the current list): entries with either `_id` are gone and all others keep their counts |
| `AdminPage.TwoDeletesCommute` | app/admin/page.tsx:298-305 | corrected: the order in which the two deletes settle does not matter |
| `AdminPage.AfterDelete` | app/admin/page.tsx:298-305 | every panel's delete, applied to the list the handler captured: drops every entry with the `_id` and keeps the rest in order with their counts; a thrown request changes nothing |
| `AdminPage.StatusBody` | app/admin/page.tsx:437 | the status request sends the `status` field and nothing else |
| `AdminPage.RowActions` | app/admin/page.tsx:503-514 | a reservation's row offers "Confirm" iff the reservation is pending, and always the delete button; nothing else |
| `AdminPage.RowStatusRequests` | app/admin/page.tsx:503-508 | every status request a row can send is `{status: 'confirmed'}`, and only for a pending reservation; "cancelled" is never sent |
| `AdminPage.ChangeStatus` | app/admin/page.tsx:429-448 | only reservations with that `_id` are replaced by the reply; the length and the other entries are kept; a thrown request changes nothing |
| `AdminPage.ChangeStatusKeepsIds` | app/admin/page.tsx:440-442 | a reply that keeps the `_id` leaves every `_id` in place and keeps them unique |
| `TestimonialsSection.NextIndex` | components/sections/TestimonialsSection.tsx:91-93 | the next index is in `[0, n)`: `i+1` before the last, 0 after it |
| `TestimonialsSection.PrevIndex` | components/sections/TestimonialsSection.tsx:94-96 | the previous index is in `[0, n)`: `i-1`, and from 0 it wraps to `n-1` |
| `TestimonialsSection.NextPrevInverse` | components/sections/TestimonialsSection.tsx:91-96 | from a valid index, previous after next and next after previous return to it |
| `TestimonialsSection.Advance` | components/sections/TestimonialsSection.tsx:84-89 | no step leaves the index as it was, even past the end; one or more steps, or any from a valid index, end in range |
| `TestimonialsSection.AdvanceIsRotation` | components/sections/TestimonialsSection.tsx:84-93 | `k` steps move the index `k` places around the circle (from any index once `k > 0`) |
| `TestimonialsSection.ModSuccessor` | components/sections/TestimonialsSection.tsx:92 | stepping from the reduced index equals stepping and reducing |
| `TestimonialsSection.FullCycle` | components/sections/TestimonialsSection.tsx:84-93 | from a valid index, `n` steps return to it |
| `TestimonialsSection.Normalize` | components/sections/TestimonialsSection.tsx:68-76 | `name`, `rating` and `image` get their defaults when falsy; `content` is `comment \|\| content \|\| ''`; `role` is `role \|\| ''`; other fields are kept |
| `TestimonialsSection.NormalizeIdempotent` | components/sections/TestimonialsSection.tsx:68-76 | normalising twice equals normalising once |
| `TestimonialsSection.StaleIndexAfterFetch` | components/sections/TestimonialsSection.tsx:61-92 | a carousel moved on twice, then given one fetched testimonial, has index 2 over a list of length 1: out of range |
| `TestimonialsSection.Carousel.constructor` | components/sections/TestimonialsSection.tsx:60-61 | starts at index 0 on the built-in testimonials |
| `TestimonialsSection.Carousel.Next` | components/sections/TestimonialsSection.tsx:85-93 | next button and interval: the index advances modulo the length and ends in range |
| `TestimonialsSection.Carousel.Prev` | components/sections/TestimonialsSection.tsx:94-96 | the index steps back modulo the length and ends in range |
| `TestimonialsSection.Carousel.Select` | components/sections/TestimonialsSection.tsx:206 | a dot selects its own index |
| `TestimonialsSection.Carousel.ApplyFetch` | components/sections/TestimonialsSection.tsx:63-82 | as written: the list is replaced as `ReplaceIfNonEmpty` says and the index is left as it was |
| `TestimonialsSection.Carousel.ApplyFetchReset` | components/sections/TestimonialsSection.tsx:63-82 | corrected: the index is reset to 0 when the list is replaced, so it stays in range |
| `GallerySection.NavigateIndex` | components/sections/GallerySection.tsx:80-84 | next goes from `k` to `k+1` and from the last (or not found) to 0; prev goes from `k>0` to `k-1` and from 0 (or not found) to the last |
| `GallerySection.Navigated` | components/sections/GallerySection.tsx:76-86 | a closed lightbox stays closed; otherwise the result is some image's id, the first (next) or last (prev) when the open id is not in the list |
| `GallerySection.NavigateNextStep` | components/sections/GallerySection.tsx:78-85 | with distinct ids, from an image `k` whose id is not null, next and prev open its neighbours, wrapping at the ends |
| `GallerySection.NavigateRoundTrip` | components/sections/GallerySection.tsx:78-85 | with distinct non-null ids, prev after next and next after prev return to the same image |
| `GallerySection.Shown` | components/sections/GallerySection.tsx:87 | an image is shown iff the open id is truthy and some image has it, and then it is the first image with that id |
| `GallerySection.Normalize` | components/sections/GallerySection.tsx:57-62 | `src` is `url \|\| src`, `alt` is `alt \|\| ''`, `id` is `_id \|\| id`; other fields are kept |
| `GallerySection.NormalizeIdempotent` | components/sections/GallerySection.tsx:57-62 | normalising twice equals normalising once |
| `GallerySection.Gallery.constructor` | components/sections/GallerySection.tsx:49-50 | starts on the built-in images with the lightbox closed |
| `GallerySection.Gallery.Open` | components/sections/GallerySection.tsx:70-72 | opening sets the selected id |
| `GallerySection.Gallery.Close` | components/sections/GallerySection.tsx:73-75 | closing resets the lightbox to null |
| `GallerySection.Gallery.Navigate` | components/sections/GallerySection.tsx:76-86 | the lightbox moves as `Navigated` says; when closed it stays closed; the images are unchanged |
| `GallerySection.Gallery.ApplyFetch` | components/sections/GallerySection.tsx:52-68 | the images are replaced as `ReplaceIfNonEmpty` says and stay non-empty |
| `MenuSection.FilteredItems` | components/sections/MenuSection.tsx:96-98 | 'All' gives the whole list; any other category gives exactly the dishes of that category, each as often as in the list |
| `MenuSection.FilteredItemsInOrder` | components/sections/MenuSection.tsx:96-98 | the filtered dishes are a subsequence of the list |
| `MenuSection.FilterIdempotent` | components/sections/MenuSection.tsx:98 | filtering the filtered list by the same category changes nothing |
| `MenuSection.UnlistedCategoryOnlyUnderAll` | components/sections/MenuSection.tsx:8 | a dish whose category is none of the tabs appears under 'All' and under no other tab |
| `MenuSection.Normalize` | components/sections/MenuSection.tsx:84-88 | `tags` defaults to `[]` and `image` to the first built-in dish's image; other fields are kept |
| `MenuSection.NormalizeIdempotent` | components/sections/MenuSection.tsx:84-88 | normalising twice equals normalising once |
| `Auth.MountCheck` | hooks/useAuth.ts:14-24 | signed in iff the flag is exactly 'true' and a non-empty email is stored; the email when signed in, otherwise '' |
| `Auth.RemountAfterLogin` | hooks/useAuth.ts:40-41 | a fresh mount check after login reports signed in with the admin email |
| `Auth.RemountAfterLogout` | hooks/useAuth.ts:52-53 | a fresh mount check after logout reports signed out |
| `Auth.Session.constructor` | hooks/useAuth.ts:7-9 | starts signed out and loading, with no email |
| `Auth.Session.CheckAuth` | hooks/useAuth.ts:14-26 | the state becomes the mount check of storage, loading ends, and storage is untouched |
| `Auth.Session.Login` | hooks/useAuth.ts:31-49 | succeeds iff email and password are the hardcoded pair; on success it writes both keys and signs in with that email; on failure nothing changes; state and storage stay in agreement |
| `Auth.Session.Logout` | hooks/useAuth.ts:51-57 | removes both keys, signs out, clears the email and navigates to the login page; state and storage stay in agreement |
| `AdminLayout.Redirects` | app/admin/layout.tsx:13-26 | at most one redirect; none while loading; to the login page iff signed out elsewhere; to the dashboard iff signed in on the login page |

## Findings

| source | as written | input that shows it | evidently intended | confidence | as-written member | corrected member |
|---|---|---|---|---|---|---|
| components/sections/TestimonialsSection.tsx:61-96 | the shown index is kept when fetched testimonials replace the built-in list | advance twice (index 2 of 3), then the fetch returns one testimonial: the index is 2 but the list has length 1, so `testimonials[2].rating` is read from `undefined` (the method `StaleIndexAfterFetch` performs exactly these steps on a `Carousel`) | the index is brought back into range (reset to 0) when the list is replaced | medium (it needs the fetch to resolve after the index has moved past the new length); not executed | `TestimonialsSection.Carousel.ApplyFetch` | `TestimonialsSection.Carousel.ApplyFetchReset` |
| app/admin/page.tsx:298-305 | every panel handler builds the new list from the list it captured when invoked (also lines 269, 281, 440-442, 453, 543, 556, 655, 668) | delete A, then delete a different entry B before A's request settles: both handlers filter the same rendered list, so the final list is that list minus B, and A is back on screen although the backend deleted it (`OverlappingDeletesRestore`) | each update filters the list current when it settles (`setItems(prev => …)`), so both entries go, in either order | medium (needs two requests in flight at once); not executed | `AdminPage.TwoDeletesAsWritten` | `AdminPage.TwoDeletes` |

## Left out

- Prices and revenue are not modelled: floating-point prices, `parseFloat` of the form price and the placeholder `totalRevenue` (sum of prices × 10, rounded). Prices are carried as opaque numbers only.
- Numbers are reals, so `NaN` is not modelled. `===` on objects and arrays compares references in JavaScript but values here; the model compares only primitive field values (ids, statuses, categories) and `null`, so reference equality never matters.
- JSON text is not modelled. `JSON.stringify` followed by `JSON.parse` is taken to give back the same list. Stored text that parses to something other than an array is not modelled.
- `setToStorage` catches write failures, such as an exceeded storage quota. That error path is not modelled.
- Object key order is not modelled: a record is a map.
- The artificial `delay(...)`, `setTimeout`/`setInterval` timing and `Promise.all` are not modelled.
- Each store operation of `lib/adminData.ts` is modelled as one atomic step. Its read (`getFromStorage`, at the end of `getAll`) and its write (`setToStorage`) run in the same task, with only promise continuations between them, so no other operation can run in between.
- The admin page's handlers are modelled per call, as functions of the list the handler captured when it was invoked, which is what the code computes from. Overlapping requests can therefore lose each other's updates. The Findings table shows this for two deletes. The same stale-list update in the submit and status handlers (lines 269, 281, 440-442, 543, 655) is not spelled out separately.
- Fetched payloads that are arrays holding non-object elements are not modelled. An array holding `null` makes the normalising `map` throw, so the section keeps its list. Numbers or strings would be spread into odd records.
- Admin-page payloads that are not arrays of objects are not modelled, for example an error object in place of a list. The same goes for replies that are not objects.
- `fetch` resolving with an HTTP error status counts as a reply, as in the code. Only a thrown `fetch` or `.json()` leaves a list unchanged.
- The admin page's per-panel `loading` flags, `activeSection`, the form fields' `onChange` edits and all rendering are presentation and are not modelled.
- The request bodies of the menu form are not modelled because they depend on `parseFloat`. The gallery and testimonial forms send their fields as they are.
- `Auth.Session` and `AdminData.AdminStore` each hold their own map for localStorage, although the browser has one. Their keys are disjoint.
- Every `useAuth()` call has its own state over the shared storage. That sharing is not modelled.
- `router.push` and `window.location.href` navigation are modelled only as the returned path.
- The layout renders its children unchanged in every case. That rendering is not modelled.
- The API route handlers under `pages/api/` are not modelled. They pass requests through to MongoDB. `lib/mongodb` is not part of this model, and neither are the `/api/menu` and `/api/reservations` routes.
- The reservation form, the hero carousel and the static marketing sections are not modelled. They hold no data logic beyond what is modelled above.
- `AdminData.IsoDay`: only years 0–9999 are covered, which `toISOString` writes with four digits. The day is an input and is not derived from the millisecond clock.
- `TestimonialsSection.Advance`: the in-range promise needs at least one step or a valid starting index. From an index past the end, zero steps leave it past the end, as the code does.
