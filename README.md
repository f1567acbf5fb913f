# AZ certificate front end — a verified model

This project models the client-side core of the AZ International certificate front end in
Dafny. The system is a Next.js site where visitors check a certificate by name or serial
number, and administrators search, create and delete certificates. A certificate is a
"service" record of the back-end API.

The model covers:

- **The API client** (`ApiServices`):
  - a module-level cache with two maps (`data`, `timestamps`) and a five-minute time to live;
  - three cached reads: `getAllServices`, `searchServiceByName` and `searchServiceBySerialNumber`. The two searches normalise the body's `$values` envelope;
  - three writes: create, update and delete. Each invalidates every cached read after an ok response.
- **The admin certificate list** (`AdminCertificates`):
  - the search, which runs the name search and then the serial search when the term has a digit, and merges the results by id;
  - the mapping of each record to a `CERT-<id>` row;
  - the client-side filter, and selecting rows;
  - single delete and bulk delete.
- **The admin services page** (`AdminServices`):
  - a search that calls both endpoints directly, without the cache;
  - deleting a row after confirmation;
  - the date, method and location display helpers.
- **The public verification page** (`CertificateVerification`):
  - the throttled search: serial first, then name;
  - the certificate card.
- **The create-certificate form** (`CreateCertificate`):
  - the form state and its change handlers;
  - the conversion of the title into the numeric `method`;
  - the payload, and the toast and navigation after submitting.
- **The toast store** (`Toasts`): adding toasts with defaults, and dismissing them.
- **`processBatch`** (`Batching`): handing items to a processor in slices.
- **The admin layout** (`AdminLayout`): the local-storage authentication flag, the redirect to login, what is rendered, and logout.

Shared helpers model the JavaScript semantics the core relies on:

- `JsText`: `trim`, ASCII `toLowerCase`, `includes`, `/\d/`, number-to-string, `split("-")[1]` and `join`;
- `JsNumber`: `isNaN` on a string through the StringNumericLiteral grammar, and `parseInt(s, 10)`;
- `Records`: the record and JSON body shapes, and JavaScript truthiness;
- `SearchMerge`: the merge by id that both admin pages use.

Inputs replace I/O, as follows:

- Every `fetch` outcome is an input (`Fetch`). So is every API call a page awaits, as the `Result` it resolves or rejects with.
- Clock readings are parameters.
- `Math.random()` is a real number in [0, 1), or a string id.
- The locale date formatter is a function parameter.

State that the source updates in place is a `class`: the cache, and each page's React state. Each method's `ensures` gives the new state as a function of the old state and the inputs.

## Model

| member | source | states |
|---|---|---|
| ApiServices.AfterSet | AZ/lib/api-services.js:20-24 | `set` keeps both maps holding the same keys |
| ApiServices.Cache.Set | AZ/lib/api-services.js:20-24 | the new cache state is `AfterSet` of the old one; the stored value is returned |
| ApiServices.Lookup | AZ/lib/api-services.js:27-40 | a value is returned only if stored under the key, and then nothing changes; otherwise the state is unchanged or loses exactly that key in both maps |
| ApiServices.Cache.Get | AZ/lib/api-services.js:27-40 | the returned value and the new state are those of `Lookup` |
| ApiServices.StoredValueIsServedWithinTtl | AZ/lib/api-services.js:27-40 | a value stored at a non-zero time is served unchanged until more than 300000 ms have passed |
| ApiServices.IsExpired | AZ/lib/api-services.js:32 | more than the 300000 ms time to live has passed since the stamp; `StoredValueIsServedWithinTtl` and `ExpiredEntryIsRemoved` state its effect |
| ApiServices.ExpiredEntryIsRemoved | AZ/lib/api-services.js:32-37 | past the time to live `get` returns null and removes just that key from both maps |
| ApiServices.Invalidated | AZ/lib/api-services.js:43-61 | a RegExp removes exactly the matching keys; a string removes that key; anything else empties the cache; no surviving value or timestamp changes |
| ApiServices.Cache.Invalidate | AZ/lib/api-services.js:43-61 | the loop over a snapshot of the keys leaves the state `Invalidated` describes |
| ApiServices.Normalize | AZ/lib/api-services.js:132-139 | the result is truthy; an array stays as it is; an object becomes its `$values` array or `[obj]`; a falsy body becomes `[]`; a truthy scalar passes through unchanged, and only a scalar is not an array afterwards |
| ApiServices.NormalizeIdempotent | AZ/lib/api-services.js:186-193 | normalising a normalised body changes nothing |
| ApiServices.Read | AZ/lib/api-services.js:68-205 | it fetches exactly when the lookup gives no truthy value; a read that does not fetch returns the cached value and changes nothing; an ok fetch stores its result under the key, stamped with the store time, and every other entry of the lookup's state stays as it was; a failed fetch leaves the state of the lookup; a non-ok status rejects with that status; a malformed body, a network failure and a timeout of `getAllServices` reject; a search timeout resolves to `[]` |
| ApiServices.CachedRead | AZ/lib/api-services.js:69-96 | result, fetch flag and new cache state are those of `Read` |
| ApiServices.GetAllServices | AZ/lib/api-services.js:68-97 | `Read` under `getAllServices`, with the body stored raw |
| ApiServices.SearchServiceByName | AZ/lib/api-services.js:104-151 | `Read` under `searchByName:<search>`, with the body normalised |
| ApiServices.SearchServiceBySerialNumber | AZ/lib/api-services.js:158-205 | `Read` under `searchBySerial:<search>`, with the body normalised |
| ApiServices.NameKey | AZ/lib/api-services.js:106 | the key `searchByName:<search>`; `ReadKeysAreDistinct` proves it determines the term and never meets another read key |
| ApiServices.SerialKey | AZ/lib/api-services.js:160 | the key `searchBySerial:<search>`; `ReadKeysAreDistinct` proves it determines the term and never meets another read key |
| ApiServices.ReadKeysAreDistinct | AZ/lib/api-services.js:69-160 | the three functions' keys never collide, and a search key determines its term |
| ApiServices.ReadKeysMatchPattern | AZ/lib/api-services.js:227 | every read key matches `/^(getAllServices\|searchByName\|searchBySerial)/` |
| ApiServices.HitDoesNotFetch | AZ/lib/api-services.js:70-76 | a truthy hit is answered the same whatever the network would say, without fetching |
| ApiServices.SecondReadWithinTtlHits | AZ/lib/api-services.js:107-113 | a second read within the time to live returns the first result without fetching |
| ApiServices.NullBodyIsCachedButMisses | AZ/lib/api-services.js:70-92 | a `null` body of `getAllServices` is stored, but the next read misses because the value is falsy |
| ApiServices.ExpiredReadRefetches | AZ/lib/api-services.js:27-40 | an expired entry is fetched again and restamped |
| ApiServices.SearchTimeoutStoresNothing | AZ/lib/api-services.js:144-147 | a search that times out resolves to `[]` and stores nothing |
| ApiServices.FetchedBodyIsStored | AZ/lib/api-services.js:90-92 | `getAllServices` stores the raw body; a search stores the normalised one |
| ApiServices.SearchCatchAsWritten | AZ/lib/api-services.js:198-201 | only an error named "AbortError" becomes `[]`; any other error is rethrown unchanged |
| ApiServices.SearchTimeoutRejectsAsWritten | AZ/lib/api-services.js:144-147 | as written, a timeout (a "TimeoutError") is rethrown rather than answered with `[]` |
| ApiServices.Write | AZ/lib/api-services.js:212-294 | an ok response invalidates every read key and resolves with the parsed body, or with `true` for delete; delete resolves without parsing a body; a non-ok status rejects with that status; other failures change nothing and reject |
| ApiServices.CachedWrite | AZ/lib/api-services.js:222-229 | result and new cache state are those of `Write` |
| ApiServices.CreateService | AZ/lib/api-services.js:212-235 | `Write`, parsing the body |
| ApiServices.UpdateService | AZ/lib/api-services.js:243-266 | `Write`, parsing the body |
| ApiServices.DeleteService | AZ/lib/api-services.js:273-294 | `Write`, resolving to `true` |
| ApiServices.SuccessfulWriteForcesRefetch | AZ/lib/api-services.js:253-260 | after a successful write, each of the three reads fetches again |
| ApiServices.SuccessfulWriteKeepsOtherKeys | AZ/lib/api-services.js:282-289 | a successful write keeps every entry whose key is not a read key |
| SearchMerge.KeepNewMembers | AZ/app/admin/certificates/page.jsx:111-116 | an item is kept exactly when it is in the list and its id is not yet known |
| SearchMerge.MergedProperties | AZ/app/admin/certificates/page.jsx:105-121 | the name results stay first and unchanged; a serial result is added exactly when its id is new |
| SearchMerge.MergedIds | AZ/app/admin/certificates/page.jsx:111-116 | the ids of the merge are the union of both lists' ids |
| SearchMerge.AppendNew | AZ/app/admin/services/page.jsx:70-76 | the `forEach`/`push` loop leaves exactly the merged list |
| SearchMerge.KeepNew | AZ/app/admin/certificates/page.jsx:111-116 | never longer than the list it filters; which items stay is `KeepNewMembers` |
| SearchMerge.KeepNewSnoc | AZ/app/admin/certificates/page.jsx:113-115 | one more item at the end is kept or dropped by its own id only |
| SearchMerge.KeepNewNothingKnown | AZ/app/admin/certificates/page.jsx:111-116 | with no known ids every item stays, duplicates included |
| SearchMerge.Merged | AZ/app/admin/certificates/page.jsx:98-121 | the name results, then the serial results whose id is new; its properties are `MergedProperties` and `MergedIds` |
| AdminCertificates.ToUi | AZ/app/admin/certificates/page.jsx:133-150 | the status is "active" exactly for a future end date; the title is `CertificateTitle` of the method, "ISO Certificate" exactly for method 1; the category is "Quality Management"; missing names and serials show `N/A` |
| AdminCertificates.ToUiAll | AZ/app/admin/certificates/page.jsx:131-150 | one row per record, in order, each `ToUi` of its record |
| AdminCertificates.CertificateNumber | AZ/app/admin/certificates/page.jsx:231 | no number exactly when the id has no `-`; a number never contains `-` |
| AdminCertificates.RowIdRoundTrip | AZ/app/admin/certificates/page.jsx:231 | `split("-")[1]` of a row id gives back the record's id |
| AdminCertificates.NegativeIdLosesNumber | AZ/app/admin/certificates/page.jsx:231 | for a negative record id, the delete request is sent with an empty string |
| AdminCertificates.SearchRecordsProperties | AZ/app/admin/certificates/page.jsx:96-121 | a term without a digit uses only the name results; a rejected name search contributes nothing; the name results come first |
| AdminCertificates.SearchRecords | AZ/app/admin/certificates/page.jsx:93-121 | the name results merged with the serial results, the latter only for a term with a digit; its properties are `SearchRecordsProperties` |
| AdminCertificates.Matches | AZ/app/admin/certificates/page.jsx:173-177 | a blank query matches; otherwise the lower-cased query occurs in the lower-cased name, serial number or title; `Filtered` keeps exactly the matching rows |
| AdminCertificates.Filtered | AZ/app/admin/certificates/page.jsx:171-180 | a row is kept exactly when it matches; a blank query keeps every row |
| AdminCertificates.FilteredAppend | AZ/app/admin/certificates/page.jsx:171-180 | filtering keeps the order of the rows: a concatenation filters part by part |
| AdminCertificates.Without | AZ/app/admin/certificates/page.jsx:203-205 | every occurrence of the id goes, all other ids stay; an id not present changes nothing |
| AdminCertificates.WithoutAppend | AZ/app/admin/certificates/page.jsx:203-205 | the remaining ids keep their order |
| AdminCertificates.RemoveCertificate | AZ/app/admin/certificates/page.jsx:243 | exactly the rows with that id go |
| AdminCertificates.RemoveCertificateAppend | AZ/app/admin/certificates/page.jsx:243 | the remaining rows keep their order |
| AdminCertificates.RemoveSelected | AZ/app/admin/certificates/page.jsx:278-280 | exactly the rows whose id is selected go |
| AdminCertificates.RemoveSelectedAppend | AZ/app/admin/certificates/page.jsx:278-280 | the remaining rows keep their order |
| AdminCertificates.CertificateNumbers | AZ/app/admin/certificates/page.jsx:266-267 | one number per selected id, in order, each `CertificateNumber` of its id |
| AdminCertificates.SearchRows | AZ/app/admin/certificates/page.jsx:93-153 | the rows are the merged records of the two searches, mapped for display; the serial search is asked exactly when the term has a digit |
| AdminCertificates.FetchRows | AZ/app/admin/certificates/page.jsx:78-153 | `FetchShows` holds: a blank query gives no rows and no request; otherwise the name search gets the trimmed term, the serial search too when that term has a digit, and the rows are the merged records, mapped |
| AdminCertificates.FetchShows | AZ/app/admin/certificates/page.jsx:78-153 | a blank query requests nothing and shows no rows; otherwise the trimmed term goes to the name search, and also to the serial search when it has a digit; the rows are the merged records, mapped for display |
| AdminCertificates.CertificatesPage.FetchCertificates | AZ/app/admin/certificates/page.jsx:73-159 | `FetchShows` of the old query holds for the new rows and the requests; loading ends and the error is cleared |
| AdminCertificates.CertificatesPage.SetSearchQuery | AZ/app/admin/certificates/page.jsx:386 | only the query changes |
| AdminCertificates.CertificatesPage.FilteredCertificates | AZ/app/admin/certificates/page.jsx:171-180 | `Filtered` of the rows by the current query, whose contract gives exactly the matching rows |
| AdminCertificates.CertificatesPage.SelectAll | AZ/app/admin/certificates/page.jsx:186-192 | select the ids of the filtered rows, or none |
| AdminCertificates.CertificatesPage.SelectCertificate | AZ/app/admin/certificates/page.jsx:199-207 | append the id, or remove every occurrence of it |
| AdminCertificates.CertificatesPage.DeleteCertificate | AZ/app/admin/certificates/page.jsx:228-256 | the delete is sent with the second field of the id; the row and its selection go only on success; both toasts |
| AdminCertificates.DeletedNotice | AZ/app/admin/certificates/page.jsx:237-240 | the toast "Certificate Deleted" naming the row id |
| AdminCertificates.DeleteEach | AZ/app/admin/certificates/page.jsx:266-269 | every delete succeeds exactly when all requests are sent; otherwise the requests stop right after the first failure |
| AdminCertificates.CertificatesPage.BulkDelete | AZ/app/admin/certificates/page.jsx:261-291 | an empty selection does nothing; deletes go out in order up to and including the first failure; the rows change only if all succeed |
| AdminCertificates.BulkDeletedNotice | AZ/app/admin/certificates/page.jsx:272-275 | the toast "Certificates Deleted" with the number of selected certificates |
| AdminServices.ContributionOf | AZ/app/admin/services/page.jsx:52-78 | only an array `$values` contributes items; a rejection, a malformed body and a truthy `$values` that is neither an array nor a string throw; a non-ok response contributes nothing |
| AdminServices.SearchOutcome | AZ/app/admin/services/page.jsx:51-77 | `None` when a search throws; otherwise the name results, merged with the serial results only for a query with a digit; its properties are `SearchOutcomeProperties` |
| AdminServices.SearchOutcomeProperties | AZ/app/admin/services/page.jsx:41-87 | without a digit the serial endpoint does not matter; any throwing search throws; the name results come first, then only serial results with a new id |
| AdminServices.RunSearches | AZ/app/admin/services/page.jsx:51-77 | the outcome is `SearchOutcome`; the serial endpoint is asked exactly for a query with a digit after a name search that did not throw |
| AdminServices.ServicesPage.SearchServices | AZ/app/admin/services/page.jsx:41-87 | a blank query clears the results; otherwise the requests, the new results or the kept results with the error message, and searching ends |
| AdminServices.ServicesPage.SetSearchQuery | AZ/app/admin/services/page.jsx:96-98 | only the query changes |
| AdminServices.ServicesPage.DeleteService | AZ/app/admin/services/page.jsx:101-122 | nothing without confirmation; a successful delete removes exactly that id; both toasts |
| AdminServices.FormatDate | AZ/app/admin/services/page.jsx:125-129 | a missing date shows `N/A` |
| AdminServices.MethodName | AZ/app/admin/services/page.jsx:132-139 | the table for 1 to 3 agrees with the `Method <id>` fallback for every id |
| AdminServices.LocationString | AZ/app/admin/services/page.jsx:142-150 | `Not specified` without a location or parts; otherwise country and state joined by ", " |
| AdminServices.LocationParts | AZ/app/admin/services/page.jsx:145-148 | one part for each of country and state that is present, and no other: the country first, the state last |
| CertificateVerification.AdditionalInfo | AZ/app/certificates/page.jsx:98-100 | the location line with `N/A` for each missing part, exactly when there is a location |
| CertificateVerification.Display | AZ/app/certificates/page.jsx:88-101 | issuer, category, the description from the title, title and status by their rules, dates formatted or `N/A` |
| CertificateVerification.DisplayAgreesWithAdminRow | AZ/app/certificates/page.jsx:88-96 | the public card and the admin row agree on id, name, title, serial number, status and category |
| CertificateVerification.StatusClass | AZ/app/certificates/page.jsx:133-141 | green exactly for an active certificate |
| CertificateVerification.DetailsPath | AZ/app/certificates/page.jsx:143-147 | a details route exists exactly when a certificate is shown, and it is `/certificates/` followed by the serial number |
| CertificateVerification.DetailsPathIdentifiesSerial | AZ/app/certificates/page.jsx:143-147 | two certificates get the same details route exactly when their serial numbers are equal |
| CertificateVerification.FoundProperties | AZ/app/certificates/page.jsx:51-74 | serial results win; when the name search runs and the serial search is not asked for or finds nothing, the name results are found; a search the tab does not select never contributes; an unknown search type finds nothing |
| CertificateVerification.Found | AZ/app/certificates/page.jsx:51-74 | the serial results when that search runs and finds some, else the name results when that search runs; its properties are `FoundProperties` |
| CertificateVerification.AsksSerial | AZ/app/certificates/page.jsx:51 | the serial search runs for the "serial" and "all" tabs |
| CertificateVerification.AsksName | AZ/app/certificates/page.jsx:64 | the name search may run for the "name" and "all" tabs |
| CertificateVerification.SearchShows | AZ/app/certificates/page.jsx:46-122 | which searches are requested with the untrimmed query, then the card of the first record found or no card and the not-found error |
| CertificateVerification.VerificationPage.HandleSearch | AZ/app/certificates/page.jsx:26-130 | blank query: an error only. Throttled: card and error cleared, no request, still marked as performed. Otherwise `SearchShows` holds for the requests, the card and the error |
| CertificateVerification.RunSearch | AZ/app/certificates/page.jsx:46-122 | `SearchShows` holds: the requests made, then the card of the first record found or the not-found error |
| CertificateVerification.VerificationPage.Shown | AZ/app/certificates/page.jsx:133-141 | the card with its status class, exactly when a certificate is set |
| CertificateVerification.VerificationPage.SetSearchType | AZ/app/certificates/page.jsx:166 | only the search type changes |
| CertificateVerification.VerificationPage.SetSearchQuery | AZ/app/certificates/page.jsx:186-189 | only the query changes |
| CertificateVerification.DateText | AZ/app/certificates/page.jsx:92-93 | the formatted date, or `N/A` without one |
| CreateCertificate.WithText | AZ/app/admin/certificates/create/page.jsx:65-77 | the named field reads back the value; every other field is unchanged |
| CreateCertificate.WithDate | AZ/app/admin/certificates/create/page.jsx:84-86 | only the named date changes |
| CreateCertificate.CreatePage.ChangeField | AZ/app/admin/certificates/create/page.jsx:65-77 | the form becomes `WithText` of the old form |
| CreateCertificate.CreatePage.ChangeDate | AZ/app/admin/certificates/create/page.jsx:84-86 | the form becomes `WithDate` of the old form |
| CreateCertificate.SerialDigits | AZ/app/admin/certificates/create/page.jsx:52 | the random serial number lies in [10000, 99999] |
| CreateCertificate.InitialSerial | AZ/app/admin/certificates/create/page.jsx:52 | `CERT-` followed by digits whose value is the drawn number |
| CreateCertificate.InitialForm | AZ/app/admin/certificates/create/page.jsx:46-56 | empty texts, status active, issue now, expiry two years on |
| CreateCertificate.MethodValue | AZ/app/admin/certificates/create/page.jsx:99-109 | 1 unless the title is non-empty and passes `isNaN`; otherwise `parseInt(title, 10)` |
| CreateCertificate.MethodValueOfNumber | AZ/app/admin/certificates/create/page.jsx:103-105 | a title that is a decimal number is sent as that number |
| CreateCertificate.IsoTitleIsMethodOne | AZ/app/admin/certificates/create/page.jsx:103-107 | a title containing "iso" in any case is never numeric and is sent as 1 |
| CreateCertificate.BlankTitleIsNaN | AZ/app/admin/certificates/create/page.jsx:103-105 | a title of white space passes `isNaN` but `parseInt` gives NaN |
| CreateCertificate.Payload | AZ/app/admin/certificates/create/page.jsx:114-125 | recipient, serial, converted title, dates, and the fixed Cairo office |
| CreateCertificate.PayloadIgnoresDisplayFields | AZ/app/admin/certificates/create/page.jsx:114-125 | category, description, additional information and status are never sent |
| CreateCertificate.CreatePage.Submit | AZ/app/admin/certificates/create/page.jsx:92-151 | the payload of the form is sent; success toast and navigation, or an error toast with the message; submitting ends |
| Toasts.WithoutToastMembers | AZ/components/ui/use-toast.js:27-29 | exactly the toasts with another id stay |
| Toasts.WithoutToast | AZ/components/ui/use-toast.js:27-29 | never longer than the list; which toasts stay is `WithoutToastMembers`, their order `WithoutToastAppend` |
| Toasts.WithoutToastKeepsAll | AZ/components/ui/use-toast.js:27-29 | dismissing an id no toast has changes nothing |
| Toasts.WithoutToastAppend | AZ/components/ui/use-toast.js:28 | dismissing treats each toast independently |
| Toasts.WithoutToastIdempotent | AZ/components/ui/use-toast.js:27-29 | dismissing twice equals dismissing once |
| Toasts.WithoutToastCommutes | AZ/components/ui/use-toast.js:27-29 | dismissing two ids in either order gives the same list |
| Toasts.DismissNewest | AZ/components/ui/use-toast.js:14-29 | dismissing the newest toast, when no older one has its id, restores the older list |
| Toasts.DismissUndoesToast | AZ/components/ui/use-toast.js:14-29 | the auto-dismiss of a uniquely identified toast restores the list without it |
| Toasts.ToastStore.Toast | AZ/components/ui/use-toast.js:14-25 | appends one toast with variant "default" and 5000 ms as defaults; a timer unless the duration is infinite; returns the id |
| Toasts.ToastStore.Dismiss | AZ/components/ui/use-toast.js:27-29 | the toasts become `WithoutToast` of the old ones |
| Batching.ForEach | AZ/lib/performance-utils.js:45 | one call per element, in order, with its index |
| Batching.FlattenStep | AZ/lib/performance-utils.js:41-42 | one more slice `items[start..end]` extends the covered prefix to `items[..end]` |
| Batching.CallsExtend | AZ/lib/performance-utils.js:40-55 | a slice's calls, indexed within the slice, continue the global `i % batchSize` indexing |
| Batching.ProcessBatch | AZ/lib/performance-utils.js:33-60 | empty: resolves at once. Positive size: every item processed once, in order, in full slices but the last, then resolves. Size zero: no item is processed and it never resolves. Negative size: only `items[..n + size]` processed (none when that is negative), and it never resolves |
| AdminLayout.Render | AZ/app/admin/layout.jsx:114-143 | loader while loading; the bare page on login; the dashboard exactly when authenticated; nothing otherwise |
| AdminLayout.Layout.Shown | AZ/app/admin/layout.jsx:113-143 | what the layout shows in its current state; `RenderMatchesRedirect` ties it to the redirect |
| AdminLayout.Redirect | AZ/app/admin/layout.jsx:107-111 | a redirect goes only to the login page, and only when not authenticated |
| AdminLayout.RenderMatchesRedirect | AZ/app/admin/layout.jsx:107-131 | nothing is rendered exactly when redirecting; the dashboard never redirects |
| AdminLayout.Layout.CheckAuth | AZ/app/admin/layout.jsx:92-104 | authenticated exactly when the flag is the string "true"; loading ends |
| AdminLayout.IsAdmin | AZ/app/admin/layout.jsx:98 | the stored flag is exactly the string "true"; after logout it never holds (`LogoutRevokesAccess`) |
| AdminLayout.LocalStorage.RemoveItem | AZ/app/admin/layout.jsx:19 | exactly that key is removed |
| AdminLayout.LogoutRevokesAccess | AZ/app/admin/layout.jsx:18-22 | after logout no check authenticates; other keys survive |
| AdminLayout.Logout | AZ/app/admin/layout.jsx:18-22 | the flag is removed and the browser goes to the login page |
| JsText.Trim | AZ/app/admin/certificates/page.jsx:80 | the result is empty exactly for a blank string, and starts and ends with a non-space |
| JsText.TrimmedIsEmpty | AZ/app/certificates/page.jsx:29 | `!s.trim()` holds exactly for a blank string |
| JsText.TrimPadding | AZ/app/admin/services/page.jsx:42 | the trimmed string is a slice of the original, and only white space lies outside it |
| JsText.Includes | AZ/app/admin/certificates/page.jsx:175-177 | true exactly when the substring occurs at some position |
| JsText.ToLower | AZ/app/admin/certificates/page.jsx:175-177 | the same length, each character lower-cased on its own |
| JsText.HasDigit | AZ/app/admin/certificates/page.jsx:106 | `/\d/.test`: some character is an ASCII digit |
| JsText.IntToString | AZ/app/admin/certificates/page.jsx:134 | non-empty, a leading `-` exactly for a negative number, and no other `-` |
| JsText.IntToStringInjective | AZ/app/admin/certificates/page.jsx:134 | two integers print the same exactly when they are equal |
| JsText.DigitsValueOfNatToString | AZ/app/admin/certificates/create/page.jsx:52 | the decimal string of a number reads back as that number |
| JsText.IndexOf | AZ/app/admin/certificates/page.jsx:231 | the first position of the character, or none exactly when it does not occur |
| JsText.SecondField | AZ/app/admin/certificates/page.jsx:231 | `split(sep)[1]`: undefined exactly when there is no separator; the field never holds the separator |
| JsText.SecondFieldAfterPrefix | AZ/app/admin/certificates/page.jsx:231 | `split(sep)[1]` after a prefix ending in the separator is the rest |
| JsText.SecondFieldEmpty | AZ/app/admin/certificates/page.jsx:231 | `split(sep)[1]` is empty when the first separator is followed by another |
| JsText.Join | AZ/app/admin/services/page.jsx:149 | `parts.join(sep)`; for the one or two parts used, `JoinShort` states the result |
| JsText.JoinShort | AZ/app/admin/services/page.jsx:149 | one part joins to itself; two parts join with the separator between them |
| JsNumber.ParseInt10 | AZ/app/admin/certificates/create/page.jsx:105 | NaN exactly when no digit follows the leading white space and sign |
| JsNumber.NatStringIsNumeric | AZ/app/admin/certificates/create/page.jsx:104-105 | decimal digits pass `isNaN` and `parseInt` reads them back |
| JsNumber.NumericStringHasNoLetterS | AZ/app/admin/certificates/create/page.jsx:104-106 | a numeric string contains no `s` or `S` |
| JsNumber.IsNumericString | AZ/app/admin/certificates/create/page.jsx:104 | `!isNaN(s)`: the trimmed string is empty, a non-decimal integer or a signed decimal; `NatStringIsNumeric` and `NumericStringHasNoLetterS` state its consequences |
| JsNumber.DigitPrefix | AZ/app/admin/certificates/create/page.jsx:105 | the longest prefix of decimal digits |
| Records.ResultItems | AZ/app/admin/certificates/page.jsx:98 | non-empty exactly for a resolved non-empty array |
| Records.Truthy | AZ/lib/api-services.js:73 | JavaScript truthiness of a body: only `null` and the falsy values fail; `Normalize` always gives a truthy body |
| Records.CertificateTitle | AZ/app/admin/certificates/page.jsx:136-139 | "ISO Certificate" exactly for method 1; otherwise `Certificate Type ` followed by the method number |
| Records.CertificateTitleInjective | AZ/app/admin/certificates/page.jsx:136-139 | two method codes give the same title exactly when they are equal |
| Records.CertificateStatus | AZ/app/admin/certificates/page.jsx:145-148 | "active" exactly for an end date after now |

## Left out

- Network I/O is not modelled: URLs, headers, `encodeURIComponent`, JSON serialisation, and the 5-second `AbortSignal.timeout` itself. Each request is an input outcome.
- Asynchrony and interleaving are not modelled: every handler runs to completion, and overlapping calls for one cache key are not modelled.
- No timers are modelled. This covers the toast auto-dismiss, which is returned as a delay; the recursion of `processBatch` through `setTimeout`, which is a loop; the 500 ms delay of the layout check; `deferTask`, `debounce` and `throttle`.
- Dates are abstract integers. Nothing is modelled of `new Date`, `toISOString`, `toLocaleDateString`, date-fns `format` or `addYears`. The admin row's "now" and "a year from now" defaults are `None`.
- A body that is a truthy JSON string is not modelled: spreading it would give characters. Neither is an array holding `null` elements, which would reach the formatting `catch` on the public page. Neither is an `apiError` from a throwing row transform on the admin page.
- Case folding is ASCII only. `toLowerCase` beyond ASCII and Unicode normalisation are not modelled.
- Rendering is not modelled: markup, icons, badges, the sidebar's active-link test, router history.
- `method` is an integer. A `method` that is not an integer, and a non-integer `batchSize`, are not modelled.
- ApiServices.Read: a timeout of `getAllServices` is read as an ordinary rejection. That request has no timeout signal, so this case does not arise.
- ApiServices.Read: the searches answer a timeout with `[]`. The code as written rethrows it (see Findings). The model follows the evident intent here, and states the as-written behaviour separately.
- Batching.ProcessBatch: for a batch size of zero or less, only the first call of the never-ending timer chain is returned. Every later call processes an empty slice, as the first one already does for a size of zero.
- AdminCertificates.CertificatesPage.FetchCertificates: `loading` is stated only after the call. The intermediate `true` is not observable here.
- AdminServices: the unused `services` and `loading` states are not modelled.
- AdminServices.ContributionOf: a `$values` that is a non-empty string is not modelled. The name search would spread it into single characters, and only the serial search's `forEach` would throw. `NotArray` covers only truthy values that are neither arrays nor strings.
- JsNumber.ParseInt10: the result is the exact integer of the digits. JavaScript's `parseInt` returns a double, which rounds above 2^53, so "9007199254740993" gives 9007199254740992 there.
- JsNumber.NatStringIsNumeric: the value it ties to the digits is exact. A double would round it above 2^53.
- CreateCertificate.MethodValueOfNumber: the `method` sent is the exact integer. The source's double rounds it above 2^53.

## Findings

| source | as written | input that shows it | evidently intended | confidence | as-written member | corrected member |
|---|---|---|---|---|---|---|
| AZ/lib/api-services.js:144-147 | the searches treat a rejection as a timeout only when `error.name === 'AbortError'` | a search whose back end takes longer than 5 s: `AbortSignal.timeout(5000)` aborts with a "TimeoutError" DOMException, so `fetch` rejects with the name "TimeoutError" and the error is rethrown | a timed-out search resolves to `[]` and stores nothing | not executed; relies on the DOM Standard's `AbortSignal.timeout()` semantics | ApiServices.SearchTimeoutRejectsAsWritten | ApiServices.SearchTimeoutStoresNothing |
