# Client portal of a parcel-forwarding service, in Dafny

This project models the browser side of a customer portal for a shipping
company that forwards parcels from a US address to Haiti. Customers register,
log in, read their US forwarding address, follow their parcels, and pay
invoices. The model covers:

- **The shared HTTP client** (`ApiClient`). A request interceptor attaches the
  stored access token as a bearer credential (section 2.1 of RFC 6750). A
  response interceptor handles a 401 (section 15.5.2 of RFC 9110) with one
  refresh of the token and one retry. When no refresh token is stored, or the
  refresh fails, it logs the user out with a hard redirect to `/login`. The
  network is a script of replies consumed in order, and every call is logged.
  A pure pipeline (`Pipeline`/`Recover`) over a snapshot of storage, script and
  navigations is the specification. The imperative `Client.Send` and
  `Client.OnRejected` are proved to match it.
- **The API wrappers** (`Api`): paths, verbs, the unwrapping of
  `response.data.data`, and `getPrimaryAddress`, which turns "no address"
  failures into `null`.
- **The parcel status table** (`ParcelStatus`): twelve statuses, their display
  entries, and the fallback to PENDING for unknown strings.
- **The card-payment modal** (`PaymentModal`): the card number, expiry and CVC
  formatters (the card number through its original loop), and the submit
  handler's callbacks.
- **The two-step registration page** (`Register`): the validators, written as
  predicates matching the regular expressions; the error maps of both steps;
  the step state; and the tokens stored after a successful registration.
- **The login page** (`Login`): reading the token pair from either place in the
  response body, the error text, and the delayed redirect.
- **The dashboard shell** (`DashboardLayout`): the authentication guard run on
  mount, logout, the navigation lists, and the name and avatar in the header.
- **The dashboard pages**:
  - the home page's cards, recent parcels and customer name (`DashboardHome`);
  - the parcel list's search, filter and empty state (`ParcelsPage`);
  - the delivery history (`HistoryPage`);
  - the invoice badges and counts (`InvoicesPage`);
  - the US address page's customer name and copyable address (`MyAddressPage`).

Some modules support the others:

- `Js` models the untyped JSON values, with JavaScript truthiness, `||`, `?.`
  and `String(v)`.
- `Text` holds the string operations: `trim`, `\s`, `includes`, `toLowerCase`
  and digit extraction.
- `Lists` holds filtering, counting and searching.
- `Browser` holds `localStorage` and a navigation log.
- `Records` holds the user, address, parcel and invoice records and the lookups
  several pages share.

Two behaviours of the code are kept as written, and lemmas state them:

1. The dashboard home page and the address page compute the customer name from
   the same two sources, but in opposite orders. They agree when only one
   source names the customer and disagree when both do with different names
   (`MyAddressPage.PagesAgreeOnOneSource`,
   `MyAddressPage.PagesDisagreeOnTwoSources`).
2. Three choices of the parcel status filter are not status names, so choosing
   one of them empties the list (`ParcelsPage.UnreachableFilterOptions`).

A 401 on the profile request with no refresh token starts two navigations: the
interceptor's hard redirect, then the guard's push
(`DashboardLayout.ExpiredSessionRedirectsTwice`).

## Model

| member | source | states |
|---|---|---|
| ApiClient.Authorize | lib/api/client.ts:11-20 | With a stored, non-empty access token, the request leaves with `Bearer <token>`; otherwise the request is unchanged; URL and retry mark are never touched |
| ApiClient.AuthPathsSkipRecovery | lib/api/client.ts:29-31 | The login and registration paths, and any URL containing `/auth/refresh`, are authentication endpoints, so their failures are never recovered |
| ApiClient.RefreshedToken | lib/api/client.ts:48-54 | A refused refresh gives its error; a null body a TypeError; a string `accessToken` is taken verbatim; a missing one becomes the string "undefined", as `setItem` stores it |
| ApiClient.Pipeline | lib/api/client.ts:11-68 | At least one call is logged. At most one refresh happens per original request, and none for a request already retried. The only navigation is the hard redirect to `/login`, never after a success. The refresh token is kept or cleared, never replaced |
| ApiClient.Recover | lib/api/client.ts:25-67 | The same bounds for the error handler alone: at most one refresh, only the `/login` redirect, refresh token kept or cleared |
| ApiClient.ResponsePassesThrough | lib/api/client.ts:24 | A 2xx response is returned as it is and changes nothing but the call log |
| ApiClient.SentHeaderIsStoredToken | lib/api/client.ts:13-16 | The request sent carries the bearer form of the token stored at send time |
| ApiClient.AuthEndpointFailurePassesThrough | lib/api/client.ts:29-33 | A failure on login, register or refresh is rejected unchanged: no refresh, no storage change, no redirect |
| ApiClient.OtherFailuresPassThrough | lib/api/client.ts:35-66 | A failure other than a first 401 is rejected unchanged and leaves storage and navigation alone |
| ApiClient.UnauthorizedWithoutRefreshToken | lib/api/client.ts:39-46 | A first 401 with no refresh token removes the access token, redirects to `/login`, rejects with the 401, and makes no refresh call |
| ApiClient.RefreshFailureLogsOut | lib/api/client.ts:58-62 | A failed refresh removes both tokens, redirects to `/login`, and rejects with the refresh error, not the 401 |
| ApiClient.RefreshThenRetry | lib/api/client.ts:48-57 | A successful refresh stores the new token and re-sends the request once, marked and with the new bearer header. The retry's outcome, a second 401 included, is the result; exactly one refresh call; no navigation |
| ApiClient.Client.Send | lib/api/client.ts:11-68 | The method's outcome and the new storage, script, call log and navigation log are exactly those `Pipeline` gives for the old state |
| ApiClient.Client.OnRejected | lib/api/client.ts:25-67 | The error handler's outcome and new state are exactly those `Recover` gives |
| Api.VerbOf | lib/api/index.ts:3-80 | A wrapper posts exactly when it is login or register |
| Api.Path | lib/api/index.ts:3-80 | Every wrapper's path lies under `/api/` |
| Api.Unwrap | lib/api/index.ts:3-80 | Login and register return the body. The others return `body.data` and throw a TypeError exactly when the body is null or undefined |
| Api.MessageSaysNotFound | lib/api/index.ts:63 | A missing message is not "not found"; a string message is searched for the substring; anything that cannot be searched throws a TypeError |
| Api.GetPrimaryAddress | lib/api/index.ts:53-68 | A success gives `data` when it is truthy and `null` otherwise. A 404, or a string message containing "not found", gives `null`. Any other failure is rethrown unchanged, except that a message with no `includes` method makes the test itself throw a TypeError |
| Api.Call | lib/api/index.ts:3-80 | A failed request rejects every wrapper except `getPrimaryAddress` with the same error |
| Api.TrackingWrappersAgree | lib/api/index.ts:31-44 | `getParcelByTracking` and `trackParcel` send the same path and agree on every outcome |
| Api.HistoryUnderParcelPath | lib/api/index.ts:26-39 | A parcel's history path is that parcel's path followed by `/history` |
| ParcelStatus.Parse | lib/utils/parcel-status.ts:1-13 | A parsed status has the given name, and parsing fails exactly when no status has that name |
| ParcelStatus.NameInjective | lib/utils/parcel-status.ts:1-13 | Different statuses have different names |
| ParcelStatus.ParseName | lib/utils/parcel-status.ts:1-13 | Each status name is read back as that status |
| ParcelStatus.GetStatusConfig | lib/utils/parcel-status.ts:110-112 | A status's own name selects its table entry; any string that names no status gets the PENDING entry |
| ParcelStatus.GetStatusBadgeClasses | lib/utils/parcel-status.ts:114-117 | The fixed base classes and a space, then the text, background and border colours of the status's configuration, separated by single spaces |
| ParcelStatus.KnownStatusBadge | lib/utils/parcel-status.ts:114-117 | The badge of a known status is the fixed base classes, then that entry's text, background and border colours |
| ParcelStatus.LabelsDistinct | lib/utils/parcel-status.ts:23-108 | The twelve labels are pairwise distinct |
| ParcelStatus.UnknownStatusLooksPending | lib/utils/parcel-status.ts:110-117 | An unknown status gets the same entry and badge classes as PENDING |
| PaymentModal.CardMatch | components/payment-modal.tsx:57-58 | On a digit string, the match is empty exactly when there are fewer than four digits, else it is the first sixteen |
| PaymentModal.JoinedChunksDigits | components/payment-modal.tsx:59-66 | Joining the four-digit groups with spaces keeps exactly the digits, in order |
| PaymentModal.JoinedChunksLayout | components/payment-modal.tsx:59-66 | The joined groups hold four digits each (the last one to four), separated by single spaces; the length is digits plus separators |
| PaymentModal.CardNumber | components/payment-modal.tsx:55-70 | Fewer than four digits: the raw input is returned. Otherwise: groups of four holding the first sixteen digits of the input, at most 19 characters |
| PaymentModal.CardNumberIdempotent | components/payment-modal.tsx:55-70 | Formatting a formatted card number changes nothing |
| PaymentModal.CollectGroups | components/payment-modal.tsx:59-63 | The loop collects exactly the four-character groups of the match, in order |
| PaymentModal.FormatCardNumber | components/payment-modal.tsx:55-70 | The method returns the `CardNumber` of its input |
| PaymentModal.Expiry | components/payment-modal.tsx:72-78 | Fewer than two digits: just those digits. Otherwise the slash is the third character and the other characters are the input's first two to four digits; at most five characters, and a slash exactly when there are two or more digits |
| PaymentModal.ExpiryIdempotent | components/payment-modal.tsx:72-78 | Formatting a formatted expiry changes nothing |
| PaymentModal.Cvc | components/payment-modal.tsx:165 | Exactly the first three digits of the input, or all of them when there are fewer; so at most three characters, all digits |
| PaymentModal.Modal.ChangeCardNumber | components/payment-modal.tsx:117 | The card field becomes `CardNumber(value)`; nothing else changes |
| PaymentModal.Modal.ChangeExpiry | components/payment-modal.tsx:151 | The expiry field becomes `Expiry(value)`; nothing else changes |
| PaymentModal.Modal.ChangeCvc | components/payment-modal.tsx:165 | The CVC field becomes `Cvc(value)`; nothing else changes |
| PaymentModal.Modal.HandleSubmit | components/payment-modal.tsx:34-53 | On success `onSuccess` then `onClose` are called, on failure neither; loading ends cleared; the form is kept |
| Register.WithValue | app/register/page.tsx:36 | The named field takes the new value |
| Register.WithValueKeepsOthers | app/register/page.tsx:36 | Every other field keeps its value |
| Register.PasswordError | app/register/page.tsx:61-67 | Rules in order, one message at most: "requis" on an empty password, "Minimum 8" on a shorter one, the mixed-characters message on a long one failing the lookaheads, none otherwise |
| Register.Step1Errors | app/register/page.tsx:43-75 | Keys are step-1 fields only; a field is a key exactly when its rule reports, mapped to that rule's message |
| Register.Step2Errors | app/register/page.tsx:77-85 | Keys are the commune and the street only; a field is a key exactly when its rule reports, mapped to that rule's message |
| Register.Step1Rules | app/register/page.tsx:43-75 | Each step-1 field is reported iff its rule fails; email and phone say "required" when blank and "invalid" otherwise; no other key appears |
| Register.Step1Passes | app/register/page.tsx:43-75 | Step 1 passes exactly when the names are not blank, email and phone match their patterns, the password is strong, and the confirmation equals it |
| Register.Step2Rules | app/register/page.tsx:77-85 | The commune is reported iff empty, the street iff blank; step 2 passes exactly when neither applies |
| Register.ValidEmailNotBlank | app/register/page.tsx:49-53 | An address the email pattern accepts is never blank, so the "invalid" message cannot hide the "required" one |
| Register.ValidPhoneNotBlank | app/register/page.tsx:55-59 | A number the phone pattern accepts is never blank |
| Register.ValidPhoneShape | app/register/page.tsx:57 | An accepted phone number has 11 to 14 characters and exactly eleven digits, starting with 509 |
| Register.MixedCharactersOnOneLine | app/register/page.tsx:65 | Without line breaks, the lookahead rule is: a lowercase letter, an uppercase letter and a digit each occur |
| Register.IssuedTokens | app/register/page.tsx:117-120 | Fails exactly on a null body. Otherwise the tokens are read from `data.data` when truthy, else from `data`, converted as `setItem` stores them |
| Register.Page.HandleChange | app/register/page.tsx:34-41 | The field takes the value; its error, if shown, is blanked; nothing else changes |
| Register.Page.ValidateStep1 | app/register/page.tsx:43-75 | The errors become the step-1 map, and the result is whether it is empty |
| Register.Page.ValidateStep2 | app/register/page.tsx:77-85 | The errors become the step-2 map, and the result is whether it is empty |
| Register.Page.HandleNext | app/register/page.tsx:87-92 | Moves to step 2 and clears the error only when step 1 passes |
| Register.Page.HandleBack | app/register/page.tsx:94-97 | Returns to step 1 and clears the error |
| Register.Page.HandleSubmit | app/register/page.tsx:99-129 | Nothing happens unless step 2 passes. On success both tokens are stored and `/dashboard` is pushed. On failure storage and route are untouched and the message or fixed text is shown |
| Login.TokenField | app/login/page.tsx:37-38 | The top-level token when truthy, else the one under `data`; throws exactly on a null body |
| Login.LoginTokens | app/login/page.tsx:37-46 | Fails exactly when the body is null or either token is falsy: a TypeError or the "Tokens not found" error. Otherwise the two tokens as stored |
| Login.ErrorMessage | app/login/page.tsx:61 | The server's message when it is truthy; the fixed "Email ou mot de passe incorrect" whenever it is not, including for errors without a response |
| Login.TokensFromEitherPlace | app/login/page.tsx:37-50 | Non-empty string tokens given at the top level or under `data` are the ones stored |
| Login.MissingAccessTokenFails | app/login/page.tsx:43-46 | Without an access token in either place, login fails with the fixed message, whatever the refresh token |
| Login.Page.HandleChange | app/login/page.tsx:19-23 | The field takes the value and the error is cleared |
| Login.Page.HandleSubmit | app/login/page.tsx:25-67 | With both tokens they are stored and `/dashboard` is scheduled 500 ms later. Otherwise nothing is stored or navigated and the error text is shown. Loading ends cleared |
| Records.Prefer | app/dashboard/page.tsx:60-61 | `a \|\| b \|\| ''`: the first non-empty field, empty exactly when neither is filled |
| Records.NameOf | app/dashboard/page.tsx:59-65 | No name exactly when both parts are empty; otherwise the trimmed "first last" |
| Records.SinglePartName | app/dashboard/page.tsx:63 | With one part missing, the name is the other part trimmed, without a stray space |
| Records.OpenInvoiceFor | app/dashboard/parcels/page.tsx:44-48 | Nothing exactly when the list is absent or holds no unpaid invoice for the parcel; otherwise the first such invoice |
| DashboardLayout.MobileNavigation | app/dashboard/layout.tsx:38-48 | Five entries, a prefix of the navigation, holding every entry but the profile |
| DashboardLayout.IsActive | app/dashboard/layout.tsx:134 | Only the entry whose target is the path itself is highlighted; a parent entry is not highlighted on a sub-page |
| DashboardLayout.AtMostOneActive | app/dashboard/layout.tsx:134 | No two entries are highlighted for the same path |
| DashboardLayout.MobileLabel | app/dashboard/layout.tsx:178-180 | The two long names are shortened, every other name kept |
| DashboardLayout.MobileLabelsDistinct | app/dashboard/layout.tsx:178-180 | The five bottom-bar labels are pairwise distinct |
| DashboardLayout.ProfileOf | app/dashboard/layout.tsx:25 | No profile exactly when `getMe` gave a falsy value |
| DashboardLayout.DisplayName | app/dashboard/layout.tsx:85 | `firstName` when filled, else `first_name` when filled, else "Utilisateur"; never empty |
| DashboardLayout.AvatarLetter | app/dashboard/layout.tsx:82 | Always one character |
| DashboardLayout.AvatarIsInitial | app/dashboard/layout.tsx:82-85 | The avatar is the first character of the displayed name |
| DashboardLayout.GuardWorld | app/dashboard/layout.tsx:16-36 | Without a token: only a push to `/login`, with no call and no storage change. With a token: a profile call is made; if it finally fails with 401 (by whichever path through the interceptor) both tokens are gone and the last navigation is a push to `/login`; otherwise the session is as the interceptor left it |
| DashboardLayout.MeIsNotAuthEndpoint | lib/api/index.ts:14-17 | The profile request is not on an authentication path, so the interceptor may recover it |
| DashboardLayout.ExpiredSessionRedirectsTwice | app/dashboard/layout.tsx:26-33 | A 401 with no refresh token clears both tokens and logs a hard redirect and then a push to `/login` |
| DashboardLayout.RefreshRejectedEndsSession | app/dashboard/layout.tsx:26-33 | A 401 whose refresh is refused with 401: both tokens cleared, then the hard redirect and the push to `/login` |
| DashboardLayout.RetryRejectedEndsSession | app/dashboard/layout.tsx:26-33 | A 401, a successful refresh and a 401 on the retried request: three calls, both tokens cleared, and only the guard's push to `/login` |
| DashboardLayout.OtherGuardFailuresKeepSession | app/dashboard/layout.tsx:26-33 | A failure other than 401 leaves tokens and route as they were |
| DashboardLayout.Layout.CheckAuth | app/dashboard/layout.tsx:16-36 | The new session state is exactly `GuardWorld` of the old one; the user becomes the profile on success and is kept otherwise |
| DashboardLayout.Layout.HandleLogout | app/dashboard/layout.tsx:50-54 | Both tokens are removed and `/login` is pushed |
| DashboardHome.RecentParcels | app/dashboard/page.tsx:76 | A prefix of the list of length min(5, total); empty without a list |
| DashboardHome.ReadyCount | app/dashboard/page.tsx:77 | At most the total; zero exactly when the list is absent or no parcel is READY or OUT_FOR_DELIVERY |
| DashboardHome.InTransitCount | app/dashboard/page.tsx:78 | At most the total; zero exactly when the list is absent or no parcel is IN_TRANSIT or SHIPPED |
| DashboardHome.CardsCountKnownStatuses | app/dashboard/page.tsx:77-78 | A parcel the ready card counts has status READY or OUT_FOR_DELIVERY, one the in-transit card counts IN_TRANSIT or SHIPPED, all four real statuses |
| DashboardHome.CardsWithinTotal | app/dashboard/page.tsx:77-94 | The ready and in-transit cards together never exceed the total card (`parcels?.length \|\| 0`) |
| DashboardHome.ParcelInvoice | app/dashboard/page.tsx:51-55 | Nothing exactly when the list is absent or holds no unpaid invoice for the parcel; otherwise the first such invoice |
| DashboardHome.ClientName | app/dashboard/page.tsx:58-74 | The profile's name if it has one, else the address owner's, else "Votre Nom" |
| ParcelsPage.Normalize | app/dashboard/parcels/page.tsx:34 | No longer than the input; no dash, whitespace or uppercase letter remains |
| ParcelsPage.NormalizeChar | app/dashboard/parcels/page.tsx:34 | A dash or whitespace character becomes nothing; any other character is kept, lower-cased |
| ParcelsPage.NormalizeAppend | app/dashboard/parcels/page.tsx:34 | Normalizing a concatenation concatenates the normalized parts, so the two lemmas above determine the result on every string |
| ParcelsPage.NormalizeIdempotent | app/dashboard/parcels/page.tsx:34 | Normalizing twice is normalizing once |
| ParcelsPage.MatchesSearch | app/dashboard/parcels/page.tsx:35-38 | An empty search matches every parcel |
| ParcelsPage.MatchesStatus | app/dashboard/parcels/page.tsx:39 | "ALL" passes every parcel; any other filter passes exactly the parcels whose status equals it |
| ParcelsPage.FilteredParcels | app/dashboard/parcels/page.tsx:32-41 | An absent list gives the empty list; the result is never longer than the list |
| ParcelsPage.FilteredIsOrderedSelection | app/dashboard/parcels/page.tsx:32-41 | The result keeps the list's order and holds exactly the parcels passing both the search and the status test |
| ParcelsPage.NoCriteriaShowsAll | app/dashboard/parcels/page.tsx:32-41 | No search text and "ALL" show every parcel |
| ParcelsPage.UnreachableFilterOptions | app/dashboard/parcels/page.tsx:81-87 | Three filter choices name no status, so for parcels with known statuses they show nothing |
| ParcelsPage.EmptyMessage | app/dashboard/parcels/page.tsx:192-195 | One of the two texts; the "no match" text exactly when a search is typed or the filter is not "ALL" |
| ParcelsPage.EmptyMessageIsAccurate | app/dashboard/parcels/page.tsx:192-195 | The "no parcels yet" text over an empty result means the list is really empty or absent |
| HistoryPage.Delivered | app/dashboard/history/page.tsx:13 | Only delivered parcels; empty without a list |
| HistoryPage.DeliveredIsOrderedSelection | app/dashboard/history/page.tsx:13 | The list keeps the order and holds exactly the delivered parcels |
| HistoryPage.DeliveredCount | app/dashboard/history/page.tsx:31 | Never more than the number of parcels |
| HistoryPage.SinceParcel | app/dashboard/history/page.tsx:68-70 | Nothing exactly when no parcel is delivered; otherwise the last delivered parcel of the list |
| HistoryPage.SinceText | app/dashboard/history/page.tsx:68-70 | "N/A" without a delivered parcel, else that parcel's creation date |
| InvoicesPage.StatusBadge | app/dashboard/invoices/page.tsx:24-31 | The paid badge iff "PAID", the overdue badge iff "OVERDUE", the pending badge for every other status |
| InvoicesPage.BadgeLabelsDistinct | app/dashboard/invoices/page.tsx:25-30 | Two statuses show the same label exactly when they show the same badge |
| InvoicesPage.PendingCount | app/dashboard/invoices/page.tsx:85 | At most the total; zero exactly when the list is absent or no invoice is PENDING (OVERDUE is not counted) |
| InvoicesPage.PaidCount | app/dashboard/invoices/page.tsx:99 | At most the total; zero exactly when the list is absent or no invoice is PAID |
| InvoicesPage.ShowsPayButton | app/dashboard/invoices/page.tsx:174 | The pay button shows exactly on the invoices whose badge is not the paid badge |
| InvoicesPage.CardsWithinTotal | app/dashboard/invoices/page.tsx:72-99 | The pending and paid cards together never exceed the total card (`invoices?.length \|\| 0`) |
| InvoicesPage.OverdueCountsNowhere | app/dashboard/invoices/page.tsx:83-99 | An overdue invoice changes neither card |
| InvoicesPage.OfferedInvoicesShowPayButton | app/dashboard/invoices/page.tsx:174 | Every invoice the parcel pages offer to pay shows the pay button |
| MyAddressPage.ClientName | app/dashboard/my-address/page.tsx:26-47 | The address owner's name if it has one, else the profile's, else "Chargement..." |
| MyAddressPage.PagesAgreeOnOneSource | app/dashboard/my-address/page.tsx:26-47 | When at most one source names the customer and this page shows a name, the home page shows the same name |
| MyAddressPage.PagesDisagreeOnTwoSources | app/dashboard/my-address/page.tsx:26-47 | When both sources name the customer differently, the home page shows the profile's name and this page the owner's |
| MyAddressPage.FullAddress | app/dashboard/my-address/page.tsx:58-60 | Empty without an address; otherwise it starts with the address code and a line break |
| MyAddressPage.FullAddressLines | app/dashboard/my-address/page.tsx:58-60 | The copied address is the code, the name, the street, "city, state zip" and "United States" joined by line breaks |
| MyAddressPage.FullAddressHasFiveLines | app/dashboard/my-address/page.tsx:58-60 | When no field holds a line break, the copied address has exactly four breaks, so five lines |
| Text.Trim | app/register/page.tsx:46 | `trim()` is `s` less a prefix and a suffix made of whitespace, and it neither starts nor ends with whitespace; it is empty exactly when every character is whitespace |

## Left out

- Network, timing and rendering. The HTTP exchange is a scripted list of
  replies. Requests carry only their URL, `Authorization` header and retry
  mark. Method, body, base URL and other headers are not modelled.
- The login, registration and payment POSTs are parameters of the page
  handlers: the outcome the page receives. Only the dashboard guard's profile
  request is routed through the modelled interceptors.
- Concurrency: requests that overlap while a refresh is in flight are not
  modelled. Each call runs to completion before the next one.
- React Query caching, loading spinners, JSX layout, CSS classes (except the
  parcel status badge), icons, toasts and `console` output are left out. The
  modal's `isOpen` early return is left out too.
- The login page's `setTimeout` is recorded as a `PushAfter("/dashboard", 500)`
  navigation rather than as a timer.
- Date and money formatting are left out: `formatDate`, `formatCurrency` and
  `toLocaleDateString`. `HistoryPage.SinceText` gives the raw `createdAt`. The
  history page's money totals are not modelled.
- JSON numbers are integers. Floating point is not modelled.
- Object fields the pages read are assumed to be own data properties:
  inherited `Object.prototype` keys are not modelled. Non-string name fields
  count as absent.
- `toLowerCase` is modelled for ASCII letters only. String lengths count
  Unicode scalar values, not UTF-16 code units, which differs only for
  characters outside the Basic Multilingual Plane.
- Register.Page.HandleChange: uses the latest error map. The page's closure
  may read an older one when two changes happen within one render.
- `Register`: the rules test `trim() === ''` as `Text.Blank`. The contract of
  `Text.Trim` states that the two are equivalent.
- lib/constants, the profile page, the tracking page and the payments API are
  not part of this model. `paymentsApi.createPaymentIntent` appears only as
  the outcome passed to `PaymentModal.Modal.HandleSubmit`.
- `Api.MessageSaysNotFound`: for an array message, it tests whether the array
  has the element "not found", as `Array.prototype.includes` does. Other
  objects with their own `includes` method are not modelled and count as
  throwing.
