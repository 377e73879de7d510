# leadhunter dashboard: a Dafny model of the client core

This project models the single-page client of the leadhunter dashboard:

- **Session holder.** The authentication context (`AuthProvider` / `useAuth`) holds `currentUser`, `userData`, `loading` and `accessToken`. Its sign-up, sign-in, sign-out and refresh handlers overwrite those cells.
- **Route table and guards.** `App` declares the routes. The three guards decide what each path shows:
  - `PublicRoute` covers `/`, `/signup` and `/login`;
  - `PrivateRoute` covers `/home`, `/settings` and `/platform/:platform`;
  - `AuthAwareRoute` covers `/pricing`.
- **Email search page** (`/platform/:platform`):
  - keyword fields and a target count;
  - the guards of the request to `/email-find`, and the local credit balance it updates;
  - the CSV download and the clipboard text built from the results.
- **Pricing page.** It shows three one-time credit packs. A buyer's card on file is charged directly. Anyone else, or a buyer whose charge failed, goes to the embedded checkout that adds or updates a payment method.
- **Settings page.** It holds the buyer record with the card on file, and the payment-method modal that embeds the payment form in add or update mode.

Each React component's state becomes a Dafny `class`:

- `EmailSearchPage`, `PricingPage`, `SettingsPage` and `AuthSession`;
- each handler is a method with a `modifies` clause;
- each rendered condition is a predicate that `reads` the state.

The values the handlers compute are pure functions. Those are the request checks, the request body, the CSV and clipboard texts, the payment-form options, the embed URL and the route decisions. Lemmas relate these functions to each other and to the handlers.

External calls are replaced by their outcome, passed in as a parameter:

- Each backend call to `/email-find`, `/create-user`, `/get-user-by-uid` and `/transactions/*` is a `Backend.Response`. Its cases are `Ok(body)`, `NotFound`, `OtherStatus(status)` and `Thrown`.
- Each identity-provider call (sign-in, sign-up, popup) is an `Option<User>`. `None` means the call rejected.
- Sign-out is a `bool` that says whether it resolved.
- `btoa(JSON.stringify(options))` is an `encode` function parameter.

A path is modelled as its list of segments: `/platform/linkedin` is `["platform", "linkedin"]` and `/` is `[]`.

Files:

- `basics.dfy`: `Option`, `Result` and JavaScript truthiness of optional strings.
- `text.dfy`: `join`, a splitter used as the reader in round-trip lemmas, and `String.prototype.trim` with the ECMAScript white-space and line-terminator set.
- `backend.dfy`: the backend response and the records it returns.
- `auth.dfy`: the authentication context.
- `routes.dfy`: the route table, the guards and the provider gate.
- `platform_emails.dfy`: the email search page.
- `payment_options.dfy`: the options of the embedded payment form and its URL.
- `pricing.dfy`: the pricing page.
- `settings.dfy`: the settings page.

## Model

| member | source | states |
|---|---|---|
| Text.Trim | src/pages/PlatformEmails.tsx:66 | the result is the piece of the field between a prefix and a suffix of white space; it is empty exactly when the field is all white space, and otherwise starts and ends with a non-space character |
| Text.SplitOnJoin | src/pages/PlatformEmails.tsx:85 | joining a non-empty list of pieces that do not contain the separator and cutting at the separator gives the pieces back |
| PlatformEmails.Keywords | src/pages/PlatformEmails.tsx:66 | the filtered keyword list has no empty keyword and is no longer than the field list |
| PlatformEmails.KeywordsEmptyIffAllBlank | src/pages/PlatformEmails.tsx:66-70 | the filtered list is empty if and only if every field trims to the empty string |
| PlatformEmails.KeywordsAppend | src/pages/PlatformEmails.tsx:66 | filtering keeps field order: the keywords of two runs of fields are the first run's followed by the second's |
| PlatformEmails.CheckRequest | src/pages/PlatformEmails.tsx:60-91 | a request is built if and only if there is a token, at least one keyword, a count (10 when blank) in 1..50 and, when a balance is known, no more than the balance; the body then has `site:<platform>.com/`, the comma-joined keywords and that count; a no-keywords refusal means every field is blank |
| PlatformEmails.KeywordsRoundTrip | src/pages/PlatformEmails.tsx:66-85 | when no field holds a comma, the keyword string of the request body, cut at ',', gives back exactly the keyword list |
| PlatformEmails.KeywordCommaAmbiguity | src/pages/PlatformEmails.tsx:66-85 | commas are not escaped, so one field "a,b" and two fields "a" and "b" give different keyword lists but post the same keyword string |
| PlatformEmails.FetchDisabled | src/pages/PlatformEmails.tsx:156-162 | the button is disabled exactly when a request is in flight, there is no token, no field yields a keyword, the count (10 when blank) is outside 1..50, or a known balance is below the count |
| PlatformEmails.FetchDisabledMatchesGuards | src/pages/PlatformEmails.tsx:156-162 | the fetch button is disabled exactly when a request is in flight or the handler's own guards would refuse the current inputs |
| PlatformEmails.Csv | src/pages/PlatformEmails.tsx:117-127 | no file is built exactly when there are no results; otherwise the file is the quoted header line `"Name","Link","Emails"`, a line break, and the result rows joined by line breaks |
| PlatformEmails.CsvLineRoundTrip | src/pages/PlatformEmails.tsx:117-127 | a row of three cells without quote marks or line breaks reads back, cut at its quote marks, as those three cells, and contains no line break |
| PlatformEmails.CsvRowRoundTrip | src/pages/PlatformEmails.tsx:119-125 | one result's row (name, link, emails joined with ';', missing values as empty) reads back as its cells |
| PlatformEmails.CsvRoundTrip | src/pages/PlatformEmails.tsx:117-127 | for a non-empty result list with safe cells, the file has one line per result plus the header and reads back as the header then every result's cells in order |
| PlatformEmails.EmailCellRoundTrip | src/pages/PlatformEmails.tsx:122 | the emails cell cut at ';' gives the result's emails back when there is at least one and none contains ';' |
| PlatformEmails.CsvQuoteAmbiguity | src/pages/PlatformEmails.tsx:127 | since quotes inside cells are not doubled, two different result lists produce the same file |
| PlatformEmails.AllEmailsAppend | src/pages/PlatformEmails.tsx:143-144 | collecting emails keeps result order |
| PlatformEmails.AllEmailsMembers | src/pages/PlatformEmails.tsx:143-144 | an email is copied exactly when some result whose `emails` is an array lists it |
| PlatformEmails.CopyText | src/pages/PlatformEmails.tsx:140-145 | nothing is copied exactly when there are no results; results without emails give the empty text, and a single email is copied as it is |
| PlatformEmails.CopyTextRoundTrip | src/pages/PlatformEmails.tsx:140-145 | the clipboard text, cut at ', ', gives every email back in order when there is one and none contains a comma |
| PlatformEmails.EmailSearchPage.constructor | src/pages/PlatformEmails.tsx:23-28 | the page mounts with one empty keyword field, a blank count, no known balance, no results and no request in flight |
| PlatformEmails.EmailSearchPage.AddQueryField | src/pages/PlatformEmails.tsx:50-52 | one empty field is appended; the earlier fields and all other state are unchanged |
| PlatformEmails.EmailSearchPage.ChangeQuery | src/pages/PlatformEmails.tsx:54-58 | exactly the edited field takes the new value; the other fields and the rest of the state are unchanged |
| PlatformEmails.EmailSearchPage.ChangeCount | src/pages/PlatformEmails.tsx:201 | the count input takes the new value (blank is None) and nothing else changes |
| PlatformEmails.EmailSearchPage.Request | src/pages/PlatformEmails.tsx:60-115 | sends exactly the body `CheckRequest` builds, and nothing when it refuses (no state change then); a successful response replaces the results, and a known balance drops by the number of results when there are any; `loading` ends false; when no request was in flight, the button was disabled before the click exactly when nothing is sent |
| PaymentOptions.OptionsDistinguishModes | src/pages/PricingPage.tsx:139-140 | the update form and the add form differ in both headline and button text |
| PaymentOptions.EmbedUrlNonEmpty | src/pages/PricingPage.tsx:166 | the iframe URL is never empty, so the checkout's truthiness test always passes once it is set |
| PaymentOptions.EmbedUrlRoundTrip | src/pages/SettingsPage.tsx:138-140 | the iframe URL splits at '?' into the embed URL and `options=<encoded>` when neither contains '?' |
| Pricing.Catalogue | src/pages/PricingPage.tsx:22-56 | three plans, Starter $10 / 1,000 credits, Growth $50 / 6,000, Ultimate $200 / 30,000, in that order; only Growth is recommended; all say "Buy Now" |
| Pricing.CatalogueNamesDistinct | src/pages/PricingPage.tsx:22-56 | no two plans share a name |
| Pricing.PurchaseItems | src/pages/PricingPage.tsx:197-205 | a purchase sends one item named "<plan> Credits", described by its credits, at the dollar price times 100 cents, quantity 1 |
| Pricing.CatalogueCharges | src/pages/PricingPage.tsx:197-205 | the catalogue plans charge 1000, 5000 and 20000 cents under three different item names |
| Pricing.CardLoading | src/pages/PricingPage.tsx:268 | a card shows the spinner only while loading and, among catalogue plans, only on the selected plan |
| Pricing.CardComplete | src/pages/PricingPage.tsx:269 | a card's `purchaseComplete` prop, which makes it read "Success!" when it is not loading, is set only once the purchase is complete and, among catalogue plans, only on the selected plan |
| Pricing.AtMostOneCardMarked | src/pages/PricingPage.tsx:268-269 | at most one plan card shows the spinner and at most one has its `purchaseComplete` prop set, the one that reads "Success!" |
| Pricing.PricingPage.constructor | src/pages/PricingPage.tsx:63-70 | the page mounts with no plan selected, nothing loading or purchased, the checkout closed, no payment URL and add mode |
| Pricing.PricingPage.OpenedCheckoutIsVisible | src/pages/PricingPage.tsx:276 | once the checkout has been opened for a buyer record and a plan is selected, the checkout block is rendered, because the embed URL is never empty |
| Pricing.PricingPage.CreateOrUpdateBuyerAndShowCheckout | src/pages/PricingPage.tsx:119-180 | signed out: nothing is sent or changed; signed in: a create-buyer call with the uid, and on success the checkout opens on `<embed url>?options=<encoded>` in update mode exactly when it is not the first time; on failure the checkout state is kept; `loading` ends false |
| Pricing.PricingPage.CommitPurchase | src/pages/PricingPage.tsx:182-240 | signed out: nothing; signed in: posts the plan's items for the uid, reports success exactly when the call succeeded, marks the purchase complete and closes checkout on success, otherwise leaves checkout as it was |
| Pricing.PricingPage.BuyNow | src/pages/PricingPage.tsx:89-117 | ignored while loading; otherwise selects the plan; a buyer is charged first and, only if that fails, sent to checkout in update mode; a non-buyer goes to checkout in first-time mode; on a successful buyer call the checkout is visible |
| Pricing.PricingPage.CompletePurchase | src/pages/PricingPage.tsx:242-246 | with nothing selected or a request in flight nothing happens; otherwise the selected plan is charged and the checkout closes exactly when the charge succeeds |
| Pricing.PricingPage.CloseCheckout | src/pages/PricingPage.tsx:280-284 | the checkout closes, the selection and the completed flag are cleared, so the checkout is no longer visible |
| Settings.FormOptions | src/pages/SettingsPage.tsx:113-115 | the form is in update mode ("Update Your Payment Method" / "Update") if and only if a card is on file, otherwise "Add Your Payment Method" / "Add Payment" |
| Settings.PaymentUrl | src/pages/SettingsPage.tsx:136-140 | there is a payment URL exactly when the buyer record has a non-empty embed URL, and it is that URL with the encoded form options |
| Settings.SettingsPage.constructor | src/pages/SettingsPage.tsx:41-44 | the page mounts with no buyer record, nothing loading and the payment modal closed |
| Settings.SettingsPage.ModalDisplayed | src/pages/SettingsPage.tsx:274 | the payment modal is on screen exactly when its flag is set and the buyer record has a non-empty embed URL |
| Settings.SettingsPage.FetchBuyer | src/pages/SettingsPage.tsx:53-70 | without user data, a uid or the buyer flag nothing is sent or changed; otherwise one get-buyer call for the uid; a success replaces the buyer record, a failure keeps the old one; the loading flag ends false |
| Settings.SettingsPage.AddPayment | src/pages/SettingsPage.tsx:76-106 | a buyer just opens the modal; a non-buyer is created as a buyer (uid posted as is), the modal opens only if that succeeded, and the buyer record is not refreshed because the follow-up fetch sees the old flag |
| Settings.SettingsPage.AddPaymentRefreshingBuyer | src/pages/SettingsPage.tsx:76-106 | as `AddPayment`, but after creating the buyer the record is fetched by uid, so with an embed URL in the answer the modal is on screen |
| Settings.SettingsPage.EditPayment | src/pages/SettingsPage.tsx:108-110 | opens the modal and changes nothing else |
| Settings.SettingsPage.ClosePaymentModal | src/pages/SettingsPage.tsx:143-145 | closes the modal, so it is not displayed whatever the URL, and changes nothing else |
| Settings.FirstPaymentMethodModalHidden | src/pages/SettingsPage.tsx:76-106 | a non-buyer whose buyer creation succeeds ends with the modal open but not displayed |
| Settings.FirstPaymentMethodModalShown | src/pages/SettingsPage.tsx:274 | with the refreshing handler the same user sees the payment form |
| Auth.UseAuth | src/contexts/AuthContext.tsx:37-43 | outside a provider the hook fails with its fixed message; inside it yields the provider's value |
| Auth.AuthSession.constructor | src/contexts/AuthContext.tsx:45-49 | the provider mounts signed out with no data or token and `loading` true |
| Auth.AuthSession.FetchUserData | src/contexts/AuthContext.tsx:62-84 | user data becomes the profile on success and null on 404, any other status or an error; nothing else changes |
| Auth.AuthSession.AuthStateChanged | src/contexts/AuthContext.tsx:86-98 | the current user becomes the reported one; with a user its token is stored and its profile is looked up by its uid, without one data and token are cleared; `loading` ends false |
| Auth.AuthSession.Signup | src/contexts/AuthContext.tsx:103-129 | a rejected sign-up throws and changes nothing; otherwise user and token are set, `{email, uid, "email"}` is posted, and the handler throws exactly when the post fails (data kept) or stores the new profile |
| Auth.AuthSession.Login | src/contexts/AuthContext.tsx:131-141 | throws exactly when the sign-in rejects, and then leaves `loading` true; otherwise user and token are set, the profile is looked up by the signed-in uid, and `loading` ends false |
| Auth.AuthSession.LoginResettingLoading | src/contexts/AuthContext.tsx:131-141 | as `Login`, with `loading` false on every path |
| Auth.AuthSession.SignupWithGoogle | src/contexts/AuthContext.tsx:143-189 | the profile is looked up by the popup user's uid; an existing profile is adopted, a missing one (404) is created with `{email, uid, "google"}`; every other outcome throws and leaves `loading` true |
| Auth.AuthSession.LoginWithGoogle | src/contexts/AuthContext.tsx:191-220 | the profile is looked up by the popup user's uid; an existing profile is adopted; a missing one signs the user out again (all cells cleared when sign-out resolves) and throws; any other status throws; `loading` is not touched |
| Auth.AuthSession.Logout | src/contexts/AuthContext.tsx:222-227 | once sign-out resolves user, data and token are cleared; if it rejects nothing changes |
| Auth.AuthSession.UpdateUserData | src/contexts/AuthContext.tsx:229-231 | user data becomes the given record and nothing else changes |
| Auth.AuthSession.RefetchData | src/contexts/AuthContext.tsx:233-240 | with nobody signed in nothing changes and nothing is looked up; otherwise the current user's profile is reloaded by its uid as `fetchUserData` does |
| Routes.Lookup | src/App.tsx:20-63 | the chosen route matches the path, and no route is chosen exactly when none matches |
| Routes.RoutesDisjoint | src/App.tsx:20-63 | no path matches two routes, so route ranking cannot change the outcome |
| Routes.LookupAt | src/App.tsx:20-63 | a path matching a route selects that route |
| Routes.PublicPaths | src/App.tsx:22-45 | `/`, `/signup` and `/login` sit behind `PublicRoute` with the landing, sign-up and login pages |
| Routes.PrivatePaths | src/App.tsx:48-50 | `/home` and `/settings` sit behind `PrivateRoute` |
| Routes.PlatformPath | src/App.tsx:51 | `/platform/<p>` for any non-empty `p` sits behind `PrivateRoute` with the email search page |
| Routes.PlatformNeedsOneSegment | src/App.tsx:51 | `/platform` alone, or with two or more further segments, matches no route |
| Routes.PrivateRoute | src/contexts/PrivateRoute.tsx:9-20 | nothing while loading; a redirect to `/login` without a user; otherwise the private top bar and the child route; the child is rendered only with a user |
| Routes.PublicRoute | src/contexts/PublicRoute.tsx:9-20 | nothing while loading; a redirect to `/home` with a user; otherwise the public top bar and the wrapped page (or the child route); the page is rendered only without a user |
| Routes.AuthAwareRoute | src/contexts/AuthAwareRoute.tsx:14-21 | nothing exactly while loading; never redirects; otherwise the wrapped page under the private top bar exactly when a user is signed in |
| Routes.Resolve | src/App.tsx:20-63 | a path no route matches shows nothing; a matched path is blank exactly while loading; a redirect goes only to `/login` or `/home`; a shown page is the matched route's page, and the private top bar only with a user signed in |
| Routes.AppView | src/contexts/AuthContext.tsx:258 | the application is blank exactly while the provider is loading |
| Routes.SignedOutPrivateGoesToLogin | src/contexts/PrivateRoute.tsx:11-13 | a signed-out visitor to any private path is sent to `/login`, which then shows the login page under the public top bar |
| Routes.SignedInPublicGoesHome | src/contexts/PublicRoute.tsx:11-13 | a signed-in visitor to any public path is sent to `/home`, which then shows the home page under the private top bar |
| Routes.PrivatePageNeedsUser | src/contexts/PrivateRoute.tsx:9-20 | a private path's page is shown if and only if loading is over and a user is signed in, always under the private top bar |
| Routes.PricingNeverRedirects | src/contexts/AuthAwareRoute.tsx:14-21 | `/pricing` never redirects and, once loaded, shows the pricing page with the top bar matching the session |
| Routes.RedirectsSettle | src/App.tsx:18-65 | the target of any redirect is itself shown, so no path redirects twice or loops |
| Routes.RejectedLoginBlanksApp | src/contexts/AuthContext.tsx:131-141 | after a rejected password sign-in the application is blank on every path |
| Routes.RejectedLoginKeepsLoginPage | src/contexts/AuthContext.tsx:258 | with `loading` lowered on every path, the same rejection leaves the login page on screen |

## Findings

| source | as written | input that shows it | evidently intended | confidence | as-written member | corrected member |
|---|---|---|---|---|---|---|
| src/contexts/AuthContext.tsx:131-141 | `login` raises `loading` before signing in and lowers it only on success | a wrong password: the sign-in rejects, `loading` stays true, and the provider, which renders its children only when not loading, shows nothing on any path (the login page still raises its alert, but behind it the application stays blank) | `loading` lowered on every path | not executed | Routes.RejectedLoginBlanksApp | Routes.RejectedLoginKeepsLoginPage |
| src/pages/SettingsPage.tsx:76-106 | after creating the buyer, `fetchBuyer` is called through the same `userData`, whose `isBuyer` is still false, so it returns at once | a signed-in non-buyer presses "Add Payment Method" and buyer creation succeeds: the modal flag is set but there is no payment URL, so nothing appears | the new buyer record is loaded so the form shows | not executed | Settings.FirstPaymentMethodModalHidden | Settings.FirstPaymentMethodModalShown |

## Left out

- The credit-balance effect of the email search page (src/pages/PlatformEmails.tsx:30-48) is not modelled. It copies `creditsRemaining` from the user data, or reads it from `/get-user-by-uid?uid=…`; in the model the balance enters as the `creditsRemaining` state.
- Asynchronous interleaving is not modelled. That covers handlers racing with `onAuthStateChanged` and effects that re-run on dependency changes. Each handler runs to completion on the state it starts from. The Settings finding needs no interleaving: nothing refreshes `userData` after the buyer is created, so it concerns the un-refreshed `userData`.
- `btoa(JSON.stringify(options))` is not modelled. It is the `encode` parameter. The constant style entries of the options object are left out.
- Browser side effects have no observable state in the model: the CSV `Blob` and download link, the clipboard write, toasts, console logging, `navigate` after logout, and the iframe height listener.
- Numeric input parsing is not modelled. The count field holds an integer or is blank (None), so `NaN` from a non-numeric entry is not represented.
- Unicode is not modelled beyond the white-space and line-terminator characters that `trim` removes. Strings are sequences of characters.
- URL parsing and normalisation by the router are not modelled: trailing slashes, query strings, percent-decoding and case. Paths are segment lists.
- `getIdToken` failures and the auth headers helper are not modelled. A signed-in user carries its token.
- The marketing components, top-bar contents, home, landing, sign-up and login page bodies are not part of this model. The guards record only which top bar and page they render.
- Pricing.PricingPage.CommitPurchase: the `!plan` check of the source is not modelled, because a `Plan` value is always present.
- Pricing.PricingPage.CreateOrUpdateBuyerAndShowCheckout: a successful response without a `buyer` object is not modelled. The answer carries the buyer record.
- Pricing.PricingPage.CreateOrUpdateBuyerAndShowCheckout: a `null` embed URL is written into the iframe URL as "null" and a missing one as "undefined"; the model has one `None` case and spells it "undefined".
- PlatformEmails.KeywordsRoundTrip: the round trip is stated only for fields without commas. The page joins keywords with ',' without escaping, so a keyword holding a comma cannot be told apart from two keywords, as `KeywordCommaAmbiguity` shows.
- PlatformEmails.CsvRoundTrip: the round trip is stated only for cells without quote marks or line breaks. The page writes cells without escaping them, and `CsvQuoteAmbiguity` shows what goes wrong otherwise.
