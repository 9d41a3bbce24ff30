# Meta ad account balance viewer, modelled in Dafny

The viewer is a small Next.js application placed in front of the Meta Graph API.
A browser page asks for an access token and checks it through `POST /api/validate-token`.
It then lists the token owner's ad accounts, one page at a time, through `GET /api/accounts`.
Both routes use a thin client for the Graph API.
The token is kept in `localStorage` under a Base64 obfuscation.

This project models that logic:

- **The Graph API client** (`MetaApi`):
  - the account-status badge classifier;
  - the URL choice of the listing call;
  - how each call turns an HTTP outcome into a tagged result without throwing.
- **The credential store** (`TokenStorage`, on top of `Base64` and `Text`):
  - `btoa`/`atob`, modelled concretely as RFC 4648 section 4 Base64 over Latin-1 code units, with the forgiving decoder of the WHATWG HTML standard;
  - `split`, `replace`, `includes` and `trim` as JavaScript defines them;
  - `localStorage` as a map field of a class.
- **The two route handlers** (`AccountsRoute`, `ValidateTokenRoute`), as functions from the request and the upstream's behaviour to a status and a body.
- **The dashboard** (`DashboardView`): a class with the seven state cells of the component. Its fetch and handler methods are proved against `ApplyReply`, a function giving the listing after one reply. The request URL is built with the form encoding of `URLSearchParams` (`FormEncoding`).
- **The token entry form** (`TokenEntry`) and **the home page** (`HomePage`): classes whose methods are the component's handlers.

The network is a function parameter:

- `Upstream<T>` maps a URL to `HttpOutcome<T>`. An outcome is either a response, with a status and a body that may fail to parse as JSON, or a transport failure.
- `Endpoint` and `ValidateEndpoint` are the browser-side counterparts.

`Date.now()` is a `nat` parameter. `typeof window` is the store's `hasWindow` constant.

## Model

| member | source | states |
|---|---|---|
| `MetaApi.AccountStatusText` | lib/metaApi.ts:74-98 | total over all integers; the text is `Other` exactly for codes outside the ten listed ones; text and background classes carry the hue of the code's group (green for 1; red for 2, 100, 101; yellow for 3, 7, 8, 9; blue for 201, 202; gray otherwise) |
| `MetaApi.ClassesNameHue` | lib/metaApi.ts:74-98 | every text class is `text-<hue>-600` and every background class `bg-<hue>-100`, so a badge's two classes always name the same colour |
| `MetaApi.DocumentedLabels` | lib/metaApi.ts:64-95 | each listed code is labelled with its documented upstream name, read as capitalised words |
| `MetaApi.MetaApiClient.ValidateToken` | lib/metaApi.ts:13-26 | valid exactly for a parsed 2xx reply, carrying the parsed user; non-2xx gives `Invalid or expired token`; a transport or JSON failure gives `Failed to validate token`; nothing is thrown |
| `MetaApi.MetaApiClient.AdAccountsUrl` | lib/metaApi.ts:30-39 | a non-empty pagination link is fetched verbatim; an absent or empty one gives the token owner's `/me/adaccounts` listing with the seven fields and the client's token |
| `MetaApi.MetaApiClient.GetAdAccounts` | lib/metaApi.ts:28-55 | no error exactly for a parsed 2xx reply, whose payload is passed through unchanged; every error comes with an empty page; 401 gives `Token expired or invalid`; other non-2xx `s` gives `API Error: s`; transport or JSON failure gives `Failed to fetch ad accounts` |
| `Base64.DecodeEncode` | lib/tokenStorage.ts:6-11 | decoding the padded Base64 encoding of any byte string gives those bytes back |
| `Base64.AtobBtoa` | lib/tokenStorage.ts:6-11 | `atob(btoa(s)) == s` for every Latin-1 string |
| `Base64.AtobRejectsForeignChar` | lib/tokenStorage.ts:10-16 | a character outside the alphabet, `=` and ASCII whitespace makes `atob` fail |
| `Base64.AtobRejectsDanglingDigit` | lib/tokenStorage.ts:10-16 | a digit count one more than a multiple of four makes `atob` fail |
| `Text.DecimalRoundTrip` | lib/tokenStorage.ts:6 | the decimal rendering of the timestamp reads back as the same number |
| `TokenStorage.EncryptToken` | lib/tokenStorage.ts:4-7 | defined (does not throw) exactly for a Latin-1 token |
| `TokenStorage.DecryptToken` | lib/tokenStorage.ts:9-17 | `null` exactly when `atob` fails; otherwise the text before the first `::` of the decoded value |
| `TokenStorage.RecoveredToken` | lib/tokenStorage.ts:11-13 | what a stored token reads back as is always a prefix of it |
| `TokenStorage.StoredToken` | lib/tokenStorage.ts:25-29 | `null` without a window or for an absent or empty value; a non-null answer implies the value is present; a present value is decoded |
| `TokenStorage.TokenStore.Save` | lib/tokenStorage.ts:19-23 | overwrites only the one key, and succeeds exactly with a window and a Latin-1 token; afterwards `exists` holds and `get` returns the recovered token |
| `TokenStorage.TokenStore.Get` | lib/tokenStorage.ts:25-29 | returns what `StoredToken` gives for the current contents |
| `TokenStorage.TokenStore.Remove` | lib/tokenStorage.ts:31-35 | deletes the key when there is a window and is a no-op otherwise; afterwards `get` is `null` and `exists` is false |
| `TokenStorage.TokenStore.Exists` | lib/tokenStorage.ts:37-40 | true exactly with a window and a non-empty stored value, without decoding it |
| `TokenStorage.DecryptEncrypt` | lib/tokenStorage.ts:4-17 | decrypting an encryption gives the recovered token, whatever the timestamp |
| `TokenStorage.RecoveredExactly` | lib/tokenStorage.ts:6-13 | the token comes back unchanged exactly when it contains no `::` and does not end with `:` |
| `TokenStorage.SaveGetRoundTrip` | lib/tokenStorage.ts:19-29 | `get` after `save` returns a Latin-1 token exactly when the token has no `::` and no trailing `:` |
| `TokenStorage.SeparatorInTokenIsLossy` | lib/tokenStorage.ts:12-13 | a token containing `::` comes back cut at its first `::`, strictly shorter |
| `TokenStorage.CorruptValueExistsButReadsNull` | lib/tokenStorage.ts:37-40 | a stored value that is not Base64 makes `exists` true while `get` is `null` |
| `AccountsRoute.QueryParam` | app/api/accounts/route.ts:13-15 | the value of the first query parameter with that name, present exactly when one exists |
| `AccountsRoute.BearerToken` | app/api/accounts/route.ts:6 | the header with its first `Bearer ` occurrence removed; absent without a header |
| `AccountsRoute.ErrorStatus` | app/api/accounts/route.ts:25-35 | 401 exactly when the error mentions `Token expired` or `invalid`; otherwise 403 exactly when it mentions `Insufficient permissions`; otherwise 500 |
| `AccountsRoute.Get` | app/api/accounts/route.ts:4-40 | 401 `Token required` for a missing or empty token, before any other check; then 400 for a missing or empty business account id; then the client result, either 200 with its payload unchanged or its error with the status `ErrorStatus` gives |
| `AccountsRoute.GuardsNeverReachUpstream` | app/api/accounts/route.ts:8-19 | a request that fails a guard gets the same answer whatever the upstream does |
| `AccountsRoute.BearerHeaderGivesToken` | app/api/accounts/route.ts:6 | `Bearer X` is read as the token `X` |
| `AccountsRoute.ApiErrorIsServerError` | app/api/accounts/route.ts:25-35 | every `API Error: s` text maps to 500 |
| `AccountsRoute.FetchFailureIsServerError` | app/api/accounts/route.ts:25-35 | `Failed to fetch ad accounts` maps to 500 |
| `AccountsRoute.ExpiryIsUnauthorized` | app/api/accounts/route.ts:26-28 | `Token expired or invalid` maps to 401 |
| `AccountsRoute.ClientErrorStatus` | app/api/accounts/route.ts:25-35 | every client error maps to 401 exactly for an upstream 401, and never to 403 |
| `AccountsRoute.StatusFollowsUpstream` | app/api/accounts/route.ts:21-39 | with both fields present, the answer is 200 with the page exactly for a parsed 2xx reply, 401 exactly for an upstream 401, and 500 otherwise |
| `AccountsRoute.PaginationLinkFetchedVerbatim` | app/api/accounts/route.ts:14-23 | a non-empty `url` parameter is the URL the client fetches |
| `ValidateTokenRoute.Post` | app/api/validate-token/route.ts:4-44 | a malformed body gives 500 `Failed to validate token` with `valid:false`; a falsy token gives 400 `Token is required`; an invalid result gives 400 with its error, defaulting to `Invalid or expired token`; a valid result gives 200 with only `id` and `name` of the user; a null user gives 500 |
| `ValidateTokenRoute.MissingTokenNeverReachesUpstream` | app/api/validate-token/route.ts:6-13 | a falsy token is refused with 400 whatever the upstream does |
| `ValidateTokenRoute.StatusFollowsIdentityLookup` | app/api/validate-token/route.ts:15-35 | the untrimmed token is looked up as received; 200 exactly for a parsed user record, projected to id and name; upstream rejection and transport failure give 400 with the client's message |
| `FormEncoding.Serialize` | app/components/Dashboard.tsx:26-35 | the serialization is empty exactly when no parameter was appended |
| `FormEncoding.PlainTextVerbatim` | app/components/Dashboard.tsx:26-35 | text made only of ASCII letters, digits and `*-._` is serialized unchanged |
| `DashboardView.RequestParams` | app/components/Dashboard.tsx:26-32 | `url` comes first exactly when a cursor is given, `businessAccountId` comes last exactly when it is non-empty, and nothing else is appended |
| `DashboardView.RequestUrl` | app/components/Dashboard.tsx:24-36 | starts with `/api/accounts`; has a query part exactly when some parameter exists, and that part is `?` followed by the serialized parameters |
| `DashboardView.PageAfter` | app/components/Dashboard.tsx:57-64 | the page counter never drops below 1 |
| `DashboardView.ApplyReply` | app/components/Dashboard.tsx:44-70 | keeps the listing well formed. The error is the expiry message exactly for a 401. It is empty exactly for a parsed 2xx reply. When the error is set, nothing else changes. On success, accounts and both cursors are replaced from the page (a missing list becomes `[]`, a missing or empty link becomes `null`) and the counter moves by the direction |
| `DashboardView.Dashboard.constructor` | app/components/Dashboard.tsx:14-20 | no accounts, no error, no cursors, page 1, loading |
| `DashboardView.Dashboard.BuildApiUrl` | app/components/Dashboard.tsx:24-36 | the URL built by appending parameters is `RequestUrl` of `RequestParams` of the cursor and the business account id |
| `DashboardView.Dashboard.FetchAccounts` | app/components/Dashboard.tsx:22-71 | fetches `RequestUrl` with `Bearer <token>`; the new listing is `ApplyReply` of the old one and the reply; the flags are untouched |
| `DashboardView.Dashboard.ShowError` | app/components/Dashboard.tsx:44-69 | sets the banner text and leaves accounts, cursors, page and flags as they were |
| `DashboardView.Dashboard.ShowPage` | app/components/Dashboard.tsx:52-65 | replaces the accounts (empty without `data`), clears the error, takes both cursors from `paging` with empty ones as absent, and moves the page by `PageAfter` |
| `DashboardView.Dashboard.HandleRefresh` | app/components/Dashboard.tsx:73-77 | fetches with no cursor in initial mode; `refreshing` is false afterwards |
| `DashboardView.Dashboard.HandleNextPage` | app/components/Dashboard.tsx:79-85 | a no-op without a `next` cursor; otherwise fetches exactly that cursor in next mode and ends with `loading` false |
| `DashboardView.Dashboard.HandlePreviousPage` | app/components/Dashboard.tsx:87-93 | a no-op without a `previous` cursor; otherwise fetches exactly that cursor in previous mode and ends with `loading` false |
| `DashboardView.Dashboard.Mount` | app/components/Dashboard.tsx:95-102 | fetches with no cursor in initial mode; `loading` is false afterwards |
| `DashboardView.PreviousUndoesNext` | app/components/Dashboard.tsx:57-61 | moving back after moving forward restores the page; moving back from page 1 stays on 1 |
| `DashboardView.EnterNewTokenOnlyAfterExpiry` | app/components/Dashboard.tsx:156-163 | of the banner texts the component produces, the "Enter new token" action is shown exactly for the expiry message |
| `DashboardView.EnterNewTokenFollowsUnauthorized` | app/components/Dashboard.tsx:44-48 | after a reply, the action is offered exactly when the reply was a 401 |
| `DashboardView.PaginationFollowsLinks` | app/components/Dashboard.tsx:180 | after a successful reply, pagination shows exactly when the page has accounts and a non-empty `next` or `previous` link |
| `DashboardView.FailureKeepsGrid` | app/components/Dashboard.tsx:49-69 | a failed fetch leaves accounts, cursors, page and the pagination display as they were |
| `DashboardView.AuthorizationCarriesToken` | app/components/Dashboard.tsx:38-42 | the accounts route reads the dashboard's `Bearer <token>` header back as the token |
| `TokenEntry.RejectionMessage` | app/components/TokenInput.tsx:29-33 | never empty; the endpoint's message, or `Invalid token` without one, or the connection message when no JSON arrived |
| `TokenEntry.TokenInput.constructor` | app/components/TokenInput.tsx:9-11 | empty field, not validating, no error |
| `TokenEntry.TokenInput.SetToken` | app/components/TokenInput.tsx:59 | replaces the field and nothing else |
| `TokenEntry.TokenInput.HandleSubmit` | app/components/TokenInput.tsx:13-37 | posts the trimmed token; hands the trimmed token on exactly when the reply is ok and `valid`, with no error shown; otherwise shows `RejectionMessage`; ends not validating |
| `TokenEntry.SubmitEnabledIff` | app/components/TokenInput.tsx:77 | the button is enabled exactly when the field has a non-whitespace character and no validation runs |
| `TokenEntry.EnabledSubmitPassesRouteGuard` | app/components/TokenInput.tsx:22 | an enabled submission never meets the route's `Token is required` answer |
| `TokenEntry.RouteReply` | app/api/validate-token/route.ts:29-42 | the route always answers with a JSON body |
| `TokenEntry.FormAcceptsIdentifiedTokens` | app/components/TokenInput.tsx:19-31 | against the route, a token is accepted exactly when the upstream identity lookup returns a user record; an upstream rejection shows `Invalid or expired token` |
| `HomePage.CredentialsOf` | app/page.tsx:14-18 | credentials are read exactly when the store's answer is truthy, and both read as undefined |
| `HomePage.SelectScreen` | app/page.tsx:34-48 | the loading placeholder exactly while loading; the dashboard exactly when loaded with both a token and a business account id; the form otherwise |
| `HomePage.Home.constructor` | app/page.tsx:8-10 | no token, no business account id, loading |
| `HomePage.Home.Mount` | app/page.tsx:12-20 | the fields take what the store's credentials give when there are any and stay as they were otherwise; loading ends either way |
| `HomePage.Home.HandleTokenSubmit` | app/page.tsx:22-26 | saves the token, then sets both fields to the submitted values; when `save` throws nothing changes |
| `HomePage.Home.HandleLogout` | app/page.tsx:28-32 | removes the stored token, after which `get` is `null` and `exists` false, and clears both fields |
| `HomePage.MountNeverRestoresSession` | app/page.tsx:12-20 | whatever the store holds, a fresh mount ends on the token form |
| `HomePage.FormSubmitNeverShowsDashboard` | app/page.tsx:22-26 | a submission from the form, which passes no business account id, leaves the page on the form |
| `HomePage.LogoutShowsForm` | app/page.tsx:28-32 | after logout the page shows the form, and a later mount finds nothing stored |

## Observations

These are behaviours of the files as written. They come from signature mismatches between files and are stated as lemmas, not corrected:

- The home page reads `.token` and `.businessAccountId` from the string `tokenStorage.get` returns (app/page.tsx:14-17 against lib/tokenStorage.ts:25). Both read as undefined, so a stored token never restores a session (`HomePage.MountNeverRestoresSession`).
- The form calls `onTokenSubmit` with only the token (app/components/TokenInput.tsx:5,28). The page's handler takes a second argument (app/page.tsx:22), which therefore stays undefined. A submission alone never reaches the dashboard (`HomePage.FormSubmitNeverShowsDashboard`).
- The accounts route passes a second argument to the one-argument client constructor (app/api/accounts/route.ts:22). The extra argument is ignored.
- The store's round trip needs more than "no `::` in the token". A token ending with `:` also loses that character, because `a:` + `::` splits at the first `::` (`TokenStorage.RecoveredExactly`).
- No client error contains `Insufficient permissions`, so the route's 403 branch is unreachable through this client (`AccountsRoute.ClientErrorStatus`).

## Left out

- `formatBalance` (lib/metaApi.ts:57-62) and `AccountCard`: locale currency formatting and floating-point division by 100.
- JSX, styling and help text; only the display conditions at app/components/Dashboard.tsx:156 and :180, the submit condition and the screen selection are modelled.
- `fetch`, HTTP transport and JSON parsing: a reply is a status plus an optional parsed body. JSON of another shape, for example a `token` that is a number or an object, a `null` listing payload, or a `data` that is not an array, is not represented.
- Numbers in payloads are unbounded integers.
- The accounts route's `catch` (app/api/accounts/route.ts:41-47): nothing in the modelled route can throw, because the client never does. The `Internal server error` answer is therefore not produced.
- Query-string parsing on the route side is taken as given: the route receives its parameters already decoded. The model does not prove that decoding the dashboard's encoded URL gives back its parameters.
- Async interleaving and React effect scheduling: each handler is one atomic transition. While a fetch is awaited, `loading`, `refreshing` and `isValidating` are raised. That intermediate value is set in the handler bodies but no contract observes it.
- `localStorage` is a map. Quota and security exceptions of `setItem` are not modelled. Without a window `save` throws: the model stores nothing and the page keeps its state, but it does not model the exception escaping the submit handler.
- JavaScript strings are sequences of Unicode scalar values here. Lone surrogates are not represented.
- `Date.now()` is a natural-number parameter.
- `console.error` logging.
