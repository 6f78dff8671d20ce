# PrinterMonitor Pro: a Dafny model of the dashboard session and the server routes

PrinterMonitor Pro watches office printers. A proxy device on the customer's network finds
printers and reports about them to a server. Users then see the printers in a web dashboard.
This project models and proves properties of the parts of that system that decide things:

- **Session store** (`dashboard/lib/auth-context.tsx`), in module `Session`. It covers the
  startup resolution of a stored token, `login`, `logout`, `register` and the `useAuth` guard.
  Each action is a pure step on a `Snapshot`, which holds the user, the loading flag, browser
  storage and the log of requests sent. Class `AuthStore` holds the same state in fields, and
  each of its methods is proved to perform exactly that step.
- **Request pipeline** (`dashboard/lib/api.ts`), in module `Api`. It covers the base URL, the
  default headers and the interceptor that attaches `Authorization: Bearer <token>`. Every
  endpoint helper is a request value.
- **Dashboard shell** (`dashboard/app/dashboard/layout.tsx`), in module `Layout`. It covers the
  loading, blank and shell views, the redirect to `/login`, and tab highlighting.
- **Billing page** (`dashboard/app/dashboard/billing/page.tsx`), in module `Billing`. It covers
  the tier table, the current tier, upgrade versus downgrade, the trial check, which buttons
  and lines are visible, price formatting and the checkout request.
- **Overview page** (`dashboard/app/dashboard/page.tsx`), in module `Overview`. It covers toner
  colours, bar width, labels and the page states.
- **Server routes**:
  - `server/src/routes/auth.py`, in module `Accounts`: register, login and the `/me` body.
  - `server/src/routes/printers.py`, in module `Printers`: the upsert on registration, the
    printer limit, list, get, update, and delete with its metrics cascade.
  - `server/src/routes/remote_subnets.py`, in module `Subnets`: list, create, update and delete.
  - Each table is a class holding a sequence of rows and the next auto-increment id. Its
    methods return either the result or the `HTTPException` the route raises.
- **Settings** (`server/src/config.py`), in module `Config`. It covers the CORS-origin
  validator, the defaults and the environment predicates.

Support modules:

- `Wrappers`: Option and Result.
- `Text`: integer to text, `split`, `strip`.
- `Http`: the raised error.
- `Tables`: the `filter().all()`, `filter().first()` and `delete` shapes the routes use.

Calls into code this model cannot see are parameters:

- The network's answers: for example, the `me` result is `Ok(user)` or `Err(apiError)`.
- Password hashing and verification, token encoding, the free-licence service and the
  printer-limit check.
- The clock: `now` is an integer timestamp.

## Login when the profile request fails

After a successful login exchange, the token is stored before `me` is called
(`dashboard/lib/auth-context.tsx:47-52`). If `me` fails, the token stays stored, the user is
unchanged and the error goes back to the caller. `Session.AfterLogin` states exactly this.

## Model

| member | source | states |
|---|---|---|
| Session.Initial | dashboard/lib/auth-context.tsx:30-31 | A fresh store has no user, is loading, has sent nothing, and keeps the storage it was given |
| Session.Issue | dashboard/lib/api.ts:13-21 | Sending a request changes nothing but the request log, which gains the request as the interceptor leaves it |
| Session.AfterStart | dashboard/lib/auth-context.tsx:33-45 | Startup always ends not loading. Without a token, nothing is sent and nothing else changes. With a token, one `me` request is sent; success sets the user, and failure removes the token and keeps the user the store had (none when startup begins from `Initial`) |
| Session.AfterLogin | dashboard/lib/auth-context.tsx:47-52 | If the login call fails, only that request is logged and the error is returned. On success the token is stored as `token` before `me` is sent; `me` success sets the user, `me` failure keeps the old user and returns the error |
| Session.AfterLogout | dashboard/lib/auth-context.tsx:54-57 | Logout from any state leaves no user and no `token` key, removes only that key, and sends nothing |
| Session.AfterRegister | dashboard/lib/auth-context.tsx:59-62 | If creation fails, only the register request is logged and its error is returned. Otherwise the outcome is login's, applied after the register request |
| Session.LoginAsksWithNewToken | dashboard/lib/auth-context.tsx:49-50 | The `me` call after login carries `Bearer` followed by the newly issued token |
| Session.StartWithoutToken | dashboard/lib/auth-context.tsx:42-44 | Starting with no token reaches no user and not loading, with no request sent |
| Session.LogoutIdempotent | dashboard/lib/auth-context.tsx:54-57 | Logging out twice is the same as logging out once |
| Session.LogoutThenResolve | dashboard/lib/auth-context.tsx:33-45 | After logout, a startup resolution finds no token: it sets no user and sends nothing |
| Session.UseAuth | dashboard/lib/auth-context.tsx:71-76 | Outside a provider, the hook fails with the source's message; inside one, it returns the context |
| Session.AuthStore.constructor | dashboard/lib/auth-context.tsx:29-31 | The store begins in the initial snapshot |
| Session.AuthStore.Send | dashboard/lib/api.ts:13-21 | The store's state after a send is `Issue` of the state before |
| Session.AuthStore.Start | dashboard/lib/auth-context.tsx:33-45 | The store's new state is `AfterStart` of the old one |
| Session.AuthStore.Login | dashboard/lib/auth-context.tsx:47-52 | The store's new state and the result returned are `AfterLogin` of the old state |
| Session.AuthStore.Logout | dashboard/lib/auth-context.tsx:54-57 | The store's new state is `AfterLogout` of the old one |
| Session.AuthStore.Register | dashboard/lib/auth-context.tsx:59-62 | The store's new state and the result returned are `AfterRegister` of the old state |
| Api.BaseUrl | dashboard/lib/api.ts:3 | A set, non-empty environment URL wins; otherwise the default `http://localhost:8000/api/v1` is used; the result is never empty |
| Api.CreateClient | dashboard/lib/api.ts:5-10 | The client uses that base URL, and its only default header is `Content-Type: application/json` |
| Api.Call | dashboard/lib/api.ts:5-10 | A call keeps the client's base URL and default headers, and the given verb, path and body |
| Api.StoredToken | dashboard/lib/api.ts:15-16 | A token is present exactly when the `token` key is stored with a non-empty value, and it is that value |
| Api.AttachToken | dashboard/lib/api.ts:14-19 | In a browser with a token, `Authorization` becomes `Bearer <token>` and the other headers are kept; otherwise the headers are unchanged |
| Api.CredentialRoundTrip | dashboard/lib/api.ts:14-19 | The credential read back from the attached header is exactly the stored token, or none when no token is stored |
| Api.Intercepted | dashboard/lib/api.ts:13-21 | The interceptor changes only the headers, and does so as `AttachToken` says |
| Api.RequestConfig.constructor | dashboard/lib/api.ts:13 | A config object holds the request it was made from |
| Api.RequestConfig.Intercept | dashboard/lib/api.ts:13-21 | The interceptor updates the config's headers in place and returns the same object |
| Api.RegisterCall | dashboard/lib/api.ts:25-26 | POST `/auth/register` with exactly `email`, `password` and `full_name`, holding the given values |
| Api.LoginCall | dashboard/lib/api.ts:28-29 | POST `/auth/login` with exactly `email` and `password` |
| Api.MeCall | dashboard/lib/api.ts:31 | GET `/auth/me` with no body |
| Api.PrintersListCall | dashboard/lib/api.ts:36 | GET `/printers` with no body |
| Api.PrinterGetCall | dashboard/lib/api.ts:37 | GET under `/printers/` with no body |
| Api.PrinterDeleteCall | dashboard/lib/api.ts:38 | DELETE under `/printers/` with no body |
| Api.MetricsSummaryCall | dashboard/lib/api.ts:43 | GET `/metrics/summary` with no body |
| Api.MetricsHistoryCall | dashboard/lib/api.ts:44-45 | GET under `/metrics/` with no body |
| Api.DevicesListCall | dashboard/lib/api.ts:50 | GET `/devices` with no body |
| Api.DeviceRegisterCall | dashboard/lib/api.ts:51-52 | POST `/devices/register` with exactly `name` and `version` |
| Api.SubnetsListCall | dashboard/lib/api.ts:57 | GET `/remote-subnets` with no body |
| Api.SubnetCreateCall | dashboard/lib/api.ts:58-59 | POST `/remote-subnets` with `subnet`. `description` and `device_id` are present exactly when given, because undefined keys are not serialised |
| Api.SubnetUpdateCall | dashboard/lib/api.ts:60-61 | PATCH under `/remote-subnets/` with the caller's fields as the body |
| Api.SubnetDeleteCall | dashboard/lib/api.ts:62-63 | DELETE under `/remote-subnets/` with no body |
| Api.IdPathsReadBack | dashboard/lib/api.ts:37-38 | The id in a printer or subnet path reads back as the id given; printer delete uses DELETE |
| Api.HistoryPathReadsBack | dashboard/lib/api.ts:44-45 | The history path reads back as the printer id and the day count, and the count is 7 when none is given |
| Layout.Render | dashboard/app/dashboard/layout.tsx:24-34 | Loading shows the loading screen. Otherwise, no user renders nothing and a user gets the shell with their email |
| Layout.ShouldRedirect | dashboard/app/dashboard/layout.tsx:18-22 | The redirect fires exactly when not loading and there is no user, which is exactly when the layout renders nothing |
| Layout.RedirectEffect | dashboard/app/dashboard/layout.tsx:18-22 | The router gains `/login` exactly when the redirect condition holds, and nothing otherwise |
| Layout.Router.constructor | dashboard/app/dashboard/layout.tsx:15 | A new router has pushed nothing |
| Layout.NoRedirectWhileLoading | dashboard/app/dashboard/layout.tsx:18-30 | While loading, whatever the user, there is no redirect and the loading screen shows |
| Layout.IsCurrentPath | dashboard/app/dashboard/layout.tsx:36 | A path is current exactly when it equals the pathname |
| Layout.TabActive | dashboard/app/dashboard/layout.tsx:48-87 | Dashboard and Billing are highlighted on their exact path; Printers and Settings on any path that starts with theirs |
| Layout.AtMostOneTabActive | dashboard/app/dashboard/layout.tsx:48-87 | No pathname highlights two tabs |
| Layout.PrinterDetailHighlightsPrinters | dashboard/app/dashboard/layout.tsx:61 | A printer detail page highlights Printers and not Dashboard |
| Billing.TierTable | dashboard/app/dashboard/billing/page.tsx:42-83 | Four tiers in the order free, maker, pro, enterprise, with distinct ids and strictly increasing monthly prices starting at 0 |
| Billing.TierIndex | dashboard/app/dashboard/billing/page.tsx:169-170 | `findIndex`: the first position whose id matches, or -1 exactly when none does |
| Billing.FindTier | dashboard/app/dashboard/billing/page.tsx:113 | `find`: the tier at `TierIndex`, present exactly when that index is valid |
| Billing.CurrentTier | dashboard/app/dashboard/billing/page.tsx:113 | The listed tier whose id is the licence's tier id. It is absent exactly when there is no licence or no tier has that id |
| Billing.CurrentPlanName | dashboard/app/dashboard/billing/page.tsx:131 | The plan name is never empty. It is "Unknown" or the name of a listed tier with the licence's tier id. Over the page's table it is "Unknown" exactly when no tier is current |
| Billing.IsCurrent | dashboard/app/dashboard/billing/page.tsx:168 | A tier is current exactly when the licence names it |
| Billing.IsUpgrade | dashboard/app/dashboard/billing/page.tsx:169-170 | An upgrade is never the current tier and is always listed. With no current tier, every listed tier is an upgrade |
| Billing.IndexOfListed | dashboard/app/dashboard/billing/page.tsx:169 | When ids are distinct, each listed tier is found at its own position |
| Billing.UpgradeIsLaterPosition | dashboard/app/dashboard/billing/page.tsx:168-170 | A tier is an upgrade exactly when it comes after the current tier. With no licence or an unknown tier, every tier is an upgrade |
| Billing.ShowsChangeButton | dashboard/app/dashboard/billing/page.tsx:208 | The Upgrade/Downgrade button shows exactly for tiers that are neither current nor free. For a tier of the page's table, that is exactly when it is not the first tier and its position differs from the current tier's |
| Billing.ButtonsOnPage | dashboard/app/dashboard/billing/page.tsx:208-221 | On the page's table, with the current tier at position k (-1 when none), the change button shows at every position except 0 and k, and the Current Plan button shows only at k, when k is not 0 |
| Billing.ShowsCurrentPlanButton | dashboard/app/dashboard/billing/page.tsx:221 | The disabled Current Plan button shows exactly for the current tier when it is not free, and never together with the change button |
| Billing.OneButtonPerPaidTier | dashboard/app/dashboard/billing/page.tsx:208-221 | A free tier shows neither button; every other tier shows exactly one |
| Billing.ChangeButtonLabel | dashboard/app/dashboard/billing/page.tsx:217 | The label is "Upgrade" exactly for an upgrade, and "Downgrade" otherwise |
| Billing.IsTrialActive | dashboard/app/dashboard/billing/page.tsx:114-115 | A trial is active exactly when the status is `trial` and the end time is set and later than now |
| Billing.TrialActiveEarlier | dashboard/app/dashboard/billing/page.tsx:114-115 | A trial active now was also active at every earlier time |
| Billing.ShowsActiveSubscription | dashboard/app/dashboard/billing/page.tsx:134-135 | "Active subscription" shows exactly when the licence status is `active`, and then no trial notice shows at any time |
| Billing.ShowsStartingPrice | dashboard/app/dashboard/billing/page.tsx:143 | The "Starting at" price needs a licence whose tier is not enterprise |
| Billing.ShowsAnnualSavings | dashboard/app/dashboard/billing/page.tsx:192 | The annual-savings line shows exactly when the yearly price is positive. On the page's table, that is every tier except `free` |
| Billing.TwoDigits | dashboard/app/dashboard/billing/page.tsx:92 | Cents below 100 become exactly two digits that read back as the number |
| Billing.FormatPrice | dashboard/app/dashboard/billing/page.tsx:91-93 | A price is `$`, then digits, then `.`, then two digits |
| Billing.FormatPriceRoundTrip | dashboard/app/dashboard/billing/page.tsx:91-93 | Reading a formatted price back gives the number of cents it came from |
| Billing.TierPricesShown | dashboard/app/dashboard/billing/page.tsx:91-93 | 0, 1000 and 150000 cents show as `$0.00`, `$10.00` and `$1500.00` |
| Billing.CheckoutCall | dashboard/app/dashboard/billing/page.tsx:95-100 | The checkout request is POST `/billing/create-checkout-session` with the tier's id and billing period `monthly`, as line 210 always passes |
| Billing.BillingPage.constructor | dashboard/app/dashboard/billing/page.tsx:27-29 | The page starts with no licence, no tiers and loading |
| Billing.BillingPage.LoadData | dashboard/app/dashboard/billing/page.tsx:35-89 | Loading always ends. On success the licence comes from `/me` and the tiers are the fixed table; on failure both stay as they were |
| Overview.TonerShade | dashboard/app/dashboard/page.tsx:39-44 | No level is gray; above 50 is green; 21 to 50 is yellow; 20 and below is red |
| Overview.TonerColor | dashboard/app/dashboard/page.tsx:39-44 | The bar's class is `bg-gray-200` exactly without a level, `bg-green-500` exactly above 50, `bg-yellow-500` exactly for 21 to 50 and `bg-red-500` exactly for 20 and below |
| Overview.ColorFollowsShade | dashboard/app/dashboard/page.tsx:39-44 | Two levels get the same class exactly when they get the same shade |
| Overview.ShadeMonotone | dashboard/app/dashboard/page.tsx:41-43 | A higher level never gets a worse colour. 50 is yellow and 51 green; 20 is red and 21 yellow |
| Overview.BarWidth | dashboard/app/dashboard/page.tsx:112 | The bar width is the level, or 0 when there is none |
| Overview.TonerLabel | dashboard/app/dashboard/page.tsx:116 | The label is "Unknown" exactly when there is no level |
| Overview.LabelReadsBack | dashboard/app/dashboard/page.tsx:116 | A level's label is its number followed by `%`, and the number reads back as the level |
| Overview.Render | dashboard/app/dashboard/page.tsx:46-60 | The page shows the loading text exactly while loading and the empty state exactly when loaded with no printers. Otherwise it shows one card per printer |
| Overview.DashboardPage.constructor | dashboard/app/dashboard/page.tsx:21-22 | The page starts with no printers and loading |
| Overview.DashboardPage.LoadData | dashboard/app/dashboard/page.tsx:28-37 | Loading always ends. On success the printers are the summary; on failure they stay as they were |
| Config.ParseCorsOrigins | server/src/config.py:37-42 | A string becomes a list with one more element than it has commas. Each element is its comma-separated piece, stripped, and empty pieces are kept. A list is returned unchanged |
| Config.ParsedOriginsAreClean | server/src/config.py:41 | No parsed origin contains a comma or begins or ends with whitespace |
| Config.SingleOrigin | server/src/config.py:41 | A string with no comma parses to the one stripped string |
| Config.DefaultCorsOriginsParse | server/src/config.py:35 | Applying the validator to the default `http://localhost:3000` gives exactly that one origin |
| Config.IsProduction | server/src/config.py:67-69 | Production exactly when the environment is `production`, and never in the default environment |
| Config.IsDevelopment | server/src/config.py:72-74 | Development exactly when the environment is `development`, and then never production |
| Config.DefaultIsDevelopment | server/src/config.py:72-74 | The default environment is development and not production |
| Accounts.CredentialsRejected | server/src/routes/auth.py:63-68 | The 401 carries "Incorrect email or password" and `WWW-Authenticate: Bearer` |
| Accounts.TokenClaims | server/src/routes/auth.py:79-82 | The token's subject reads back as the user's id; the claims also hold the email and the configured lifetime `ACCESS_TOKEN_EXPIRE_MINUTES`, passed in |
| Accounts.IssueToken | server/src/routes/auth.py:86-89 | The login reply is the encoding of the user's claims, with the configured lifetime, and token type `bearer` |
| Accounts.LicenseObject | server/src/routes/auth.py:112-117 | The licence object has exactly `tier_id`, `status`, `trial_ends_at` and `expires_at` |
| Accounts.MeResponse | server/src/routes/auth.py:100-119 | The body has the seven profile keys, each holding the user's own value (`null` for an unset name or last login), plus `license` exactly when the user has one, and its value is that licence's object |
| Accounts.MeLicenseReadsBack | server/src/routes/auth.py:110-117 | The licence a client reads from the body is the user's own, or none when the user has none |
| Accounts.UserTable.constructor | server/src/models/user.py:14-18 | The table starts empty and valid |
| Accounts.UserTable.Register | server/src/routes/auth.py:28-41 | A taken email gives 400 and no change. Otherwise exactly one user is added: active, unverified, holding the password's hash and the free licence. Ids and emails stay unique |
| Accounts.UserTable.Login | server/src/routes/auth.py:61-89 | An unknown email and a wrong password get the same 401, and the password is checked before the active flag. A disabled account gets 403 and its last login is not touched. Success records the login time and returns the user's token |
| Subnets.ApplyUpdate | server/src/routes/remote_subnets.py:87-92 | Only given fields change; subnet, owner and id never do; a device id, once set, is never cleared |
| Subnets.ApplyUpdateIdempotent | server/src/routes/remote_subnets.py:87-92 | An empty patch changes nothing, and applying a patch twice equals applying it once |
| Subnets.SubnetTable.constructor | server/src/models/remote_subnet.py:1-28 | The table starts empty and valid |
| Subnets.SubnetTable.List | server/src/routes/remote_subnets.py:23-27 | Exactly the caller's rows, in table order |
| Subnets.SubnetTable.Create | server/src/routes/remote_subnets.py:39-58 | A subnet the same user already has gives 400 and no change; another user's identical subnet does not block. Otherwise exactly one enabled row is added, owned by the caller. No user ever holds one subnet twice |
| Subnets.SubnetTable.Update | server/src/routes/remote_subnets.py:76-97 | A missing or foreign id gives 404 and no change. Otherwise only the target row is replaced by `ApplyUpdate` of it |
| Subnets.SubnetTable.Delete | server/src/routes/remote_subnets.py:108-120 | A missing or foreign id gives 404 and no change. Otherwise exactly the target row is removed and the others keep their order |
| Printers.Refreshed | server/src/routes/printers.py:43-46 | Re-registration takes name, location and model from the report, even when they are none, and sets `updated_at` to now. Id, owner, device, ip, manufacturer, serial number, connection status, last-seen and creation time are kept |
| Printers.NewPrinter | server/src/routes/printers.py:66-75 | A new printer belongs to the device's owner and to the device, carries the reported fields and is `connected`. Serial number and last-seen are unset, and creation and update times are now, as the column defaults give |
| Printers.ApplyUpdate | server/src/routes/printers.py:141-148 | Only the given name, location and model change; `updated_at` is always set; ip, device, owner, serial number and last-seen never change |
| Printers.LimitMessage | server/src/routes/printers.py:62 | The 403 detail starts with the plan's sentence, and reading it back gives the allowance and the current count it was built from |
| Printers.LimitMessageReadsBack | server/src/routes/printers.py:62 | The allowance is the first word after the plan's sentence, and the count is the fifth, less its full stop |
| Printers.PrinterTable.constructor | server/src/models/printer.py:1-47 | The tables start empty and valid |
| Printers.PrinterTable.Register | server/src/routes/printers.py:36-84 | A known (ip, device) pair is refreshed in place: no row is added and the limit is not consulted. A new pair is refused with the 403 limit message when the check says no. Otherwise exactly one new printer is appended. Unique addresses and attached metrics are preserved |
| Printers.PrinterTable.List | server/src/routes/printers.py:93-97 | Exactly the caller's printers, in table order |
| Printers.PrinterTable.Get | server/src/routes/printers.py:107-118 | A printer is returned exactly when the caller owns one with this id; otherwise 404 "Printer not found" |
| Printers.PrinterTable.Update | server/src/routes/printers.py:129-153 | A missing or foreign id gives 404 and no change. Otherwise only that printer is replaced by `ApplyUpdate` of it |
| Printers.PrinterTable.Delete | server/src/routes/printers.py:163-175 | A missing or foreign id gives 404 and no change. Otherwise exactly that printer is removed, and with it exactly the metrics that name it. Every remaining metric still names an existing printer |
| Printers.ReplaceKeepsMetricsAttached | server/src/models/printer.py:43 | Replacing a printer by one with the same id leaves every metric attached |
| Printers.AppendKeepsMetricsAttached | server/src/routes/printers.py:77 | Adding a printer leaves every metric attached |
| Printers.CascadeKeepsMetricsAttached | server/src/models/printer.py:43 | Deleting a printer together with its metrics leaves every other metric attached to an existing printer |
| Tables.Where | server/src/routes/remote_subnets.py:23-25 | `filter().all()` keeps exactly the rows that meet the condition, and no more rows than it had |
| Tables.First | server/src/routes/remote_subnets.py:39-42 | `filter().first()` finds the first row that meets the condition, and finds none exactly when no row does |
| Tables.RemoveAt | server/src/routes/remote_subnets.py:119 | Deleting a row keeps every other row, in order |
| Text.IntToString | server/src/routes/printers.py:62 | Integers are rendered as text, starting with `-` exactly when negative |
| Text.NatToStringRoundTrip | server/src/routes/printers.py:62 | A rendered natural number reads back as itself |
| Text.IntToStringRoundTrip | server/src/routes/auth.py:80 | A rendered integer parses back as itself |
| Text.Split | server/src/config.py:41 | `split(",")` gives one more piece than there are separators, and no piece contains one |
| Text.SplitJoin | server/src/routes/printers.py:62 | Joining pieces free of the separator and splitting again gives back the pieces |
| Text.JoinSplit | server/src/config.py:41 | Joining the pieces with the separator gives back the original string |
| Text.Strip | server/src/config.py:41 | `strip()` removes leading and trailing whitespace only: the result is a middle slice of the input and does not start or end with whitespace |

## Left out

- Transport and persistence: axios, the SQLAlchemy session, commits, refreshes and the FastAPI
  wiring. Tables are sequences of rows, and each HTTP result is a success or an error value.
- Request validation: the Pydantic request schemas and the CIDR check on subnets are not
  modelled. Bodies reach the handlers already valid.
- Password hashing and checking, JWT encoding, `LicenseService.create_free_license`,
  `check_printer_limit` and `get_effective_tier`: these are parameters of the members that use
  them, without their own semantics.
- Authentication dependencies (`get_current_user`, `get_current_device`): the caller's id or
  device is an argument.
- The second `delete_printer` in `server/src/routes/printers.py:180-217` duplicates the first
  one and names a class it never imports. Only the first handler is modelled.
- The `logout` route in `server/src/routes/auth.py:122-127` only returns a fixed message, so
  it is not modelled.
- All date handling: timestamps are integers. `new Date()`, `toLocaleString` and
  `datetime.utcnow()` are replaced by a `now` argument.
- Billing.FormatPrice: takes whole non-negative cents and uses integer division and
  remainder. The floating-point `toFixed(2)` on other values is not modelled.
- Concurrent requests on the server: each route handler is one sequential step on the tables.
  The uniqueness invariants, such as no user holding one subnet twice, hold for requests
  handled one at a time; two racing requests are not modelled.
- Server-side logging: the `print` calls in `server/src/routes/auth.py:49-51` and line 84,
  `server/src/routes/printers.py:50`, lines 81-82 and 177, and
  `server/src/routes/remote_subnets.py:62` and line 122 are console output only and are
  not modelled.
- Pydantic's validator semantics: `@validator("CORS_ORIGINS")` does not run on a default value,
  so with the variable unset the setting stays the plain default string. The model gives the
  validator's result when it is applied, and does not model when pydantic applies it.
- The `updated_at` column of the user table (`server/src/models/user.py:26`): it is set by the
  database on every update, including the commit after a successful login. `Accounts.UserRecord`
  has no such field, so `Accounts.UserTable.Login` does not state that change.
- The token lifetime: `ACCESS_TOKEN_EXPIRE_MINUTES` (`server/src/config.py:30`) is a setting.
  Its default of 30 is `Config.DefaultAccessTokenExpireMinutes`, and the login members take the
  lifetime as an argument.
- Asynchronous interleaving: each session action is one step. Later `then` callbacks racing
  other actions, and concurrent logins, are not modelled.
- Presentational markup is not modelled. This covers the class strings other than the toner
  bar's, cards, the location and page-count fallbacks, and the non-functional "Coming Soon" remote printer form.
- Billing.ShowsStartingPrice: states only the necessary direction, that a licence whose tier is
  not enterprise is needed; the exact condition is the function's own definition.
- The proxy side (`proxy/`), the metrics, devices and billing routes on the server, and the
  other dashboard pages are not part of this model, apart from the request helpers in
  `dashboard/lib/api.ts`.
