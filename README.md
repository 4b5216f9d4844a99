# LgPlaywright decision logic, modelled in Dafny

The repository holds two Playwright end-to-end scripts that drive the live
LG web shop: an add-to-cart run over a product listing page (PLP) and a
product detail page (PDP), and a member login run. Nearly every line talks
to the browser. What this project models is the decision logic between
those calls, with the browser replaced by an oracle:

- **Ordered selector fallback** (`Locator`). A page is a function from a
  selector string to a `Probe`. A probe is either a lookup that throws, or a
  match count, a visibility flag and whether the call site's follow-up
  action (scroll and click, or `innerText()`) completes. Each call site has
  a demand, a `Need`: attached, shown, shown-and-acted or
  attached-and-acted. `Search` walks the candidates in order, swallows
  failures and stops at the first accepted candidate. `DismissModals`
  clicks every candidate that has a match.
- **URL predicates** (`Strings`, `Routing`, `AddToCart.IsCartApi`,
  `MemberLogin.IsLoginApi`). JavaScript `includes` is a left-to-right scan,
  proved equal to an offset-based reference meaning `Occurs`. The contracts
  of the predicates are stated with `Occurs`.
- **Navigation choices** (`AddToCart`). These are the random category, the
  "different" category, the bounded PDP card index and href normalisation.
  Each `Math.random()` draw is an index parameter, bounded by a `requires`
  exactly as `Math.floor(Math.random() * n)` bounds it.
- **Scenario bodies**. `AddToCart.RunAddToCart` and `MemberLogin.RunLogin`
  run the steps in source order. They return the thrown error or a report.
  The login run also returns its browser effects, so "missing credentials
  throw before any routing or navigation" can be stated. The response
  monitor's growing `apiResponses` array is the class
  `MemberLogin.ResponseLog`.

Where the code is more precise than a loose reading of it, the model
follows the code:

- The submit search (tests/lg-member-login.spec.ts:258-268) and the
  add-to-cart search skip a candidate whose click throws. They therefore
  demand `ShownAndActed`, not only "visible".
- The error-indicator search (tests/lg-member-login.spec.ts:332-342) only
  sets `hasError` after `innerText()` succeeds. It also demands
  `ShownAndActed`.
- The cart-badge loop (tests/lg-add-to-cart.spec.ts:303-312) only stops
  after `innerText()` succeeds. It demands `AttachedAndActed`.
- A throwing `isVisible()` has the same effect as `false` at every call
  site, so it is folded into `visible == false`.
- An empty `href` is falsy in JavaScript. Like a missing one, it falls back
  to clicking the card.
- `blockedDomains` and its `shouldBlock` route are identical in both
  scripts (tests/lg-member-login.spec.ts:35-52). They are modelled once, in
  `Routing`. `WwwEntryIsRedundant` shows that the
  `www.googletagmanager.com` entry never changes a decision.

## Model

| member | source | states |
|---|---|---|
| `Locator.LocateFrom` | tests/lg-add-to-cart.spec.ts:95-111 | The result is the first candidate in list order whose probe meets the demand. No earlier candidate meets it. "Not found" is returned exactly when no candidate meets it. |
| `Locator.Search` | tests/lg-member-login.spec.ts:170-180 | The `for`/`try`/`break` search loop returns exactly the first-match outcome, and never throws. |
| `Locator.FailingLookupIsNonMatch` | tests/lg-add-to-cart.spec.ts:107-110 | A candidate whose lookup throws counts as a non-match. The search continues as if that candidate had no matching node. |
| `Locator.DismissModals` | tests/lg-add-to-cart.spec.ts:48-66 | The dismissal loop issues a click on every candidate that has a match, in list order. |
| `Locator.AttemptsArePresentCandidates` | tests/lg-add-to-cart.spec.ts:58-65 | A selector is clicked if and only if it is a candidate with `count() > 0`, so every such candidate is clicked, not only the first. |
| `Locator.AttemptsIgnoreClickOutcome` | tests/lg-add-to-cart.spec.ts:62 | Click failures and visibility never affect which clicks are issued. Only match counts decide. |
| `Strings.IncludesIffOccurs` | tests/lg-add-to-cart.spec.ts:37 | `includes` as a left-to-right scan holds exactly when the substring occurs at some offset. |
| `Strings.IncludesAny` | tests/lg-add-to-cart.spec.ts:37 | `needles.some(n => s.includes(n))` holds exactly when some needle occurs in `s`. |
| `Routing.ShouldBlock` | tests/lg-add-to-cart.spec.ts:37 | `shouldBlock` holds exactly when some entry of `blockedDomains` is a substring of the URL. |
| `Routing.Route` | tests/lg-add-to-cart.spec.ts:35-45 | A request is aborted exactly when some blocked fragment is a substring of its URL. Every other request continues. |
| `Routing.WwwEntryIsRedundant` | tests/lg-add-to-cart.spec.ts:27-33 | Without the `www.googletagmanager.com` entry, the list blocks exactly the same URLs. |
| `AddToCart.RandomCategory` | tests/lg-add-to-cart.spec.ts:69-72 | The random category is a member of `PRODUCT_CATEGORIES`. |
| `AddToCart.Without` | tests/lg-add-to-cart.spec.ts:76 | The filter keeps exactly the entries different from the current category, and never grows the list. |
| `AddToCart.WithoutDistinctLength` | tests/lg-add-to-cart.spec.ts:76 | In a list without duplicates, the filter removes exactly one entry when the value is listed and none otherwise. |
| `AddToCart.OtherCategoriesCount` | tests/lg-add-to-cart.spec.ts:16-23 | `otherCategories` has 5 entries for a listed category and 6 otherwise. It is never empty, so the indexing never yields `undefined`. |
| `AddToCart.DifferentCategory` | tests/lg-add-to-cart.spec.ts:75-79 | The "different" category is a member of `PRODUCT_CATEGORIES` and differs from the current one. |
| `AddToCart.SecondCategory` | tests/lg-add-to-cart.spec.ts:183 | The second category differs from the first exactly when the coin chose "different". It is always a listed category in that case. |
| `AddToCart.IsCartApi` | tests/lg-add-to-cart.spec.ts:119-125 | Holds exactly when the URL contains one of `/cart`, `/add`, `/basket` and contains neither `chat` nor `sprinklr`. |
| `AddToCart.FirstCartResponse` | tests/lg-add-to-cart.spec.ts:115-133 | The correlated response is the first arrival that passes `IsCartApi`. There is none exactly when no arrival passes. |
| `AddToCart.AwaitCartApi` | tests/lg-add-to-cart.spec.ts:163-166 | The race yields the first arrival that passes the cart predicate, never a later one and never one that fails it. It yields none exactly when no matching response arrived in the window. |
| `AddToCart.PickCard` | tests/lg-add-to-cart.spec.ts:199-206 | A card count of 0 is the fatal error. Otherwise the index satisfies 0 <= i < min(cardCount2, 5). |
| `AddToCart.FullUrl` | tests/lg-add-to-cart.spec.ts:212 | The URL always starts with `http`. An href that starts with `http` (the `startsWith` test, `Strings.StartsWith`) is kept unchanged. Any other href is prefixed with exactly `https://www.lg.com`. |
| `AddToCart.FullUrlIdempotent` | tests/lg-add-to-cart.spec.ts:212 | Normalising an already normalised URL changes nothing. |
| `AddToCart.PdpNavigationFor` | tests/lg-add-to-cart.spec.ts:211-217 | A null or empty href falls back to clicking the card. Any other href opens its normalised URL. |
| `AddToCart.RunAddToCart` | tests/lg-add-to-cart.spec.ts:135-312 | The run fails only on an empty first or second listing, and with the matching error. Otherwise the report holds: the chosen categories with their membership and difference facts; the three dismissal passes; the first-match PLP and PDP add-to-cart searches; the alternates, tried exactly when the PDP search found nothing; the correlated responses; the bounded card index; the PDP navigation; the badge search. |
| `AddToCart.OnlyThirdButtonShown` | tests/lg-add-to-cart.spec.ts:95-106 | When only the third add-to-cart candidate is visible, the search returns the third. |
| `MemberLogin.Credentials` | tests/lg-member-login.spec.ts:21-26 | Fatal exactly when `PM_MEMBER_EMAIL` or `PM_MEMBER_PASSWORD` is unset or empty. Otherwise both values are passed on. |
| `MemberLogin.IsLoginApi` | tests/lg-member-login.spec.ts:68-76 | Holds exactly when the URL contains one of `/login`, `/auth`, `/signin`, `/member`, `/user`, `/profile`, `/session`. |
| `MemberLogin.DataOf` | tests/lg-member-login.spec.ts:80-89 | `responseData` is null exactly when the content type (`headers()['content-type'] \|\| ''`, `MemberLogin.ContentType`) does not include `application/json`. A failed parse yields the sentinel. A successful parse yields the parsed body. |
| `MemberLogin.RecordOf` | tests/lg-member-login.spec.ts:64-105 | An entry exists exactly for a login-API URL whose metadata can be read. It carries that URL, status, method, timestamp and `responseData`. |
| `MemberLogin.CapturedAppend` | tests/lg-member-login.spec.ts:91-97 | Later responses never change the entries recorded for earlier ones. |
| `MemberLogin.CapturedAreLoginApis` | tests/lg-member-login.spec.ts:68-97 | Every recorded entry's URL passes the login-API test. |
| `MemberLogin.ResponseLog.constructor` | tests/lg-member-login.spec.ts:55-61 | `apiResponses` starts empty. |
| `MemberLogin.ResponseLog.OnResponse` | tests/lg-member-login.spec.ts:64-106 | The handler appends exactly one entry for a recorded response and none otherwise. Earlier entries are unchanged, and only login-API URLs are ever held. |
| `MemberLogin.ResponseLog.OnResponses` | tests/lg-member-login.spec.ts:64-106 | After a sequence of responses, the array is the old array followed by the captured entries, in the order the handlers reach `push`. |
| `MemberLogin.Verdict` | tests/lg-member-login.spec.ts:392-394 | The test throws exactly when an error indicator was found. Otherwise it passes, carrying `loginSuccess`. |
| `MemberLogin.FinalExpectationHolds` | tests/lg-member-login.spec.ts:396 | Once the `hasError` guard passes, `expect(loginSuccess \|\| !hasError)` necessarily holds. |
| `MemberLogin.RunLogin` | tests/lg-member-login.spec.ts:19-396 | Missing credentials throw with no browser effect at all. Otherwise routing, monitoring and navigation come first. Each mandatory search fails with its own error, in order. A visible, readable error indicator fails the run. A passing run reports the first-match fields, the submit button and a count-only `loginSuccess`. It fills the credentials and ends with the submit click. |

## Left out

- All Playwright I/O (`goto`, `route`, `locator`, `click`, `fill`, `waitForLoadState`, `waitForTimeout`, `screenshot`, `evaluateAll`) sits behind the `Page` oracle and the observation records. If any of these throws outside a `try`, the scenario fails, and the model does not represent that.
- Each page is one snapshot per step. A click inside one loop (a modal closing, a failed add-to-cart click) does not change what the later candidates of the same loop observe.
- The `Promise.race` of `waitForCartApi` against the 5000 ms timeout and the 15 s `waitForResponse` timeout are concurrency and timing. The race's outcome is modelled by the finite list of responses that arrive before it resolves. Registering the listener before the click is only why that list may hold the click's own response. The order of registration and click is not itself modelled.
- MemberLogin.ResponseLog.OnResponses: takes events in the order their handlers reach `push` and runs each handler to completion. The `async` handler awaits `response.json()` for a JSON response, so a later non-JSON response can be pushed first. That interleaving is not modelled.
- `Math.random` and `Math.floor` are floating point. They are modelled as index parameters within the bounds the expression yields.
- `Date.now`, the login duration, the login-start timestamps and the "not on SSO page yet" wait only affect timing and logs. The model does not represent them.
- The JSON body of a cart response is reduced to a parses/does-not-parse flag, and the `addModelToCart.cart` summary is only printed. A JSON body is carried as an opaque string.
- Console reports, emoji logs, the cart-item count (only logged), screenshots and `dotenv` loading are omitted.
- playwright.config.ts is not part of this model: it is declarative runner configuration.
