# Storefront client core, modelled in Dafny

This project models three parts of a Next.js storefront client:

- **The route guard** (`client/middleware.js`). A request for one of the protected paths `/`, `/addproduct` or `/product` that carries no `token` cookie is redirected to `/login`. The redirect keeps every other part of the URL. Any other request continues. `config.matcher` names the same three paths, so the guard only ever sees those.
- **The product list page** (`client/pages/product/index.js`). The fetched list is filtered by a case-insensitive substring match on `p_name`. The filtered list is reversed, so the newest product comes first, and cut to the first `visibleCards` entries. `visibleCards` starts at 6. Each "Load More" click adds 6, and the button is shown while `visibleCards` is below the filtered length. Each card has a carousel: one indicator and one slide per image. Only the first of each is `active`, and the slide source is `NEXT_PUBLIC_API_URL` followed by the image path.
- **The registration page** (`client/pages/register/index.js`). These parts are modelled:
  - the per-field validation rules and their exact messages, including the email regular expression;
  - the `FormData` that `reg` builds;
  - the strict `payload.success === true` test, followed by a reset and navigation to `/login`, or navigation back to `/register`;
  - the value `reg` returns;
  - the three-way picture area: a preview, a placeholder, or nothing.

Module layout:

| file | module | models |
|---|---|---|
| `wrappers.dfy` | `Wrappers` | `Option` |
| `js_strings.dfy` | `JsStrings` | JavaScript string operations the pages use: ASCII `toLowerCase`, `includes`, UTF-16 `length`, and number-to-string |
| `route_guard.dfy` | `RouteGuard` | `middleware` and `config.matcher` |
| `product_list.dfy` | `ProductList` | the search filter, the reversed and windowed card list, Load More, the carousel, and the page state (`class ProductListPage`) |
| `email_pattern.dfy` | `EmailPattern` | the email regular expression, written out as predicates |
| `register_rules.dfy` | `RegisterRules` | the `register(...)` rule objects, and react-hook-form's evaluation of them |
| `register_form.dfy` | `RegisterForm` | the JavaScript values `reg` inspects, the `FormData`, the picture area, and the page state (`class RegisterPage`) |

Two effects are modelled as values rather than performed:

- **Navigation and submission.** `router.push` appends to `RegisterPage.navigations`, and the `FormData` handed to `registerUser` is appended to `RegisterPage.sent`.
- **The dispatch result.** It is a parameter of `Reg`.

The product page's `Array.prototype.reverse()` mutates the filtered array in place. The model does the same: `ReverseInPlace` is an array method, and `ProductListPage.Render` copies the filtered list into a fresh array and reverses it there.

Two details of the product page:

- **Load More clicks.** With M matching products, the button is shown only for M > 6. It disappears after ceil(M/6) − 1 clicks, because it hides as soon as `visibleCards >= M` (`ClicksUntilAllShown`, `LoadMoreSchedule`).
- **Non-array data.** When the fetched data is not an array, `filteredProduct` is `false`, and the model uses `None` for it. No cards are drawn. `false.length` is `undefined`, so `visibleCards < undefined` is false and no button is shown.

## Model

| member | source | states |
|---|---|---|
| RouteGuard.Middleware | client/middleware.js:4-15 | the guard's decision for a request; its behaviour is stated by the lemmas below |
| RouteGuard.Dispatch | client/middleware.js:16-18 | the guard run behind the matcher; `MatcherIsProtectedRoutes` shows it equals `Middleware` |
| RouteGuard.RedirectsIffProtectedWithoutToken | client/middleware.js:4-15 | the guard redirects exactly when the pathname is one of the three protected routes and there is no `token` cookie; otherwise it continues |
| RouteGuard.ProtectedWithoutTokenGoesToLogin | client/middleware.js:7-12 | a protected path without a token is redirected, and the target pathname is `/login` |
| RouteGuard.ProtectedWithTokenContinues | client/middleware.js:8-14 | a protected path with a token continues |
| RouteGuard.UnprotectedContinues | client/middleware.js:8-14 | every path outside the protected list continues, token or not |
| RouteGuard.MatchingIsExact | client/middleware.js:7-8 | `includes` on the route list is exact string membership: `/product/123`, `/addproduct/`, `/Product`, the empty path, `/login` and `/register` are not protected |
| RouteGuard.OnlyTokenPresenceMatters | client/middleware.js:5-9 | two requests with the same URL whose cookie maps agree on whether `token` is present get the same decision, whatever the cookie values and the other cookies |
| RouteGuard.RedirectKeepsOtherComponents | client/middleware.js:6-11 | the redirect URL is the cloned request URL with only the pathname changed: protocol, host, port, base path, locale, query and hash are kept |
| RouteGuard.RedirectDoesNotLoop | client/middleware.js:7-11 | a request for the redirect target `/login` is never redirected again |
| RouteGuard.MatcherIsProtectedRoutes | client/middleware.js:7-18 | the matcher lists the same paths as the guard's route list, so running the guard behind the matcher gives the same decision as running the guard alone |
| JsStrings.ToLowerIdempotent | client/pages/product/index.js:74 | lower-casing twice is the same as lower-casing once |
| JsStrings.IncludesAt | client/pages/product/index.js:74 | `s.includes(t)` holds iff `t` occurs in `s` at some index at which it fits inside `s` |
| JsStrings.NotIncludedWithoutFirstChar | client/pages/product/index.js:74 | a non-empty needle whose first character never occurs in `s` is not included in `s` |
| JsStrings.IncludesEmpty | client/pages/product/index.js:74 | every string includes the empty string |
| JsStrings.JsLength | client/pages/register/index.js:116-117 | `.length` counts UTF-16 code units: at least the number of code points and at most twice that |
| JsStrings.JsLengthOfBmp | client/pages/register/index.js:116-117 | `.length` equals the code-point count iff no character lies outside the Basic Multilingual Plane |
| JsStrings.DecimalString | client/pages/product/index.js:156 | the decimal text of a number is non-empty and all digits, and has one digit iff the number is below 10 |
| JsStrings.DigitsValue | client/pages/product/index.js:156 | the number a digit string denotes; the reading partner of `DecimalString` |
| JsStrings.DecimalStringValue | client/pages/product/index.js:156 | the decimal text of `n` denotes `n` |
| JsStrings.ToLower | client/pages/product/index.js:74 | `toLowerCase` on ASCII letters; its idempotence is `ToLowerIdempotent` |
| JsStrings.Includes | client/pages/product/index.js:74 | `String.prototype.includes`; characterised by `IncludesAt` |
| ProductList.NameMatches | client/pages/product/index.js:74 | the filter's test: the lower-cased name includes the lower-cased query |
| ProductList.FilteredProduct | client/pages/product/index.js:73-75 | the filtered list for array data, and `None` for the `false` of non-array data |
| ProductList.Reverse | client/pages/product/index.js:118 | the list in the opposite order; characterised by `ReverseAt` |
| ProductList.Prefix | client/pages/product/index.js:118 | `slice(0, n)`: at most the first `n` elements |
| ProductList.RenderedCards | client/pages/product/index.js:117-118 | the cards drawn; stated by `RenderedCardsAreNewestFirst` |
| ProductList.ShowLoadMore | client/pages/product/index.js:201 | whether the Load More button is drawn; stated by `LoadMoreShownIffCardsHidden` and `LoadMoreSchedule` |
| ProductList.Indicators | client/pages/product/index.js:132-140 | the carousel indicators of a card; stated by `CarouselShape` |
| ProductList.Slides | client/pages/product/index.js:144-157 | the carousel slides of a card; stated by `CarouselShape` |
| ProductList.FilterByName | client/pages/product/index.js:73-75 | filtering never lengthens the list |
| ProductList.FilterKeepsExactlyMatches | client/pages/product/index.js:73-75 | each product keeps its full multiplicity if its lower-cased name includes the lower-cased query, and is dropped otherwise; membership in the result is iff member of the input and matching |
| ProductList.FilterIsSubsequence | client/pages/product/index.js:73-75 | the filtered list keeps the fetched order: it is a subsequence of the input |
| ProductList.EmptyQueryKeepsAll | client/pages/product/index.js:73-75 | the initial empty query keeps every product |
| ProductList.FilterIgnoresQueryCase | client/pages/product/index.js:74 | two queries that differ only in letter case filter identically |
| ProductList.LowerOfLower | client/pages/product/index.js:74 | a string without upper-case ASCII letters is unchanged by lower-casing |
| ProductList.ShirtMatchesRed | client/pages/product/index.js:74 | the name "Red Shirt" matches the query "red" |
| ProductList.HatMissesRed | client/pages/product/index.js:74 | the name "Blue Hat" does not match the query "red" |
| ProductList.RedShirtScenario | client/pages/product/index.js:73-118 | for the list [Red Shirt, Blue Hat] and the query "red", the filtered list and the drawn cards are exactly [Red Shirt] |
| ProductList.ReverseAt | client/pages/product/index.js:118 | reversal keeps the length and puts the element `k` places from the end at position `k` |
| ProductList.RenderedCardsAreNewestFirst | client/pages/product/index.js:117-118 | non-array data draws no cards; otherwise the smaller of `visibleCards` and the filtered length is the number of cards drawn, card `k` being the filtered product `k` places from the end (newest first) |
| ProductList.LoadMoreShownIffCardsHidden | client/pages/product/index.js:201 | the Load More button is shown iff the data is an array and fewer cards are drawn than there are filtered products |
| ProductList.NotAnArrayDrawsNothing | client/pages/product/index.js:117-118 | when the fetched data is not an array, no cards and no Load More button are drawn |
| ProductList.LoadMoreSchedule | client/pages/product/index.js:78-80 | after `k` clicks from the initial 6, the button is shown iff `k` is below `ClicksUntilAllShown(M)` (0 for M ≤ 6, else (M − 1) div 6); once that many clicks are made, every filtered product is drawn, newest first |
| ProductList.NoActiveCountsZero | client/pages/product/index.js:147 | a slide list with no active slide has active count 0 |
| ProductList.CarouselShape | client/pages/product/index.js:132-157 | one indicator and one slide per image (none when `image` is missing); indicator `i` targets the card's carousel, slides to `i` and is `active` iff `i == 0`; slide `i` has source env text plus image `i`, alt `Slide ` followed by the decimal text of `i + 1`, and exactly one slide is active iff there are images |
| ProductList.ReverseInPlace | client/pages/product/index.js:118 | the array afterwards holds its old contents reversed |
| ProductList.ProductListPage.constructor | client/pages/product/index.js:35-36 | the page starts with an empty query and 6 visible cards |
| ProductList.ProductListPage.HandleSearchChange | client/pages/product/index.js:68-70 | the query becomes the typed value and the visible count is unchanged |
| ProductList.ProductListPage.HandleLoadMore | client/pages/product/index.js:78-80 | the visible count grows by exactly 6, the query is unchanged, and the count stays a positive multiple of 6 |
| ProductList.ProductListPage.Render | client/pages/product/index.js:117-118 | the cards drawn and the button flag are those of the filtered, reversed, windowed list for the current state; on a page reached by clicks, the button is drawn iff fewer clicks have been made than `ClicksUntilAllShown` of the filtered length |
| EmailPattern.Matches | client/pages/register/index.js:137 | the email regular expression, anchored at both ends; stated by the lemmas below |
| EmailPattern.DigitRun | client/pages/register/index.js:137 | the leading digit run is a prefix of digits, not followed by a digit |
| EmailPattern.MatchesAtSoleAt | client/pages/register/index.js:137 | for an address with one `@`, the pattern matches iff the part before it is a dot-atom or a quoted string and the part after it is a bracketed IPv4 literal or a host name |
| EmailPattern.HostNameNeedsDot | client/pages/register/index.js:137 | a host name contains a dot |
| EmailPattern.MatchesAt | client/pages/register/index.js:137 | a split at any `@` whose two sides fit the pattern's alternatives makes the whole address match |
| EmailPattern.ExampleAddressMatches | client/pages/register/index.js:137-138 | the address named in the error message, `xyz@gmail.com`, matches the pattern |
| EmailPattern.Bracketed | client/pages/register/index.js:137 | four dot-separated groups of 1 to 3 digits in brackets form an address literal |
| EmailPattern.SplitAtSign | client/pages/register/index.js:137 | in `local + "@" + domain` the `@` sits at the local part's length, with the local part before it and the domain after it |
| EmailPattern.MatchesJoined | client/pages/register/index.js:137 | a dot-atom or quoted local part joined by `@` to an address literal or host name matches |
| EmailPattern.AddressLiteralMatches | client/pages/register/index.js:137 | a dot-atom local part at a bracketed four-group IPv4 literal matches |
| EmailPattern.WithoutAtNoMatch | client/pages/register/index.js:137 | a string with no `@` never matches |
| EmailPattern.DomainNeedsTopLevel | client/pages/register/index.js:137 | `xyz@gmail` does not match: the host name needs a dot and a top-level part |
| EmailPattern.SpaceInLocalPartNoMatch | client/pages/register/index.js:137 | `x y@gmail.com` does not match, since whitespace is excluded from unquoted local parts |
| RegisterRules.RulesFor | client/pages/register/index.js:114-203 | the rule objects passed to `register` for each field, with their exact values and messages |
| RegisterRules.CheckValue | client/pages/register/index.js:114-203 | react-hook-form's evaluation of one field's rules; stated by `CheckValueMeansSatisfies` |
| RegisterRules.Validate | client/pages/register/index.js:114-203 | the `errors` object over all five fields; stated by `ErrorsMeanRulesBroken` |
| RegisterRules.CheckValueMeansSatisfies | client/pages/register/index.js:114-203 | the ordered check yields no message iff the value satisfies every rule; any message it yields is one of the field's rule messages, and an empty value yields the `required` message |
| RegisterRules.ErrorsMeanRulesBroken | client/pages/register/index.js:114-203 | a field is in the error map iff its value breaks a rule, and its message is then one of that field's messages |
| RegisterRules.NameRule | client/pages/register/index.js:114-120 | the name error is "This field is Required" for an empty name and "Name must be atleast 3 characters" for lengths 1–2; otherwise there is none |
| RegisterRules.EmailRule | client/pages/register/index.js:134-140 | the email error is "This field is required" for an empty email and "Email Pattern should be xyz@gmail.com" for one the pattern rejects; otherwise there is none |
| RegisterRules.PhoneRule | client/pages/register/index.js:152-162 | the phone error is "This field is Required" when empty and "Phone must be 10 characters" for any other length but 10; otherwise there is none |
| RegisterRules.PasswordRules | client/pages/register/index.js:176-203 | password and confirm password each need a non-empty value of length at least 8, with their own messages |
| RegisterRules.ErrorsAreLocal | client/pages/register/index.js:114-203 | a field's error depends only on that field's value |
| RegisterRules.NoPasswordMatchCheck | client/pages/register/index.js:176-203 | the rules never compare the two passwords: any password and confirmation of length at least 8 give no error for either field, whether or not they agree |
| RegisterRules.WrongPhoneLengthOnlyPhoneFails | client/pages/register/index.js:152-167 | when the phone is non-empty with a length other than 10 and every other field passes its rules, the error map is exactly `{phone: "Phone must be 10 characters"}` |
| RegisterRules.FiveDigitPhoneIsWrongLength | client/pages/register/index.js:152-162 | the phone `12345` is non-empty with `.length` 5, so it has the wrong length |
| RegisterRules.ThreeLetterNamePasses | client/pages/register/index.js:114-120 | the name `Ann` meets the name rules |
| RegisterRules.ExampleEmailPasses | client/pages/register/index.js:134-140 | the email `xyz@gmail.com` meets the email rules |
| RegisterRules.EightLetterPasswordPasses | client/pages/register/index.js:176-203 | the value `password` meets the password rules and the confirm-password rules |
| RegisterRules.ExampleFieldsPass | client/pages/register/index.js:114-203 | with name `Ann`, email `xyz@gmail.com` and both passwords `password`, every field but the phone passes |
| RegisterRules.FiveDigitPhoneOnlyFails | client/pages/register/index.js:114-203 | the form (`Ann`, `xyz@gmail.com`, `12345`, `password`, `password`) has exactly one error: `{phone: "Phone must be 10 characters"}` |
| RegisterForm.Truthy | client/pages/register/index.js:61 | JavaScript truthiness of a value |
| RegisterForm.Get | client/pages/register/index.js:61 | optional-chaining property access: `undefined` on anything but an object holding the key |
| RegisterForm.IsSuccess | client/pages/register/index.js:61 | the success test of `reg`; stated by `SuccessNeedsTrueFlag` and `SuccessIsStrict` |
| RegisterForm.SuccessNeedsTrueFlag | client/pages/register/index.js:61 | the response counts as success iff it is truthy and `payload.success` is the boolean `true` |
| RegisterForm.SuccessIsStrict | client/pages/register/index.js:61 | `"true"`, `1`, `{}`, `false`, `undefined` and `null` as the success flag are not success |
| RegisterForm.AppendValue | client/pages/register/index.js:57 | what `append` stores for the picture: the file itself, or its string conversion |
| RegisterForm.RegistrationFormData | client/pages/register/index.js:51-57 | the form data built by the six appends; stated by `FormDataReadsBack` |
| RegisterForm.EntryNamesAt | client/pages/register/index.js:51-57 | the name list of a form data has one name per entry, in order |
| RegisterForm.FormDataGetFirst | client/pages/register/index.js:51-57 | `get` of a name returns the value of the first entry with that name |
| RegisterForm.FormDataReadsBack | client/pages/register/index.js:51-57 | the form data has the six entries `name`, `email`, `phone`, `password`, `confirmPassword`, `profile_pic` in that order, and reading each back gives the submitted value (the picture as a file or as text) |
| RegisterForm.NoFileSendsText | client/pages/register/index.js:57 | without a chosen file, `profile_pic` is sent as the text `"null"`, `"undefined"` or `""` |
| RegisterForm.ShowsPreview | client/pages/register/index.js:214-215 | the preview condition of the picture area |
| RegisterForm.ShowsPlaceholder | client/pages/register/index.js:216-217 | the placeholder condition of the picture area |
| RegisterForm.PictureAreaCases | client/pages/register/index.js:214-217 | a preview is shown iff a file is chosen, the placeholder iff the image is `""`, never both, and neither for the initial `null` |
| RegisterForm.WithValueChangesOneField | client/pages/register/index.js:45 | typing into one field changes that field's value and no other |
| RegisterForm.RegisterPage.constructor | client/pages/register/index.js:45-46 | the page starts with empty values, image `null`, no navigation and nothing sent |
| RegisterForm.RegisterPage.ChangeField | client/pages/register/index.js:45 | the typed field takes the new text; image, navigation and submissions are unchanged |
| RegisterForm.RegisterPage.ChooseFile | client/pages/register/index.js:212 | the image becomes the first picked file, or `undefined` when none is picked; nothing else changes |
| RegisterForm.RegisterPage.Reg | client/pages/register/index.js:48-69 | exactly one form data built from the values and the image is sent; on success the form and image are reset (the placeholder shows) and the page goes to `/login`, otherwise nothing is reset and it goes to `/register`; the result is `response.data`, and none (a throw) for a nullish response |

## Left out

- The `useQuery` fetch, its cache, `refetch`, and the `isLoading` "Loading..." early return (product page lines 44-47 and 82-84) are network and framework effects. The fetched value is a parameter (`Fetched`).
- The commented-out delete handler (product page lines 49-65) is not code.
- Markup, styling, `Link` targets, the card text, the carousel's previous and next controls, the register page's layout and the `Copyright` footer are presentation only.
- React `key` attributes are not modelled. They affect reconciliation only.
- `toLowerCase` is modelled on ASCII letters only. Unicode case mapping is outside the model.
- `.length` is computed from code points, so a lone surrogate cannot be represented.
- `p_name` is assumed to be a string. A product without `p_name` makes the filter throw in the source, and that is not modelled.
- Next.js matches `config.matcher` entries with path-to-regexp, including `/_next/data` variants. The model treats the matcher as exact membership, which is what these three literal paths mean for page requests.
- `NextResponse.redirect` and `NextResponse.next` are modelled as the decision values `Redirect(url)` and `Continue`.
- `URL.createObjectURL` is left out: the preview's source URL is not modelled, only whether a preview is shown.
- react-hook-form's engine is modelled only through its rule evaluation (`CheckValue`, `Validate`): required first, then `maxLength` before `minLength`, then the pattern.
  - Focus handling, re-validation modes and the `handleSubmit` wiring are left out.
  - `RegisterPage.Reg` takes the submitted values as given and does not require that `Validate` is empty. The source reaches `reg` only through `handleSubmit`, which calls it only when no field has an error.
- `reset()` is modelled as clearing every field to the empty string, since the form has no default values.
- `dispatch(registerUser(...))`, Redux's `loading` flag ("Please wait..."), and `useMutation` are left out. They are asynchronous framework calls, and the response they produce is a parameter of `Reg`.
- RegisterPage.Reg: assumes the awaited dispatch resolves. If it rejects, `reg` throws before either `router.push`, with no navigation and no reset; the model does not cover that path.
- The form values are those the browser hands to react-hook-form. The `type="number"` phone input and the `type="email"` email input sanitize what was typed first; for example, "123-456-7890" in the phone field reads as "" and reports "This field is Required". That sanitization is not modelled.
- There is no guard against a second submission while one is in flight, because the source has none.
- `JsValue` numbers are integers. `NaN`, `-0` and fractions, which would change truthiness, are not represented.
- The email regular expression is transcribed by hand into predicates. There is no regular-expression engine in the model.
