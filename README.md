# Marketplace front end: page logic in Dafny

This project models the decision logic of a React front end for a bidding
marketplace. Users browse listed items ("containers"), open one, bid on it,
create new listings, and sign in or register. Each page is a Dafny `class`
whose fields are the page's React state. Each event handler is a `method`
that updates those fields in the source's order. The server's answer to a
request is a parameter of the handler: `Response<T>` is an ok response with
its decoded body, a response whose status is not ok, or an exception with
its message. A ghost `requests` log on each page records every request the
page sends. The browser's `localStorage` is one shared `Session.Storage`
object, so a value written by the login page is what the header and the
other pages read.

Modules:

- `Options`, `Api`: optional values; the wire types (container, bid, user,
  create payload); the requests, one per endpoint; responses; navigation
  outcomes (`Stay`, `Back`, `GoTo(path)`, `Reload`); JavaScript truthiness
  of optional ids and strings.
- `Text`: the JavaScript `trim` (ECMAScript white space and line
  terminators), ASCII `toLowerCase` and `includes`.
- `Numbers`: how a whole number is written in decimal, and `Number(text)`
  as the bid form applies it, with `None` for `NaN`.
- `Session`: `localStorage` with `getItem`, `setItem` and `removeItem`.
- `Discover`:
  - the search filter and its debounce timer;
  - favourites;
  - the list fetch;
  - the cards' image and bid fallbacks.
- `ItemCard`: the stand-alone card's load state machine and what it renders.
- `ContainerDetails`: the details page's load and the bid button's state
  machine.
- `Create`: the create-listing handler, its payload and its error message.
- `Login`: the login/register form. Its request is in flight between
  `OnSubmit` and `Complete`, so the busy guard is exercised.
- `Header`: the top bar. It re-reads the session user, ignores storage
  events for other keys, logs out, and offers a menu.
- `Scenarios`: whole journeys across pages that share one store.

A failed bid lookup is handled differently by each page:

- The details page keeps going when the bid response is not ok: the current
  bid keeps its value of 0 (src/Pages/ContainerDetails/ContainerDetailsPage.tsx:71-74).
- The Discover cards also keep going: the card shows no bid value
  (src/Pages/Discover/Discover.tsx:161-165).
- The stand-alone item card fails hard. It clears the container and shows
  "Bid not found" (src/Pages/Discover/Components/ItemCard.tsx:55, 61-65).
- On the details page, an exception during the bid lookup becomes the page's
  error (src/Pages/ContainerDetails/ContainerDetailsPage.tsx:78-80).

## Model

| member | source | states |
|---|---|---|
| Text.Trim | src/Pages/Discover/Discover.tsx:40 | the trimmed text has no white space at either end, is no longer than the input, and is empty exactly when the input is blank |
| Text.TrimIsSlice | src/Pages/Discover/Discover.tsx:40 | the trimmed text is the input's own text between indices i and j, with only white space before i and after j |
| Text.TrimOfTrimmed | src/Pages/Create.tsx:51-53 | trimming text that has no white space at either end returns it unchanged |
| Text.TrimIdempotent | src/Pages/Create.tsx:51-53 | trimming twice is trimming once |
| Text.LowerChar | src/Pages/Discover/Discover.tsx:70 | an ASCII upper-case letter becomes the matching lower-case letter; every other character is kept |
| Text.Lower | src/Pages/Discover/Discover.tsx:70-73 | the lowered text has the same length, and each character is lowered in place |
| Text.Includes | src/Pages/Discover/Discover.tsx:74 | the empty query is included in every text, and an included query is never longer than the text |
| Text.LowerIdempotent | src/Pages/Discover/Discover.tsx:70-73 | lowering is idempotent and leaves no upper-case ASCII letter |
| Text.IncludesIffOccurs | src/Pages/Discover/Discover.tsx:74 | `includes` holds exactly when the query occurs at some index of the text |
| Text.IncludesInEmpty | src/Pages/Discover/Discover.tsx:73 | the empty text (a missing description) includes only the empty query |
| Numbers.NatToString | src/Pages/Discover/Discover.tsx:52 | a whole number is written as a non-empty run of digits, without a leading zero unless it is 0 |
| Numbers.NatToStringRoundTrip | src/Pages/Create.tsx:61 | reading back the written digits gives the number (the status in an error message is recoverable) |
| Numbers.IntToString | src/Pages/Discover/Components/ItemCard.tsx:46 | the id in a request path is non-empty text that `Number` reads back as the id itself |
| Numbers.ParseNumber | src/Pages/ContainerDetails/ContainerDetailsPage.tsx:100 | `Number` of blank text is 0 |
| Numbers.NatToStringParses | src/Pages/ContainerDetails/ContainerDetailsPage.tsx:100 | `Number` of a whole number's digits is that number |
| Numbers.NegatedNatToStringParses | src/Pages/ContainerDetails/ContainerDetailsPage.tsx:100-102 | `Number` of a minus sign and digits is the negated number, which the positivity check then rejects |
| Session.Storage.GetItem | src/components/glab/Header/Header.tsx:21 | a value exactly when the key is present, and then the stored value |
| Session.Storage.SetItem | src/Pages/LoginPage.tsx:26-28 | the key now holds the value; all other keys are unchanged |
| Session.Storage.RemoveItem | src/Pages/LoginPage.tsx:84-85 | the key is gone; all other keys are unchanged |
| Discover.Matches | src/Pages/Discover/Discover.tsx:71-75 | an item matches exactly when the query occurs at some index of its lowered name or of its lowered description (empty when missing) |
| Discover.KeepMatching | src/Pages/Discover/Discover.tsx:71-75 | the result is a subsequence of the items, in order, and holds every matching item as often as the input does and no other item |
| Discover.Filtered | src/Pages/Discover/Discover.tsx:68-76 | an empty debounced query returns the items unchanged; otherwise the result is the order-preserving subsequence of the items whose lowered name or description includes the lowered query, with multiplicities kept |
| Discover.KeepMatchingIdempotent | src/Pages/Discover/Discover.tsx:71-75 | filtering the filtered list again changes nothing |
| Discover.FilteredIdempotent | src/Pages/Discover/Discover.tsx:68-76 | applying the memo's filter to its own result changes nothing |
| Discover.FilteredIgnoresQueryCase | src/Pages/Discover/Discover.tsx:70 | two queries that lower to the same text filter alike |
| Discover.NoDescriptionMatchesByName | src/Pages/Discover/Discover.tsx:73-74 | an item without a description matches a non-empty query exactly when its lowered name includes it |
| Discover.ToggleFavorite | src/Pages/Discover/Discover.tsx:78-80 | the entry for the id flips (an absent entry becomes true); every other entry is unchanged |
| Discover.ToggleTwice | src/Pages/Discover/Discover.tsx:79 | toggling the same id twice restores every item's favourite status |
| Discover.CardImage | src/Pages/Discover/Discover.tsx:145-151 | the card shows a non-empty source: the container's own URL only when it is non-empty and has not failed to load, else the placeholder |
| Discover.CardBid | src/Pages/Discover/Discover.tsx:153-166 | a card has a bid value exactly when the item refers to a bid and the lookup succeeded, and then it is that bid's value |
| Discover.DiscoverPage.constructor | src/Pages/Discover/Discover.tsx:29-44 | the page mounts with an empty query, loading, and the first debounce timer pending |
| Discover.DiscoverPage.SetQuery | src/Pages/Discover/Discover.tsx:38-44 | a changed query replaces the pending timer with one carrying the new text; the only pending timer carries the latest query |
| Discover.DiscoverPage.TimerFires | src/Pages/Discover/Discover.tsx:40 | a pending timer sets the debounced query to the trimmed latest query and leaves nothing pending |
| Discover.DiscoverPage.Unmount | src/Pages/Discover/Discover.tsx:41-43 | the cleanup clears the pending timer |
| Discover.DiscoverPage.ToggleFavoriteOf | src/Pages/Discover/Discover.tsx:78-80 | the favourites become the toggled map |
| Discover.DiscoverPage.FetchContainers | src/Pages/Discover/Discover.tsx:46-62 | one `GET /containers`; an array body becomes the items and any other body an empty list; a status that is not ok gives an empty list and `Fetch failed (<status>)`; an exception gives an empty list and its message; loading ends false |
| ItemCard.ItemImage | src/Pages/Discover/Components/ItemCard.tsx:88 | the container's URL when there is one, even an empty one; the placeholder only when it is missing |
| ItemCard.ImageFallbacksCompared | src/Pages/Discover/Components/ItemCard.tsx:88 | `??` falls back only for a missing URL and keeps an empty one, where the Discover card replaces it (it falls back on any falsy URL) |
| ItemCard.Card.constructor | src/Pages/Discover/Components/ItemCard.tsx:24-29 | the card mounts loading, with no container, bid or error |
| ItemCard.Card.View | src/Pages/Discover/Components/ItemCard.tsx:73-101 | a skeleton exactly while loading; then a truthy error shows that error; the item is shown exactly when loading is over, there is no truthy error and a container is held, with the container's image (the `??` fallback) and its bid value, or "No bids yet" without one; with loading over, no truthy error (an empty exception message included) and no container, the "No item available" state |
| ItemCard.Card.Load | src/Pages/Discover/Components/ItemCard.tsx:31-70 | a falsy id gives the empty state with no request; otherwise the container and, when it refers to one, its bid are fetched; a failure of either clears container and bid and records "Container not found", "Bid not found" or the exception's message; loading ends false |
| ContainerDetails.DetailsPage.constructor | src/Pages/ContainerDetails/ContainerDetailsPage.tsx:32-52 | the page mounts loading, with current bid 0, the placeholder image, a hidden empty bid input and the user read from the store |
| ContainerDetails.DetailsPage.ShowsBidButton | src/Pages/ContainerDetails/ContainerDetailsPage.tsx:140-149 | the bid button is rendered exactly when loading is over, there is no truthy error and a container is held |
| ContainerDetails.DetailsPage.Load | src/Pages/ContainerDetails/ContainerDetailsPage.tsx:54-85 | no id: nothing happens; otherwise the container is fetched and, when it refers to one, its bid; a container failure is the page's error ("Container not found" or the message) and leaves container, current bid and image as they were; the current bid changes only on an ok bid response and otherwise keeps its value; loading ends false |
| ContainerDetails.DetailsPage.ImageFailed | src/Pages/ContainerDetails/ContainerDetailsPage.tsx:166 | a failed image shows the placeholder |
| ContainerDetails.DetailsPage.SetBidInput | src/Pages/ContainerDetails/ContainerDetailsPage.tsx:206 | the input holds what was typed |
| ContainerDetails.DetailsPage.HandleBidClick | src/Pages/ContainerDetails/ContainerDetailsPage.tsx:87-138 | no user: go to `/login`, nothing changes; first click: only reveal an empty input; an amount that is not a positive number, then one not above the current bid, is rejected with its error; none of these three posts or reloads; a bid is posted exactly when the amount is positive and above the current bid, as the user's bid on this container for that amount; success hides and clears the input and reloads; failure keeps the input, shows the error and does not reload; all posted bids are positive and the user's own |
| ContainerDetails.DetailsPage.SubmitBid | src/Pages/ContainerDetails/ContainerDetailsPage.tsx:112-137 | `POST /users/{id}/bid` with the container's id and the amount; the success or failure transition; not submitting afterwards |
| Create.BuildPayload | src/Pages/Create.tsx:50-56 | the payload's name and description are the trimmed name and description, its owner is the user and it has no bid; its image URL is the trimmed URL, or null exactly when the URL is blank |
| Create.BuildPayloadStable | src/Pages/Create.tsx:51-53 | building a payload from a payload's own fields gives the same payload |
| Create.FailureMessage | src/Pages/Create.tsx:59-62 | the message is never empty and is the response text whenever that is non-empty |
| Create.FailureMessageNamesStatus | src/Pages/Create.tsx:61 | without response text the message is `Create failed (`, the status's digits and `)`, and the status reads back from it |
| Create.CreatePage.constructor | src/Pages/Create.tsx:16-28 | the page mounts with empty fields, not loading, with the user read from the store |
| Create.CreatePage.OnCreate | src/Pages/Create.tsx:32-70 | no user: go to `/login` and send nothing; a blank name: "Name ist erforderlich" and send nothing; otherwise post the built payload, go back on success, show the response text or `Create failed (<status>)` or the exception's message otherwise; loading ends false; the form fields never change |
| Create.CreatePage.Send | src/Pages/Create.tsx:43-69 | one `POST /containers` with the payload and the outcome's navigation and error |
| Login.RequestFor | src/Pages/LoginPage.tsx:89-93 | sign-in sends `{email, password}`; register sends `{name, email, password}` with the name as typed, and sends nothing exactly when the name is blank |
| Login.RejectedMessage | src/Pages/LoginPage.tsx:30-82 | a response that is not ok is "Login failed" for a sign-in and "Register failed" for a registration |
| Login.LoginPage.constructor | src/Pages/LoginPage.tsx:14-24 | the form mounts empty, not loading, with nothing in flight |
| Login.LoginPage.SetName | src/Pages/LoginPage.tsx:107 | the name field holds what was typed |
| Login.LoginPage.SetEmail | src/Pages/LoginPage.tsx:116 | the email field holds what was typed |
| Login.LoginPage.SetPassword | src/Pages/LoginPage.tsx:125 | the password field holds what was typed |
| Login.LoginPage.OnSubmit | src/Pages/LoginPage.tsx:89-94 | ignored while loading; a blank name when registering shows "Name is required", sends nothing and ends loading; otherwise the error clears and the mode's request is sent and in flight; the page is loading exactly while a request is in flight, and every request sent is a sign-in or a registration with a name |
| Login.LoginPage.Complete | src/Pages/LoginPage.tsx:40-51 | an ok response stores the returned user under "user" and goes back; a response that is not ok shows the handler's message and an exception its message, leaving the store as it was; loading ends |
| Login.LoginPage.SaveUser | src/Pages/LoginPage.tsx:26-28 | the user is stored under "user" |
| Login.LoginPage.ContinueWithoutLogin | src/Pages/LoginPage.tsx:84-87 | the "user" entry is removed and the browser goes back |
| Header.MenuFor | src/components/glab/Header/Header.tsx:56-82 | Discover is always offered; Create and Log out exactly when there is a user, with the user's name; Log in exactly when there is none |
| Header.TopBar.constructor | src/components/glab/Header/Header.tsx:14-29 | on mount the bar shows the stored user |
| Header.TopBar.ReadUser | src/components/glab/Header/Header.tsx:20-23 | no "user" entry gives no user; otherwise the stored user |
| Header.TopBar.Navigate | src/components/glab/Header/Header.tsx:26-29 | a changed path re-reads the user; the same path changes nothing |
| Header.TopBar.OnStorage | src/components/glab/Header/Header.tsx:32-39 | an event for "user" re-reads the user; an event for any other key leaves it unchanged |
| Header.TopBar.HandleLogout | src/components/glab/Header/Header.tsx:41-45 | the "user" entry is removed, no user is shown and only Discover and Log in remain, and the browser goes to `/login` |
| Scenarios.BidAgainstFifty | src/Pages/ContainerDetails/ContainerDetailsPage.tsx:100-125 | against a current bid of 50, "40" is rejected naming 50 and sends nothing; "60" posts a bid of 60 on the container for the user |
| Scenarios.OpenBidInput | src/Pages/ContainerDetails/ContainerDetailsPage.tsx:54-98 | a signed-in user opens a container whose bid is worth 50 and the first click reveals the input |
| Scenarios.EnterBid | src/Pages/ContainerDetails/ContainerDetailsPage.tsx:100-125 | against a current bid of 50, a typed whole number up to 50 is rejected naming 50 with nothing sent; one above 50 is posted as that amount |
| Scenarios.LogoutThenAct | src/Pages/Create.tsx:33-36 | after logging out in the top bar, a newly mounted create page and details page both send the user to `/login` and post nothing |
| Scenarios.SignInThenHeader | src/Pages/LoginPage.tsx:43-46 | after a successful sign-in and a change of path, the top bar offers Create, Log out and the user's name |
| Scenarios.RegisterNeedsName | src/Pages/LoginPage.tsx:59-68 | a blank name is refused before any request; a later registration sends the name untrimmed |
| Scenarios.DebouncedSearch | src/Pages/Discover/Discover.tsx:38-76 | typing "lamp" then "Chair " before the timer fires applies the trimmed final text "Chair", which keeps the chair and drops the lamp |
| Scenarios.TypeTwice | src/Pages/Discover/Discover.tsx:38-44 | after two quick query changes and the timers, the debounced query is the trimmed final text "Chair" |
| Scenarios.StaleQueryKeepsLamp | src/Pages/Discover/Discover.tsx:68-76 | the first text "lamp", had it been applied, would have kept the lamp, so the scenario's result shows which text was used |
| Scenarios.CreateWithoutImage | src/Pages/Create.tsx:50-56 | a listing created with no image URL is posted with a null URL, and the details page shows the placeholder for it |
| Scenarios.DetailsNotFound | src/Pages/ContainerDetails/ContainerDetailsPage.tsx:62-63 | a container that cannot be fetched leaves "Container not found" and no bid button |

## Left out

- Networking: `fetch`, HTTP and the server are not modelled. Each request's outcome is a handler parameter, and the request itself is a ghost log entry.
- JSON: decoding is not modelled. A body that fails to decode counts as an exception. An ok list response whose body is not an array is `NotAnArray`.
- Sequencing: the create and bid handlers run as one step, request through response. Their buttons are disabled while loading or submitting, so no other event of the same page is modelled in between. The login form is split at the request because its submit guard covers that window.
- Login dispatch: the handler takes the mode of the pressed button as input. Whether React applies `setMode` before the same submit event depends on update timing, so the model assumes it does.
- Stale state: a second submit that arrives before React re-renders with `loading` set is not modelled.
- Session store: it holds user records, not JSON text. `JSON.parse` failures on a corrupt value are not modelled. An empty-string entry (falsy) cannot occur.
- Page mount: each page reads the session user in its constructor. In the source, a mount effect does this one render later.
- Error fallbacks: the `"Unknown error"` and `"Fehler beim Bieten"` fallbacks, for exceptions without a message or not of type `Error`, are not modelled. Every exception carries a message.
- ContainerDetails.DetailsPage.HandleBidClick: the validation messages are the datatype `BidError`. `NotAboveCurrent(current)` stands for "Gebot muss größer als {current} CHF sein", because JavaScript's formatting of numbers is not modelled.
- Numbers.ParseNumber: values are exact reals.
  - Not modelled: rounding to double precision; `Infinity`; hexadecimal, octal and binary literals; exponent overflow.
  - The model reads `Infinity` as `NaN`, so such an input is rejected rather than posted.
  - Its contract states only the blank-input case. What it returns for written numbers is stated by `Numbers.NatToStringParses` and `Numbers.NegatedNatToStringParses`.
- Text.Lower: only ASCII letters are lowered. The rest of Unicode case mapping is not modelled.
- Container names: `name` is a plain string. The Discover filter's `c.name ?? ""` guard for a missing name is not modelled.
- Debounce: the 300 ms delay and real time are not modelled. A timer is a pending slot that fires as a discrete event.
- Discover cards: the per-card bid lookups run concurrently in the source. The model uses `Discover.CardBid` as a function of one lookup's outcome, with no ordering between cards.
- Page reload: `window.location.reload` is the navigation outcome `Reload` plus a `reloaded` flag.
- Bid button: the condition for rendering it, loaded with no error and with a container, is a precondition of `HandleBidClick`.
- Create form: typing into the name, description and image fields is a plain field write, with no method of its own.
- Rendering: JSX, CSS, skeleton components and the presentational files (`AboutUs.tsx`, `GlabButton.tsx`, `App.tsx`, `main.tsx`) are not part of this model.
