# Birthday-surprise flow, modelled in Dafny

The app is a short sequence of screens. A gate screen (`/`) reads an
unlock instant from a config document and counts down to it, once a second.
When the instant has passed, it redirects once to `/welcome`. From there the
story runs `/welcome → /cake → /card → /reasons → /memories → /final`, and a
keepsake `/dashboard` links back into it. This project models the logic under
the animation:

- the countdown split into days, hours, minutes and seconds;
- the gate's tick, its handling of the config fetch, and its one-time redirect;
- the per-screen state: the cake candle with its delayed push, the letter
  envelope, the dashboard's random reason and its two toggle widgets;
- the fetch-result handling and the document-to-record mapping of the
  reasons and photos;
- the relation of all `router.push` calls between screens.

Files, one module each:

- `store.dfy`: fetch outcomes, documents and `Reason` records, the JavaScript
  `||` default, the document-to-record mapping, and the query `limit`.
- `navigation.dfy`: screens, pushed locations, the push relation and walks
  over it.
- `home.dfy`: the countdown split, and the `HomePage` class (config fetch,
  interval tick, redirect effect).
- `cake.dfy`, `card.dfy`, `dashboard.dfy`, `reasons.dfy`, `memories.dfy`:
  one class per stateful component. Each class logs its `router.push` calls
  in `pushes`. Each `Valid()` ties that log to the push relation.

Timers are state, not time. The interval is the flag `timerActive`: a tick is
a call of `Tick(now)` with the wall-clock reading as a parameter. The cake's
`setTimeout` is an entry in `pending`, and `TimeoutFires` fires it. A fetch
is a given outcome. `Math.random()` is the index it would produce.

Where a reader might expect the flow to behave more defensively, the model
follows the code:

- The cake's timeout is never cancelled. It still pushes `/card` after the
  screen is torn down (`CakeScreen.BlowOutThenLeave`).
- The handler `handleBlowOut` is not idempotent. Every call schedules a push.
  Only rendering keeps it to one: the button disappears once the candle is out
  (`CakePage.ThroughControls`).
- The `from=dashboard` query parameter is sent but never read. The card and
  memories screens take no input from their URL.
- The dashboard's "Show me a reason" button is disabled only while loading.
  On an empty list it stays enabled, and the empty-list guard makes the click
  a no-op.
- When the config document is missing or unreadable, the gate leaves its
  loading message and shows zeros. It never starts a timer.
- The tick that unlocks leaves the display as the previous tick set it. With
  ticks on whole seconds before a target five seconds ahead, the gate shows
  `0 0 0 1` when it unlocks, not all zeros (`HomeScreen.FiveSecondScenario`).
  If the very first tick unlocks, `isLoading` stays true.

The source computes `Math.floor(difference / 86400000)` and similar in floating
point. `Breakdown` uses integer division on the integer millisecond
difference. The two agree for every positive difference of realistic size,
because the floating quotient is not within rounding distance of the next
integer.

## Model

| member | source | states |
|---|---|---|
| `HomeScreen.Breakdown` | src/app/page.tsx:49-52 | for a positive difference, hours < 24, minutes < 60 and seconds < 60 |
| `HomeScreen.BreakdownReconstructs` | src/app/page.tsx:49-52 | days·86400 + hours·3600 + minutes·60 + seconds equals the whole seconds remaining |
| `HomeScreen.BreakdownUnique` | src/app/page.tsx:49-52 | any bounded display that reads back as the whole seconds remaining is the computed one |
| `HomeScreen.HomePage.constructor` | src/app/page.tsx:14-19 | starts at zeros, loading, locked, with no timer and no push |
| `HomeScreen.HomePage.ConfigSettled` | src/app/page.tsx:26-64 | a found document with an unlock time starts the timer and keeps loading; a missing document, a failure or a missing field starts no timer and ends loading |
| `HomeScreen.HomePage.Tick` | src/app/page.tsx:39-55 | the display depends only on target − now; d ≤ 0 stops the timer and unlocks, leaving the display and loading flag; d > 0 shows `Breakdown(d)`, stays locked and ends loading |
| `HomeScreen.HomePage.RedirectEffect` | src/app/page.tsx:71-76 | pushes `/welcome` exactly when `isUnlocked` has just become true |
| `HomeScreen.HomePage.RedirectAtMostOnce` | src/app/page.tsx:43-76 | in every valid state at most one push was made, it is `/welcome`, and only after unlock |
| `HomeScreen.PastTargetScenario` | src/app/page.tsx:39-76 | any unlock instant at or before the first tick unlocks on that tick, and repeated effect runs push `/welcome` once |
| `HomeScreen.FiveSecondScenario` | src/app/page.tsx:39-55 | five whole-second ticks toward a target 5 s ahead unlock on the fifth, showing 0 0 0 1, with one push |
| `CakeScreen.CakePage.constructor` | src/app/cake/page.tsx:12 | the candle starts lit, with nothing scheduled or pushed |
| `CakeScreen.CakePage.HandleBlowOut` | src/app/cake/page.tsx:15-22 | puts the candle out and schedules exactly one push to `/card` after 3000 ms, per call |
| `CakeScreen.CakePage.ThroughControls` | src/app/cake/page.tsx:12-22 | in every state reached through the rendered controls, at most one navigation is scheduled or made, one exists exactly when the candle is out, and a made push is the only one, to `/card` |
| `CakeScreen.CakePage.ClickBlowControl` | src/app/cake/page.tsx:71-77 | clickable only while the button is rendered (`BlowControlShown`, i.e. lit); from a state reached through the controls it leaves the candle out with exactly one pending `/card` push, keeping `ThroughControls` |
| `CakeScreen.CakePage.TimeoutFires` | src/app/cake/page.tsx:19-21 | the oldest timeout pushes `/card`, mounted or not, and the at-most-one invariant is kept |
| `CakeScreen.CakePage.Unmount` | src/app/cake/page.tsx:8-22 | teardown touches nothing but the mounted flag: scheduled pushes are not cancelled |
| `CakeScreen.BlowOutThenLeave` | src/app/cake/page.tsx:15-21 | blowing out and leaving still ends in exactly one push to `/card` |
| `CardScreen.CardPage.constructor` | src/app/card/page.tsx:12 | the envelope starts closed, whatever the URL |
| `CardScreen.CardPage.GoToNextPage` | src/app/card/page.tsx:15-17 | pushes `/reasons` |
| `CardScreen.CardPage.Click` | src/app/card/page.tsx:80-122 | only rendered controls (`Controls`) can be clicked: Open while closed, Close and "See What's Next" while open, the dashboard button always; open and close set the flag without navigating; next pushes `/reasons` and dashboard pushes `/dashboard` without changing it |
| `CardScreen.OpenCloseOpen` | src/app/card/page.tsx:83-102 | open, close, open passes through closed, open, closed, open, with no push |
| `DashboardScreen.DashboardPage.constructor` | src/app/dashboard/page.tsx:170-172 | no reasons, nothing shown, loading |
| `DashboardScreen.DashboardPage.ReasonsSettled` | src/app/dashboard/page.tsx:175-193 | success maps every document; failure leaves the list empty; loading ends on both paths |
| `DashboardScreen.DashboardPage.ShowRandomReason` | src/app/dashboard/page.tsx:196-200 | an empty list leaves the shown reason; otherwise the drawn element is shown, and it is always an element of the list |
| `DashboardScreen.DashboardPage.OpenMemories` | src/app/dashboard/page.tsx:250 | pushes `/memories?from=dashboard` |
| `DashboardScreen.CandleWidget.constructor` | src/app/dashboard/page.tsx:13 | the widget's candle starts lit |
| `DashboardScreen.CandleWidget.Toggle` | src/app/dashboard/page.tsx:100 | flips the candle; the widget has no router, so it cannot navigate |
| `DashboardScreen.LetterWidget.constructor` | src/app/dashboard/page.tsx:111 | the widget's envelope starts closed |
| `DashboardScreen.LetterWidget.Toggle` | src/app/dashboard/page.tsx:151 | flips the envelope and touches nothing else |
| `DashboardScreen.LetterWidget.ReReadLetter` | src/app/dashboard/page.tsx:129 | pushes `/card?from=dashboard` |
| `DashboardScreen.WidgetsToggleTwice` | src/app/dashboard/page.tsx:99-155 | two flips of each widget restore it, with no push |
| `DashboardScreen.SettleThenShow` | src/app/dashboard/page.tsx:185-200 | after the fetch settles with any outcome the button is enabled (`ShowButtonEnabled` is `!isLoading`); a click shows nothing exactly when the read failed or the collection was empty, and otherwise the drawn document's reason with its defaults |
| `Store.Or` | src/app/reasons/page.tsx:37-38 | a non-empty string field is kept; an absent or empty one gives the fallback |
| `Store.ToReasons` | src/app/dashboard/page.tsx:180-184 | one record per document, in order, with the document's id and the defaulted text and icon |
| `Store.Limit` | src/app/reasons/page.tsx:28 | at most n documents, a prefix of the collection, all of it when it is short enough |
| `ReasonsScreen.ReasonsPage.constructor` | src/app/reasons/page.tsx:20-21 | no reasons, loading |
| `ReasonsScreen.ReasonsPage.ReasonsSettled` | src/app/reasons/page.tsx:23-52 | success holds the mapped first ten documents, text defaulting to `Loading...`; failure leaves the list empty; loading ends; never more than ten |
| `ReasonsScreen.ReasonsPage.ClickSeeAll` | src/app/reasons/page.tsx:91-98 | clickable only while the link is rendered (`SeeAllShown`, i.e. not loading); pushes `/dashboard` |
| `ReasonsScreen.SeeAllAfterSettle` | src/app/reasons/page.tsx:44-103 | the dashboard link is not rendered before the fetch settles and is rendered after it, whatever the outcome; clicking it pushes `/dashboard` |
| `ReasonsScreen.ReasonsPage.GoToNextPage` | src/app/reasons/page.tsx:55-57 | pushes `/memories`, in any state |
| `ReasonsScreen.ListedPrefixOfDashboard` | src/app/reasons/page.tsx:28-38 | this screen's list is the start of the dashboard's: same ids and icons in order, same text where the document has one |
| `MemoriesScreen.AllUrls` | src/app/memories/page.tsx:23-25 | all URLs in item order iff every download succeeded, and a failure otherwise |
| `MemoriesScreen.Decimal` | src/app/memories/page.tsx:70 | the printed number is non-empty, has at least two digits from ten on, and no leading zero |
| `MemoriesScreen.DecimalReadsBack` | src/app/memories/page.tsx:70 | the printed tile number is the decimal numeral of the number: read back digit by digit (`DigitsValue`), it gives the number itself |
| `MemoriesScreen.DecimalInjective` | src/app/memories/page.tsx:70 | different tile numbers print differently |
| `MemoriesScreen.Gallery` | src/app/memories/page.tsx:59-71 | one tile per URL in order; tile i shows URL i labelled `Memory i+1` |
| `MemoriesScreen.GalleryLabelsDistinct` | src/app/memories/page.tsx:70 | no two tiles share a label |
| `MemoriesScreen.GalleryLabelsAllDistinct` | src/app/memories/page.tsx:59-71 | all labels of a gallery are pairwise distinct |
| `MemoriesScreen.MemoriesPage.constructor` | src/app/memories/page.tsx:12-13 | no URLs, loading |
| `MemoriesScreen.MemoriesPage.ImagesSettled` | src/app/memories/page.tsx:16-34 | all URLs in item order when listing and every download succeed; otherwise the list stays empty; loading ends on both paths |
| `MemoriesScreen.MemoriesPage.View` | src/app/memories/page.tsx:56-74 | the loading message exactly while loading; then one tile per URL, tile i showing URL i, no two tiles with the same label |
| `MemoriesScreen.MemoriesPage.GoToNextPage` | src/app/memories/page.tsx:41-43 | pushes `/final`, in any state |
| `Navigation.Edge` | src/app/page.tsx:74 | the relation of every `router.push`: page.tsx:74, welcome/page.tsx:42, cake/page.tsx:20, card/page.tsx:16 and 121, reasons/page.tsx:56 and 97, memories/page.tsx:42, final/page.tsx:70, dashboard/page.tsx:129 and 250; no push leads to the gate, only the dashboard tags `from=dashboard`, and no screen pushes itself |
| `Navigation.FromDashboardOnlyFromDashboard` | src/app/dashboard/page.tsx:129 | only the dashboard tags a push with `from=dashboard`, and only toward the card and memories screens |
| `Navigation.HomeLeadsOnlyToWelcome` | src/app/page.tsx:74 | the gate's only push is to `/welcome` |
| `Navigation.PrologueVisitedOnce` | src/app/welcome/page.tsx:41-43 | along any walk, the gate appears only first, the welcome screen only right after it, and the cake screen only right after that |
| `Navigation.StoryLineIsWalk` | src/app/cake/page.tsx:19-21 | gate, welcome, cake, card, reasons, memories and final follow one another by pushes |
| `Navigation.EveryPageReachable` | src/app/card/page.tsx:120-121 | every screen is reachable from the gate |
| `Navigation.DashboardLoop` | src/app/final/page.tsx:70 | a walk from the dashboard never returns to the gate, welcome or cake screens |
| `Navigation.DashboardCycle` | src/app/final/page.tsx:70 | dashboard, card, reasons, memories, final and back to the dashboard is a walk |

## Left out

- Firebase reads (`getDoc`, `getDocs`, `listAll`, `getDownloadURL`) are out. Each fetch is the outcome it settles with. Scheduling inside `Promise.all` is not modelled, only its all-or-nothing result.
- Real time is out. The 1 s interval and the 3 s timeout are constants, and nothing models their timing. A tick or a firing is an explicit call, with the clock reading as a parameter.
- The gate's interval has no cleanup on unmount. Ticks after leaving the screen are not modelled separately from other ticks.
- React's StrictMode double-run of mount effects is not modelled. Each mount effect settles once (`requires isLoading` / `!fetchSettled`).
- `HomeScreen.Breakdown`: does not model the floating-point division in the source. It computes with integer division, which agrees with it for realistic differences.
- `DashboardScreen.DashboardPage.ShowRandomReason`: does not model that `Math.random()` is uniform. It takes the drawn index `draw` as a parameter in `[0, n)` when the list is non-empty.
- `Store.Or`: does not model falsy values of other types (`0`, `false`, `null`). A field is either absent or a string.
- `DashboardScreen.LetterWidget.ReReadLetter`: can be followed with the envelope closed or open. On screen the line is covered by the envelope front and flap until the envelope opens, and that layering is rendering.
- Snowfall, the magical background, background music and the layout are presentation, audio or random float positions. src/components/ImageModal.tsx has no state of its own and no screen shown here uses it, so the image-viewer state machine is not part of this model.
- The welcome and final screens are animation around one push each. Those pushes are in `Navigation.Edge`.
- The unused `targetTimezone` constant of the gate screen has no effect and is not modelled.
- Rendering is not modelled: framer-motion props, CSS and JSX. The exceptions are the JSX conditionals that choose which controls are rendered, as the render guards `Controls`, `BlowControlShown`, `SeeAllShown` and `ShowButtonEnabled`, and the gallery `View`. Animations that keep a control mounted after its conditional turns false are not modelled.
- CardScreen.CardPage.Click: admits only the controls of the current `isOpen`. In the source the Close and "See What's Next" buttons sit in an `AnimatePresence` block whose 0.5 s delay also applies to its exit, so they stay mounted and clickable for a moment after Close. A click on "See What's Next" in that window pushes `/reasons` with the envelope closed. `CardPage.GoToNextPage` has no guard on `isOpen`, so it covers that push, but `Click` does not admit it.
