# Product tracker: a Dafny model of its logic

The product tracker is a single-page viewer for seafood provenance. A user scans a
QR code or types a product id. The app then shows the product record as a header
card, a timeline of supply-chain checkpoints and an animated journey map. Almost
all of it is view code. This project models the logic inside that view code and
proves properties of it:

- `map_view.dfy` (module `MapView`, from `src/components/MapView.tsx`).
  - `createMapPoints` turns a list of any shape into markers.
  - `animationStep` counts the revealed markers. It is a class field, updated by
    methods.
  - The reveal schedule of `handlePathReady` is a method with two loops. It works
    over abstract leg lengths.
- `app.dfy` (module `App`, from `src/App.tsx`).
  - The entry screen's state is a class: `currentView`, `productId`,
    `showScanner`, `locationReady`, the viewer's position, `idw`, and the `id`
    parameter of the page's address.
  - Each handler is a method.
  - The digits-only sanitiser, the QR acceptance rule and the screen priority
    are functions.
- `product_tracker.dfy` (module `ProductTracker`, from `src/components/ProductTracker.tsx`).
  - The simulated fetch.
  - The augmentation effect, which appends the viewer's checkpoint to copies of
    the record's lists.
  - The derived step and point lists.
  - The component state, which chooses between skeleton, error and content.
- `timeline.dfy` (module `Timeline`, from `src/components/Timeline.tsx`).
  - `createTimelineSteps`.
  - The per-row rules: connector, badge, and whether the date is shown.
- `product_header.dfy` (module `ProductHeader`, from `src/components/ProductHeader.tsx`).
  - `getStatusColor`.
- `text.dfy` (module `Text`) models the JavaScript string built-ins these files
  use: `toLowerCase`, `trim` and `includes`.
- `wrappers.dfy` (module `Wrappers`) stands for `null`/`undefined` with `Option`.

Inputs from the browser become parameters:
- a decoded QR text, plus the outcome of parsing it as a URL (`App.ScannedUrl`);
- the `id` and `idw` query parameters of the address;
- the geolocation callback that fired;
- the instant `new Date()` reads;
- the great-circle distance Leaflet computes between two points.

## Model

| member | source | states |
|---|---|---|
| `MapView.IconFor` | src/components/MapView.tsx:297-305 | `iconsMap` has an own entry for exactly the seven ids `catch`, `port`, `factory`, `delivery`, `destination`, `user-location`, `store` |
| `MapView.IconsMapEntries` | src/components/MapView.tsx:297-305 | catch→ship, port→port, factory→factory, delivery and destination→destination, user-location and store→store; every other id has no entry |
| `MapView.Keep` | src/components/MapView.tsx:310-316 | an item passes the filter iff it is present, its `coords` is an array of exactly two elements, and its id is one of the table's seven own keys |
| `MapView.ToPoint` | src/components/MapView.tsx:317-323 | the point made of a passing entry gives that entry back field for field (`id`, `name`, `description`, both coordinates), and its icon is the table's icon for the id |
| `MapView.Build` | src/components/MapView.tsx:309-323 | the filter-then-map never yields more points than entries, and every point's icon is the table's icon for its id |
| `MapView.CreateMapPoints` | src/components/MapView.tsx:296-324 | an argument that is not an array gives `[]`; an array gives at most as many points as entries, each with its id's own table icon |
| `MapView.KeptIndices` | src/components/MapView.tsx:310-316 | the positions of the entries that pass the filter: strictly increasing, each one a passing entry, and every passing entry is among them |
| `MapView.BuildIsKeptSubsequence` | src/components/MapView.tsx:309-323 | the output is exactly the passing entries, in input order. Each point copies `id`, `name`, `description` and the two coordinates of its entry, and carries `iconsMap[id]` |
| `MapView.BuildAllKept` | src/components/MapView.tsx:310-316 | when every entry passes the filter, no entry is dropped |
| `MapView.BuildAppend` | src/components/MapView.tsx:309-323 | appending one entry appends its point if it passes, and nothing otherwise; the earlier points are unchanged |
| `MapView.CreateMapPointsIdempotent` | src/components/MapView.tsx:309-323 | applying `createMapPoints` to its own output gives the same points |
| `MapView.IconsMapLookup` | src/components/MapView.tsx:315 | a property read on the `iconsMap` literal finds an own icon exactly for the seven table ids |
| `MapView.KeepAsWritten` | src/components/MapView.tsx:310-316 | the filter as written lets through exactly the entries the own-key filter does, plus present entries with two coordinates whose id names an `Object.prototype` member |
| `MapView.PrototypeIdPassesFilterAsWritten` | src/components/MapView.tsx:310-316 | as written, an entry whose id names an `Object.prototype` member (e.g. `constructor`) passes the filter although the table holds no icon for it |
| `MapView.KeepIsOwnKeyFilter` | src/components/MapView.tsx:310-316 | the model's filter is the written one restricted to the table's own keys |
| `MapView.RevealStep` | src/components/MapView.tsx:198-200 | one reveal never exceeds the number of points and never lowers a counter within range. Index `i` below `n` is revealed after it. The new value is `n`, the old value, or `i + 1` |
| `MapView.RevealAllClosedForm` | src/components/MapView.tsx:197-201 | after any sequence of reveal callbacks, in any order, the counter is `min(n, max(start, furthest index + 1))` |
| `MapView.RevealAllBounds` | src/components/MapView.tsx:197-201 | the counter never decreases and never exceeds the number of points. Every fired index below `n` is revealed |
| `MapView.LastRevealShowsAll` | src/components/MapView.tsx:197-201 | once the callback for the last index has fired, the counter equals the number of points |
| `MapView.RevealInIndexOrder` | src/components/MapView.tsx:186-201 | callbacks firing in index order from 0 reveal exactly one more marker each |
| `MapView.MarkerReveal.constructor` | src/components/MapView.tsx:158-159 | the counter starts at 0 |
| `MapView.MarkerReveal.SetOpen` | src/components/MapView.tsx:165-170 | opening the modal resets the counter to 0; any other change of `isOpen` leaves it alone |
| `MapView.MarkerReveal.OnRevealTimer` | src/components/MapView.tsx:197-201 | one callback sets the counter to `min(n, max(prev, i + 1))`. It stays within `0..n`, never decreases, and passes `i` when `i < n` |
| `MapView.MarkerReveal.Markers` | src/components/MapView.tsx:211-244 | the markers drawn are the prefix of `points` of length `animationStep`, and none while the modal is closed |
| `MapView.SegmentDistances` | src/components/MapView.tsx:178-182 | one leg per pair of neighbouring points: `n - 1` legs for `n > 0` points |
| `MapView.ScheduledRatio` | src/components/MapView.tsx:186-193 | the ratio is NaN exactly for a point after the first on a route of total length 0. Otherwise ratio × total equals the length of the legs before the point |
| `MapView.AppearTime` | src/components/MapView.tsx:195-201 | a NaN ratio gives a delay of 0, and a ratio within 0..1 gives a delay within the 3000 ms animation |
| `MapView.LegLengths` | src/components/MapView.tsx:174-182 | the `for` loop collects exactly one length per leg, in route order, and `totalDistance` is their sum |
| `MapView.RunningRatios` | src/components/MapView.tsx:184-193 | with non-negative legs and their sum as total, the `forEach` gives each point the scheduled ratio: the running leg sum over the total, 0 for point 0, NaN for 0/0 |
| `MapView.RatioFromRunningSum` | src/components/MapView.tsx:189-192 | with non-negative legs, a zero total leaves the running sum at 0, so the division is 0/0 and the ratio NaN |
| `MapView.PathReadyRatios` | src/components/MapView.tsx:173-203 | the two loops run one after the other give each point `i` the running leg sum up to `i` divided by the total. Point 0 gets 0, and a zero total gives NaN (0/0) |
| `MapView.ScheduleShape` | src/components/MapView.tsx:184-195 | for non-negative legs with a positive total, point 0 has ratio 0 and the last point ratio 1. Every ratio lies in 0..1, and ratios never decrease along the route |
| `MapView.RatiosOrdered` | src/components/MapView.tsx:186-193 | for two points in route order, the earlier one's ratio is at most the later one's, and both lie in 0..1 |
| `MapView.ZeroLengthRoute` | src/components/MapView.tsx:186-201 | on a route of total length 0, every point after the first gets ratio NaN, which `setTimeout` reads as a delay of 0 |
| `Text.LowerChar` | src/components/ProductHeader.tsx:22 | lower-casing maps `A`-`Z` to `a`-`z` and leaves every other character alone |
| `Text.ToLower` | src/components/ProductHeader.tsx:22 | ASCII lower-casing keeps the length and lower-cases each character |
| `Text.Trim` | src/App.tsx:80 | `trim()` returns a string no longer than its input that neither starts nor ends with JavaScript whitespace |
| `Text.TrimEmptyIff` | src/App.tsx:278 | `trim()` returns the empty string exactly when every character is JavaScript whitespace |
| `Text.Contains` | src/App.tsx:110 | `includes(sub)` holds only when `sub` is no longer than the string |
| `Text.ContainsIff` | src/App.tsx:110 | `includes(sub)` holds exactly when `sub` occurs at some position |
| `App.DigitsOnly` | src/App.tsx:266-268 | the sanitised id contains only `0`-`9`, and it is never longer than the input |
| `App.DigitsOnlyConcat` | src/App.tsx:267 | sanitising a concatenation is concatenating the sanitised parts, so the digits keep their input order |
| `App.DigitsOnlyChar` | src/App.tsx:267 | a single digit is kept, and any other single character is removed |
| `App.DigitsOnlyOfDigits` | src/App.tsx:267 | an all-digit string is left unchanged |
| `App.DigitsOnlyIdempotent` | src/App.tsx:267 | sanitising twice is sanitising once |
| `App.DigitsOnlyCounts` | src/App.tsx:267 | every digit occurs as often in the result as in the input; no other character occurs |
| `App.DigitsOnlyEmptyIff` | src/App.tsx:267 | the sanitised id is empty exactly when the input holds no digit |
| `App.TrackEnabledIff` | src/App.tsx:278 | the Track button is enabled iff the id has a character that is not whitespace |
| `App.TypedIdTrackEnabled` | src/App.tsx:266-278 | for an id typed into the input, the button is enabled iff at least one digit was typed |
| `App.AcceptedScan` | src/App.tsx:109-128 | a decoded text is accepted iff it contains `fipp.aciis.services`, parses as a URL, and has a non-empty `id`. The accepted id is that parameter |
| `App.ScanWithoutHostRejected` | src/App.tsx:110 | a text in which the host occurs nowhere is rejected, whatever URL it parses as |
| `App.EntryScreen.constructor` | src/App.tsx:11-22 | the first render: view `scanner`, empty id, scanner hidden, location not ready, no position |
| `App.EntryScreen.Screen` | src/App.tsx:153-212 | waiting while the location is not ready, then the tracker, then the scanner overlay, then the entry card |
| `App.EntryScreen.TrackEnabled` | src/App.tsx:278 | the Track button is enabled iff `productId` has a character that is not whitespace |
| `App.EntryScreen.SeedFromUrl` | src/App.tsx:66-77 | a non-empty `id` parameter sets `productId` to it and the view to `tracker`; otherwise both stay. A non-empty `idw` is stored |
| `App.EntryScreen.OnInputChange` | src/App.tsx:266-269 | typing stores the digits-only form of the input |
| `App.EntryScreen.HandleManualEntry` | src/App.tsx:79-87 | with a non-blank id, the view becomes `tracker` and the address gets that `id`; otherwise nothing changes |
| `App.EntryScreen.OpenScanner` | src/App.tsx:238-243 | the Scan button shows the scanner overlay |
| `App.EntryScreen.CloseScanner` | src/App.tsx:136-140 | Cancel and a camera failure hide the overlay and change nothing else |
| `App.EntryScreen.OnQrDecoded` | src/App.tsx:109-128 | an accepted scan hides the scanner, sets `productId`, switches to `tracker` and writes the `id` into the address; any other text changes nothing |
| `App.EntryScreen.OnBack` | src/App.tsx:165-171 | back-navigation sets the view to `scanner`, clears `productId` and removes `id` from the address, so the entry card is shown next |
| `App.EntryScreen.OnLocationFound` | src/App.tsx:49-55 | a position stores the viewer's coordinates and makes the location ready |
| `App.EntryScreen.OnLocationUnavailable` | src/App.tsx:57-63 | failure, refusal, or no geolocation support makes the location ready and stores no position |
| `ProductTracker.FetchProductData` | src/components/ProductTracker.tsx:14-96 | the fetched record's `id` is the requested id; everything else is the fixed mock record |
| `ProductTracker.FetchedMapFullyKept` | src/components/ProductTracker.tsx:67-94 | all four entries of the fetched `map` list become markers |
| `ProductTracker.UserTimelineEntry` | src/components/ProductTracker.tsx:147-155 | the viewer's checkpoint has id `user-location`, is complete (`status` true), is dated at the moment the effect runs, and has a location |
| `ProductTracker.UserMapEntry` | src/components/ProductTracker.tsx:157-163 | the viewer's map entry has id `user-location`, passes the filter of `createMapPoints`, and becomes the `store` marker at `[48.13743, 11.57549]` |
| `ProductTracker.Augmented` | src/components/ProductTracker.tsx:141-171 | without a position the record is the base record. With one, timeline and map each grow by one, and the base entries are an unchanged prefix. The appended entries have id `user-location`, and the map entry has the fixed coordinates `[48.13743, 11.57549]`. All other fields are carried over |
| `ProductTracker.AugmentedIgnoresPosition` | src/components/ProductTracker.tsx:161 | the viewer's actual coordinates never reach the record |
| `ProductTracker.StepsOf` | src/components/ProductTracker.tsx:173-176 | no record gives no steps; a record gives one step per timeline entry |
| `ProductTracker.PointsOf` | src/components/ProductTracker.tsx:178-181 | no record gives no points; a record gives at most one point per map entry |
| `ProductTracker.AugmentedPoints` | src/components/ProductTracker.tsx:157-163 | with a position, the markers are the base markers plus one `store` marker at the fixed coordinates |
| `ProductTracker.AugmentedSteps` | src/components/ProductTracker.tsx:147-155 | with a position, the steps are the base steps plus the viewer's step, built at the next index |
| `ProductTracker.FetchedUserStepIcon` | src/components/ProductTracker.tsx:147-155 | on the fetched record the viewer's step is the fifth, has id `user-location`, and gets the store icon |
| `ProductTracker.Tracker.constructor` | src/components/ProductTracker.tsx:106-108 | the component starts loading, with no base record and no record |
| `ProductTracker.Tracker.StartFetch` | src/components/ProductTracker.tsx:131-133 | a fetch for a new product id sets `loading` and keeps the records |
| `ProductTracker.Tracker.FetchResolved` | src/components/ProductTracker.tsx:133-138 | the resolved fetch stores the record for the requested id, whose `id` is that id, and clears `loading` |
| `ProductTracker.Tracker.FetchRejected` | src/components/ProductTracker.tsx:137-138 | a rejected fetch only clears `loading` |
| `ProductTracker.Tracker.SetUserCoords` | src/components/ProductTracker.tsx:101 | a new position prop changes nothing else |
| `ProductTracker.Tracker.RunAugmentation` | src/components/ProductTracker.tsx:141-171 | with no base record nothing happens. Otherwise the copy-and-push steps store exactly `Augmented` of the base record |
| `ProductTracker.Tracker.View` | src/components/ProductTracker.tsx:191-247 | loading shows the skeleton. Not loading with no record shows the error message; otherwise the content |
| `Timeline.CreateTimelineSteps` | src/components/Timeline.tsx:122-142 | one step per item, in order. A step copies `id`, `title`, `description`, `status` and the date, and a missing `location` becomes `""` |
| `Timeline.MakeStep` | src/components/Timeline.tsx:133-141 | a step copies `id`, `title`, `description`, `status` and the date, turns a missing `location` into `""`, and has an icon iff its index is below 5 |
| `Timeline.StepIcons` | src/components/Timeline.tsx:125-140 | step `i` gets the `i`-th of the five icons; steps at index 5 or later get none |
| `Timeline.CreateTimelineStepsAppend` | src/components/Timeline.tsx:133-141 | appending an item appends its step with the icon of its position; the earlier steps are unchanged |
| `Timeline.RenderTimeline` | src/components/Timeline.tsx:46-116 | one row per step. A connector follows every row but the last. The badge is "Verified" iff `status`, and the date is shown iff `status` |
| `Timeline.RenderRow` | src/components/Timeline.tsx:46-116 | a row has a connector iff another row follows it. Its badge is "Verified" iff `status`, and its date is shown, unchanged, iff `status` |
| `Timeline.OneRowWithoutConnector` | src/components/Timeline.tsx:61 | a non-empty timeline has exactly one row without a connector |
| `ProductHeader.StatusColor` | src/components/ProductHeader.tsx:21-32 | the colour is one of the four badge classes |
| `ProductHeader.StatusColorIgnoresCase` | src/components/ProductHeader.tsx:22 | two statuses equal up to letter case get the same colour |
| `ProductHeader.StatusColorTable` | src/components/ProductHeader.tsx:22-31 | `certified`→`bg-green-600`, `in transit`→`bg-yellow-500` and `processing`→`bg-blue-500`, each in any letter case; any other status→`bg-gray-500` |

## Findings

| source | as written | input that shows it | evidently intended | confidence | as-written member | corrected member |
|---|---|---|---|---|---|---|
| src/components/MapView.tsx:315 | the filter tests `iconsMap[item.id]` for truthiness on a plain object literal, and that read also finds the members every object inherits | `[{ id: "constructor", coords: [0, 0] }]` passes. Its point's `icon` is the `Object` function, so `getIconColorClasses` returns `undefined` for it and the `.split` call at line 88 throws when the marker is drawn | only entries whose id is one of the seven table keys pass | not executed; high | `MapView.PrototypeIdPassesFilterAsWritten` | `MapView.CreateMapPoints` |

The rest of the model uses the corrected filter, `MapView.Keep`. `MapView.KeepIsOwnKeyFilter` relates it to the filter as written.

## Left out

- JSX markup, CSS classes, skeleton layout, logo choice and the dark-mode `matchMedia` subscription are presentation only.
- Leaflet (tiles, bounds, markers, `distanceTo`) and the SVG stroke animation are foreign library calls. Leg lengths come from a `distance` parameter that is assumed non-negative.
- `setTimeout`, the one-second fetch delay and the order in which async callbacks arrive are not modelled. Each callback is a method the caller invokes.
- The `html5-qrcode` camera start and stop, `alert`, and `navigator.geolocation` are device I/O. Only their outcomes enter the model.
- `URL` and `URLSearchParams` parsing and `history.pushState` are browser APIs. The address is reduced to its `id` and `idw` parameters.
- The date-fns `format(date, "PPP")` call is a foreign library. Dates are opaque values that the steps pass through unchanged.
- The `ProductTracker` record always carries `timeline` and `map`, because its only producer is the mock fetch. A record missing either list is not modelled; no record gives empty lists.
- The Map button's `showMap` toggle and the tracker's own dark-mode state are view state and are not modelled.
- `MapView.CreateMapPoints`: entries are typed in the model. Ids, names and descriptions are always strings, and coordinate elements are always numbers. JavaScript also accepts a non-string id (converted to a property name), a missing `name` or `description` (copied as `undefined`), and a two-element `coords` of any values, such as `["a", null]`. None of these is modelled.
- `MapView.PathReadyRatios`: it computes over exact reals, not IEEE doubles. With non-negative legs the only non-finite case, 0/0, is modelled as NaN.
- `Text.ToLower`: lower-cases only `A`-`Z`, and so keeps the length. JavaScript's `toLowerCase` applies full Unicode case mapping, which can change the length: `"İ"` (U+0130) lower-cases to two code units. The model does not promise the Unicode mapping. `getStatusColor` decides the same way under both (see the next line).
- `Text.LowerChar`: lower-casing covers only `A`-`Z`. The switch in `getStatusColor` still decides the same way, because no other character lower-cases to a single letter of its three keywords. U+0130 gives `i` followed by a combining dot, which matches no keyword either; the Kelvin sign gives `k`, which none of them contains.
