# Route documentation page: a Dafny model

`app.js` drives a documentation page for the endpoints of a whiskey-tasting web
application. On `DOMContentLoaded` it renders two static registries of route
descriptors, `webRoutes` and `apiRoutes`, as cards into the containers
`#web-routes` and `#api-routes`. It wires a text filter that shows or hides the
API cards by substring match. It also sets up an `IntersectionObserver` that
marks each `.reveal` element "in" once, the first time it scrolls into view.

The model has six modules:

- `Text`: the three string operations the page relies on. They are
  `toLowerCase` (ASCII letters), `trim` (the ECMAScript whitespace and
  line-terminator set) and `includes`.
- `Routes`: the route descriptor and the two registries, as constants, with
  their entries copied from the source.
- `Cards`: `renderRouteCard` as a function from a descriptor to a card value.
  It also holds the filter's term and match rule, and the specification
  functions `Rendered` (what `renderRoutes` builds) and `Filtered` (what one
  filter pass leaves).
- `Page`: the document as classes. A `Container` holds its card elements, and a
  `Document` holds the containers `getElementById` can find.
  - `RenderRoutes` clears a container and appends one card per route in a loop.
  - `SetupFilter` attaches the listener when the input exists.
  - `OnFilterInput` runs the listener body, a loop over the `#api-routes` cards
    that writes each card's display.
  - `OnReady` is the load handler.
- `Reveal`: the observer of `setupReveal` as a class with the watched and marked
  sets. `OnIntersections` is the callback, a loop over one batch of entries. It
  is proved against a pure step function, together with the one-shot
  invariant.
- `Scenarios`: a scenario. Typing "event" into the filter, over the rendered
  `apiRoutes`, leaves shown exactly the five event endpoints and hides the other
  fourteen.

Decisions:

- Truthiness of an optional field (`if (route.params)`, `route.summary || ""`)
  is "present and non-empty".
- A card's inline `style.display` is `Unset` until the filter first writes
  `Grid` ("grid") or `Hidden` ("none"), so a card is shown unless it is
  `Hidden`.
- The descriptor fields `method` and `returns` are named `httpMethod` and
  `response`, because `method` and `returns` are Dafny keywords.
- The code reads `summary` through `route.summary || ""`, so the model makes
  `summary` an `Option`, like the other three optional fields. Every registry
  entry has one.
- The "event" scenario names cards whose path or summary contains
  "event". Among `apiRoutes` these are exactly the five at indices 8, 9, 10, 12
  and 13. The `/event` page is a web route, and web-route cards are never
  filtered.

## Model

| member | source | states |
|---|---|---|
| Text.Lower | app.js:184-185 | `toLowerCase` keeps the length, maps each ASCII capital to its small letter and leaves every other character as it is; no ASCII capital remains |
| Text.LowerKeepsOccurrence | app.js:184-185 | an occurrence of a text stays an occurrence, at the same index, once both sides are lower-cased |
| Text.Trim | app.js:227 | `trim` returns the slice of the value that starts after the leading whitespace and leaves only whitespace on either side; the result is empty or starts and ends with a non-whitespace character |
| Text.TrimEmptyIff | app.js:227 | the trimmed value is empty exactly when the value is empty or whitespace only |
| Text.TrimIdempotent | app.js:227 | trimming a trimmed value changes nothing |
| Text.LowerTrimCommute | app.js:227 | trimming and lower-casing commute, so the order of the two calls in the term does not matter |
| Text.Includes | app.js:230 | `includes` holds exactly when the searched text occurs at some index |
| Text.IncludesEmpty | app.js:230 | every text includes the empty text |
| Text.IncludesTransitive | app.js:230 | a text included in an included text is included |
| Text.PairAbsent | app.js:230 | a text lacking one adjacent pair of characters of the searched text does not include it |
| Routes.OrEmpty | app.js:185 | `field \|\| ""` is the field when it is truthy and the empty string otherwise |
| Routes.WebRoutesShape | app.js:1-50 | `webRoutes` has 9 entries, each with a non-empty method, a path starting with "/", fetched with GET |
| Routes.ApiRoutesShape | app.js:52-179 | `apiRoutes` has 19 entries, each with a non-empty method, a path starting with "/", and method GET or POST |
| Cards.MetaLines | app.js:194-210 | the lines of the three `if` blocks for params, returns and notes, in turn; what they hold is stated by the four lemmas below |
| Cards.MetaLinesCount | app.js:194-210 | the metadata has exactly one line per truthy field among params, returns and notes |
| Cards.MetaLinesText | app.js:196-209 | every metadata line belongs to a truthy field and carries that field's text |
| Cards.MetaLinesLabels | app.js:194-210 | a label appears among the metadata lines exactly when its field is truthy, so absent and empty fields add no line |
| Cards.MetaLinesOrder | app.js:194-210 | the metadata lines come in strictly increasing order Params, Returns, Notes |
| Cards.MetaLinesExtremes | app.js:194-210 | no truthy field gives no line; three truthy fields give exactly Params, Returns, Notes |
| Cards.RenderRouteCard | app.js:181-214 | the path tag is the lower-cased path, the summary tag the lower-cased summary or "", the header is (method, path), the body the summary or "", the metadata the lines above |
| Cards.AbsentSummary | app.js:185-192 | a missing or empty summary gives an empty body and an empty summary tag |
| Cards.Term | app.js:227 | the term has no capital letter, and it is empty exactly when the value is whitespace only |
| Cards.Rendered | app.js:219-220 | one freshly built card per route, in route order, with no display set |
| Cards.Matches | app.js:229-230 | a card matches exactly when the term occurs at some index of its path tag or of its summary tag |
| Cards.FilterOne | app.js:231 | one card's update keeps the card and writes its display, shown exactly when the card matches |
| Cards.Filtered | app.js:228-232 | the same cards in the same order, each with its display written, shown exactly when the term occurs in its path tag or its summary tag |
| Cards.FilteredByElements | app.js:228-232 | a sequence that agrees element by element with the per-card update is the filter pass |
| Cards.BlankQueryShowsAll | app.js:227-231 | an empty or whitespace-only value shows every card |
| Cards.FilterForgetsEarlierPass | app.js:226-233 | a pass depends only on the cards, not on what an earlier pass showed |
| Cards.FilterIgnoresCase | app.js:227 | values that differ only in letter case select the same cards |
| Cards.LongerQueryHidesMore | app.js:229-230 | a card shown for a query stays shown for every part of that query |
| Page.Container.ShowMatching | app.js:228-232 | after the loop over the cards, the children are exactly the filter pass of the children before it |
| Page.Document.RenderRoutes | app.js:216-221 | a missing container leaves every container unchanged; otherwise the container holds exactly the freshly rendered cards of the routes, nothing of its previous contents, and no other container changes |
| Page.Document.SetupFilter | app.js:223-225 | the listener is attached exactly when the filter input exists; without it nothing changes |
| Page.Document.OnFilterInput | app.js:226-233 | with a listener and `#api-routes`, the API cards become the filter pass for the trimmed lower-cased value; every other container, and everything when no listener is attached, is unchanged |
| Page.Document.SetupReveal | app.js:236-250 | a fresh observer watches every `.reveal` element and none is marked |
| Page.Document.OnReady | app.js:252-257 | both registries are rendered into their containers, the filter is set up, a fresh observer watches every `.reveal` element, and no other container changes |
| Page.RenderTwice | app.js:216-221 | rendering the same routes twice leaves what rendering once leaves |
| Page.TypeThenClear | app.js:226-233 | typing a value and then clearing the input shows every API card again, the cards themselves unchanged |
| Page.ReadyThenType | app.js:252-255 | after loading and typing a value, the API container holds the filter pass of the rendered `apiRoutes` for that value's term |
| Scenarios.TermOfEvent | app.js:227 | the value "event" is its own term |
| Scenarios.ShownForEvent | app.js:229-230 | a card whose path contains "event" matches the query "event" |
| Scenarios.ExcludedAfterLower | app.js:229-230 | a text that lacks a letter, or an adjacent letter pair, of "event" in both cases has no "event" once lower-cased |
| Scenarios.HiddenForEvent | app.js:229-230 | a card whose path and summary both lack "event" in that sense does not match "event" |
| Scenarios.ApiBottlesHidden | app.js:53-59 | the card for `/api/bottles` does not match the query "event" |
| Scenarios.ApiAddBottleHidden | app.js:60-68 | the card for `/api/add_bottle` does not match the query "event" |
| Scenarios.GetImagesHidden | app.js:69-75 | the card for `/get_images` does not match the query "event" |
| Scenarios.ApiRemoveEntryHidden | app.js:76-81 | the card for `/api/remove_entry` does not match the query "event" |
| Scenarios.ApiMakeUnavailableHidden | app.js:82-87 | the card for `/api/make_unavailable` does not match the query "event" |
| Scenarios.ApiAddUserHidden | app.js:88-93 | the card for `/api/add_user` does not match the query "event" |
| Scenarios.ApiAddReviewHidden | app.js:94-101 | the card for `/api/add_review` does not match the query "event" |
| Scenarios.ApiRandomBottleIdHidden | app.js:102-107 | the card for `/api/random_bottle_id` does not match the query "event" |
| Scenarios.ApiAddEventShown | app.js:108-114 | the card for `/api/add_event` matches the query "event" |
| Scenarios.ApiAddBottlesToEventShown | app.js:115-120 | the card for `/api/add_bottles_to_event` matches the query "event" |
| Scenarios.ApiAddUsersToEventShown | app.js:121-126 | the card for `/api/add_users_to_event` matches the query "event" |
| Scenarios.ApiUserExistsHidden | app.js:127-133 | the card for `/api/user_exists` does not match the query "event" |
| Scenarios.ApiUploadEventPhotoFileShown | app.js:134-139 | the card for `/api/upload_event_photo_file` matches the query "event" |
| Scenarios.ApiUploadEventPhotoB64Shown | app.js:140-145 | the card for `/api/upload_event_photo_b64` matches the query "event" |
| Scenarios.ApiEditExpertNotesHidden | app.js:146-151 | the card for `/api/edit_expert_notes` does not match the query "event" |
| Scenarios.ApiCheckBottleHidden | app.js:152-158 | the card for `/api/check_bottle` does not match the query "event" |
| Scenarios.ApiCheckUserHidden | app.js:159-165 | the card for `/api/check_user` does not match the query "event" |
| Scenarios.DatabaseImagesPathHidden | app.js:166-172 | the card for `/database_images/[path]` does not match the query "event" |
| Scenarios.ModalBottleHidden | app.js:173-178 | the card for `/modal/bottle` does not match the query "event" |
| Scenarios.EventOutcomes0To4 | app.js:229-230 | proof helper: the per-card facts for cards 0 to 4, one each, give one statement, card i matches "event" exactly when i is 8, 9, 10, 12 or 13 |
| Scenarios.EventMatches0To4 | app.js:53-87 | none of the `apiRoutes` entries 0 to 4 matches "event" |
| Scenarios.EventOutcomes5To9 | app.js:229-230 | proof helper: the per-card facts for cards 5 to 9, one each, give one statement, card i matches "event" exactly when i is 8, 9, 10, 12 or 13 |
| Scenarios.EventMatches5To9 | app.js:88-120 | of the `apiRoutes` entries 5 to 9, exactly 8 and 9 match "event" |
| Scenarios.EventOutcomes10To14 | app.js:229-230 | proof helper: the per-card facts for cards 10 to 14, one each, give one statement, card i matches "event" exactly when i is 8, 9, 10, 12 or 13 |
| Scenarios.EventMatches10To14 | app.js:121-151 | of the `apiRoutes` entries 10 to 14, exactly 10, 12 and 13 match "event" |
| Scenarios.EventOutcomes15To18 | app.js:229-230 | proof helper: the per-card facts for cards 15 to 18, one each, give one statement, card i matches "event" exactly when i is 8, 9, 10, 12 or 13 |
| Scenarios.EventMatches15To18 | app.js:152-178 | none of the `apiRoutes` entries 15 to 18 matches "event" |
| Scenarios.EventMatchesAll | app.js:52-179 | of the 19 `apiRoutes` entries, exactly add_event, add_bottles_to_event, add_users_to_event and the two upload_event_photo endpoints match "event" |
| Scenarios.RenderedThenFiltered | app.js:219-231 | a filter pass over freshly rendered cards shows exactly the routes whose cards match |
| Scenarios.EventTermQuery | app.js:228-231 | the filter pass for the term "event" over the rendered `apiRoutes` shows exactly the cards at 8, 9, 10, 12 and 13 |
| Scenarios.EventQuery | app.js:226-232 | typing "event" leaves shown exactly those five of the 19 API cards and hides the other fourteen |
| Reveal.Upto | app.js:237 | the elements numbered below n |
| Reveal.Initial | app.js:249 | right after observing every item, all are watched and none is marked |
| Reveal.Step | app.js:241-243 | an intersecting entry marks its target and stops watching it; any other entry, and every other element, is left as it was |
| Reveal.Deliver | app.js:240-245 | the `forEach` over a batch, entry by entry in order; its effect in closed form is stated by DeliverHits |
| Reveal.Hits | app.js:241-243 | the targets of the intersecting entries of a batch, and nothing else |
| Reveal.HitsOfPrefix | app.js:240-245 | the hits of a batch are the hits of all but its last entry plus that entry's target when it intersects |
| Reveal.DeliverHits | app.js:240-245 | a batch removes exactly its intersecting targets from the watched set and adds exactly them to the marked set |
| Reveal.DeliverMonotone | app.js:240-245 | the watched set only shrinks, the marked set only grows, and an element no intersecting entry names keeps its state |
| Reveal.DeliverConsistent | app.js:240-249 | every element stays either watched or marked, never both |
| Reveal.EnteredIsFinal | app.js:241-243 | a marked element is neither unmarked nor watched again by any further entry about it |
| Reveal.DeliverConcat | app.js:239-245 | two batches in a row act as one batch holding both |
| Reveal.RevealObserver.constructor | app.js:237-249 | the observer starts watching every item, none marked, the one-shot invariant holding |
| Reveal.RevealObserver.OnIntersections | app.js:239-246 | after the loop over the entries the state is the batch applied to the state before it, and the invariant still holds |

## Left out

- DOM nodes, `innerHTML` and the markup strings (app.js:189, app.js:198-208). A
  card is a value holding the texts the markup shows, so the missing HTML
  escaping of interpolated fields is not modelled. The class names
  `route-card`, `route-header` and `meta` are likewise not modelled.
- `getElementById` and `querySelectorAll` are a map from ids to distinct
  containers. The filter's selector `#api-routes .route-card` is the children
  of the `#api-routes` container.
- `addEventListener`, `DOMContentLoaded` and the event loop are host wiring.
  `OnFilterInput` is the listener body, called directly with the input's
  value, and it runs only once `SetupFilter` has attached it.
- Text.Lower: only ASCII letters are lower-cased. JavaScript `toLowerCase` also
  maps non-ASCII capitals. Every registry text lacks them, but a typed value
  keeps its non-ASCII capitals in the model, so a value such as U+212A KELVIN
  SIGN, which JavaScript lower-cases to "k", selects different cards than on
  the page.
- `IntersectionObserver` geometry and the 0.2 threshold (app.js:238-248). They
  become the entries of a batch, each naming an element index and whether it
  intersects. Batches whose entries name elements outside the observed range
  are excluded by precondition.
- The "in" class that the page's own HTML might already carry is not
  modelled. `entered` holds the elements the observer has marked.
- The external application the registries describe is not part of this model.
