# Escolha Certa — verified model of the catalog's decision logic

"Escolha Certa" is a small web catalog of Portuguese educational institutions
("escolas"). Its home page fetches every record from the API, splits the list
into five category lists (Universidade, Politécnico, Faculdade, Profissional,
Curso Superior), shows the first three items of each with a "Ver Mais" /
"Ver Menos" toggle, and offers a search box that searches as the user types.
The API answers `GET /escolas` (optionally filtered by `tipo` and a text
query `q`) and `GET /escolas/:id`. A detail page counts down five seconds and
redirects to the home page.

This project models that decision logic in Dafny and proves what it promises:

- `Sequences` — order-preserving selection (JavaScript's `Array.prototype.filter`).
- `Escolas` — the record (`nome`, `tipo`, `localidade`) and the five type literals.
- `Categories` — the five-bucket partition of the record list.
- `CategoryList` — one category container as a sequence of children (item
  cards, the toggle button, the "no items" message), with a class whose
  methods render, expand and collapse it in place.
- `LiveSearch` — JavaScript `trim`, and a class for the search box: the
  debounce timer, the two-character gate and the empty-term guard.
- `Server` — the query built from `tipo` and `q`, the list route, and the
  status chosen by the by-id route.
- `Countdown` — the redirect countdown as a pure step function over the
  page state, and a class whose interval tick is proved against it.
- `HomePage` — `fetchAndDisplayCategories`, which ties the partition to the
  five category lists.

External collaborators are parameters: the store's `$text` matching is a
function `textMatch`, `ObjectId.isValid` is a function `isValid`, a store
call that throws is a boolean `fails`, the store is a sequence of records (for
listing; its order stands for one possible store order) and a map from id to record (for lookup), and the
result of the home page's fetch is an `Option`. Timers are abstract events:
`SearchBox.TimerFires` for the 300 ms debounce and
`CountdownPage.IntervalFires` for the 1000 ms interval.

The code does not implement accent-insensitive, multi-term substring search:
`normalizeText` (script.js:10-15) is never called, and the server hands the
text query to the store's text index (server.js:32). The model follows the
code, so text matching is the opaque `textMatch`.

## Model

| member | source | states |
|---|---|---|
| `Sequences.Filter` | script.js:185-189 | the selection is no longer than the input and every selected element passes the test |
| `Sequences.FilterMembership` | script.js:185-189 | a value is selected iff it occurs in the input and passes the test |
| `Sequences.FilterMultiplicity` | script.js:185-189 | every occurrence of a passing value is kept and no occurrence of a failing one |
| `Sequences.FilterConcat` | script.js:185-189 | selection distributes over concatenation, so input order is preserved |
| `Sequences.FilterKeepsAll` | script.js:185-189 | when every element passes, the selection is the input itself |
| `Sequences.FilterKeepsNone` | script.js:95-96 | when no element passes, the selection is empty |
| `Sequences.FilterAgree` | script.js:185-189 | two tests that agree on the input select the same sequence |
| `Categories.Partition` | script.js:185-189 | the five lists hold only records of their own type and together no more records than the input |
| `Categories.PartitionMembership` | script.js:185-189 | the list for a known type holds exactly the input records with that `tipo`; an unknown type has no list |
| `Categories.PartitionMultiplicity` | script.js:185-189 | each list keeps every copy of each record of its type and nothing else |
| `Categories.PartitionOrder` | script.js:185-189 | each list is in input order: partitioning a concatenation concatenates the lists |
| `Categories.PartitionDisjoint` | script.js:185-189 | no record is in two lists |
| `Categories.UnknownTipoInNoBucket` | script.js:185-189 | a record whose `tipo` is none of the five literals is in no list |
| `Categories.PartitionSizes` | script.js:185-189 | the five bucket sizes plus the unclassified records add up to the input length, so each record is counted exactly once |
| `CategoryList.ViewCards` | script.js:42-52 | a container shows cards for items 0 up to min(limit, n) - 1 (all n when expanded), and a card is extra iff its index is at least the limit |
| `CategoryList.ButtonIffOverLimit` | script.js:31-34 | an empty list shows only the message and no button; otherwise the button exists iff n > limit, labelled with n - limit remaining |
| `CategoryList.CollapseUndoesExpand` | script.js:85-100 | removing the extra cards from the expanded container gives back exactly the initial render |
| `CategoryList.CategoryView.Display` | script.js:21-83 | the container is cleared and then holds the collapsed view of the given list (empty message for an absent or empty list), not expanded, with the "Ver Mais (n - limit restantes)" button iff n > limit |
| `CategoryList.CategoryView.RenderChunk` | script.js:42-64 | appends cards for items start up to min(end, n) - 1 in order, each marked extra iff its index is at least the limit |
| `CategoryList.CategoryView.RemoveExtraItems` | script.js:95-96 | removes exactly the extra cards and keeps every other child in order |
| `CategoryList.CategoryView.Click` | script.js:85-101 | a click flips the expanded flag and leaves the container equal to the expanded or collapsed view with the matching label; with no button nothing changes |
| `CategoryList.ExpandThenCollapse` | script.js:85-100 | two clicks from the initial render restore the container and the label |
| `LiveSearch.Trim` | script.js:153 | the trimmed term is no longer than the input and a non-empty one neither starts nor ends with whitespace |
| `LiveSearch.TrimStartSpec` | script.js:153 | trimming the start cuts only whitespace and leaves a suffix that does not start with whitespace |
| `LiveSearch.TrimEndSpec` | script.js:153 | trimming the end cuts only whitespace and leaves a prefix that does not end with whitespace |
| `LiveSearch.TrimIsMiddle` | script.js:153 | the trimmed term is a slice of the input with only whitespace outside it and no whitespace at either end |
| `LiveSearch.TrimEmptyIffBlank` | script.js:156 | a term trims to the empty string iff it is all whitespace |
| `LiveSearch.TrimIdempotent` | script.js:230 | trimming a trimmed term changes nothing |
| `LiveSearch.Utf16Length` | script.js:166 | a term's JavaScript length lies between its character count and twice it, and is 0 only for the empty term |
| `LiveSearch.AstralCharPassesGate` | script.js:166 | one character outside the Basic Multilingual Plane has length 2 and passes the gate; one ordinary character does not |
| `LiveSearch.SearchBox.SearchSchool` | script.js:228-251 | an empty trimmed term shows the placeholder and sends nothing; otherwise the trimmed term is sent |
| `LiveSearch.SearchBox.Input` | script.js:151-165 | every input cancels the pending search; a blank term shows the placeholder and schedules nothing; otherwise the trimmed term is scheduled |
| `LiveSearch.SearchBox.TimerFires` | script.js:165-169 | a scheduled search sends its term only when its UTF-16 length is at least 2, and the timer is then gone |
| `LiveSearch.SearchBox.KeyPress` | script.js:278-283 | Enter runs the search at once (sending a non-blank term with the panel showing "searching", or showing the placeholder); any other key changes nothing |
| `LiveSearch.TypeAndWait` | script.js:151-170 | typing then waiting sends the trimmed term iff its UTF-16 length is at least 2 |
| `Server.BuildQuery` | server.js:20-39 | no parameters give the empty query, `tipo` alone an equality filter, `q` alone the text clause, both their conjunction; empty strings count as absent; a record matches the query iff it satisfies every given parameter |
| `Server.ListEscolas` | server.js:18-51 | the response lists exactly the requested records, or is 500 with its message when the store call throws |
| `Server.SelectionMembership` | server.js:44 | a record is listed iff it is stored and satisfies every given parameter |
| `Server.NoParametersListsAll` | server.js:21-22 | with neither parameter every stored record is listed |
| `Server.TipoOnlyIsBucket` | server.js:24-25 | with only `tipo`, the list is exactly the home page's bucket for that type |
| `Server.GetById` | server.js:57-83 | 400 iff the id is malformed, 500 iff it is well-formed and the lookup throws, 404 iff well-formed and absent, otherwise the stored record |
| `Server.InvalidIdIgnoresStore` | server.js:62-65 | for a malformed id the response does not depend on the store's contents or failures |
| `Countdown.Progress` | scripts/detalhesScript.js:12-19 | the percentage equals 100 - 20 * seconds and lies in 0..100 for 0..5 seconds |
| `Countdown.ProgressMonotone` | scripts/detalhesScript.js:15 | fewer seconds left never gives a smaller percentage |
| `Countdown.Callback` | scripts/detalhesScript.js:28-42 | the counter drops by one, both elements show the new value, the bar is redrawn for it, the interval stays set iff it is above 0, and one redirect home is added iff it is 0 or below |
| `Countdown.Step` | scripts/detalhesScript.js:27-43 | a cleared interval changes nothing; a set one decrements and redraws; redirects are only ever appended and a cleared interval is never set again |
| `Countdown.CountdownRun` | scripts/detalhesScript.js:4-43 | after k < 5 ticks the counter is 5 - k, both elements show it, the interval is set and nothing redirected; from the fifth tick on the counter is 0, the bar 100, the interval cleared and exactly one redirect made |
| `Countdown.CountdownProgress` | scripts/detalhesScript.js:15-42 | the bar starts at 0, never shrinks, never exceeds 100, at most one redirect happens and it goes to `/projeto_pap/index.html` |
| `Countdown.CountdownPage.constructor` | scripts/detalhesScript.js:4-46 | the page starts with 5 seconds, the interval set, the bar at 0 and no redirect |
| `Countdown.CountdownPage.UpdateProgress` | scripts/detalhesScript.js:12-19 | the bar width becomes the progress for the current seconds |
| `Countdown.CountdownPage.RedirectToHome` | scripts/detalhesScript.js:22-24 | one redirect to the home page is appended |
| `Countdown.CountdownPage.RunCallback` | scripts/detalhesScript.js:27-42 | the callback's new state is the pure step: decrement, show the value twice, redraw after the decrement, and at 0 or below clear and redirect |
| `Countdown.CountdownPage.IntervalFires` | scripts/detalhesScript.js:27-43 | a period runs the callback while the interval is set and changes nothing after it was cleared |
| `HomePage.FetchAndDisplayCategories` | script.js:174-223 | on success each of the five lists is rendered from its bucket with limit 3 and the search area shows the placeholder; on failure an error is shown and the lists are unchanged |

## Left out

- Accent-insensitive text search: `normalizeText` is never called, and it depends on Unicode decomposition data; the store's `$text` matching is the opaque parameter `textMatch`.
- HTML markup, CSS classes, card text and the `|| 'Nome Indisponível'` fallbacks: only the container's children and the button label are modelled.
- A missing container element (script.js:23-26, 114-118, 158, 233-236): each class stands for a container that exists.
- `displaySearchResults` and the handling of search responses and errors (script.js:111-147, 248-272): the network response is external, so a search is recorded as the term it sends.
- Out-of-order search responses: concurrency between requests is not modelled.
- Real time: the 300 ms delay and the 1000 ms interval are abstract events.
- Countdown.Progress: computed in exact arithmetic; JavaScript's double-precision rounding is not modelled (for 0..5 seconds the values are whole percentages).
- Countdown.CountdownPage.constructor: the initial text of the two counter elements comes from the page markup and is modelled as `None`.
- Server.ListEscolas: repeated query parameters (which Express turns into arrays) are not modelled; each parameter is an optional string.
- Server.ListEscolas: the listing keeps one fixed collection order for every query; the store promises no order without a sort, and a `$text` query is answered from the text index (models/Escolas.js:34), so the order of the returned records is not modelled, only which records are returned.
- Server.GetById: casting a valid id string to an `ObjectId` is not modelled; the store map is keyed by the id string, and it is not tied to the listing sequence.
- CategoryList.CategoryView.Display: `limit` is a natural number; negative limits are not modelled (every caller passes 3).
- The nested `DOMContentLoaded` listener (script.js:309-328): it never fires and calls functions that do not exist.
- scripts/politecnico.js and scripts/faculdades.js: presentation and a fetch by `tipo`.
- models/Escolas.js: schema validation (`required`, `trim`, `enum`, `default`) is the database library's; only the enumeration's five literals are used.
- seed.js: database I/O only.
- Connection set-up, routing and the server's port.
