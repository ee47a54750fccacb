# Generation history, form submissions and proxy routes

A model of the logic inside a Next.js chat front end for an "agentic RAG"
backend. Three parts carry logic:

- **The generation history.** A list of `{id, prompt, response, timestamp}`
  entries, newest first, kept in the browser storage slot
  `"ai-agent-history"`. A successful generation puts an entry in front and
  cuts the list to 50. The history page and the form sidebar delete entries
  by id, clear the list, and reload it from the slot. The slot is modelled as
  `Missing | Stored(items) | Corrupt`. An empty stored string is falsy, so it
  behaves as `Missing`. Text that does not parse, or parses to something
  other than an array, is `Corrupt`.
- **The three forms' submit handlers** (text generation, search, data
  entry). Each rejects blank input without a call, sets `isLoading`, updates
  its fields on success or sets a fixed error string on failure, and resets
  `isLoading`. Each form is a class whose fields are the component's state.
  How the awaited client call settles is an input, `Ok(v) | Fail`.
- **The route handlers** `POST /api/generate`, `POST /api/search/similar` and
  `POST /api/search/text`. Each is a pure function from the parsed request
  body (or a parse failure) and, for generate, the backend's outcome to a
  status and a JSON body.

Files: `wrappers.dfy` (Option, Outcome), `jstext.dfy` (`trim`, `slice`),
`json.dfy` (JSON values, truthiness, `${v}` text), `history.dfy` (entries,
slot, list operations), `text_generation_form.dfy`, `history_form.dfy`,
`search_form.dfy`, `data_entry_form.dfy`, `routes.dfy` (shared request and
response), `generate_route.dfy`, `similar_route.dfy`, `text_route.dfy`,
`scenarios.dfy` (the two history components on one storage area).

Behaviour of the code worth knowing, each captured by the model:

- A load of malformed history leaves the list as it is. The list is empty
  only at mount, because it starts empty (`Loaded`, `HistoryForm.View.Mount`).
- Delete-by-id removes every entry with that id. Ids come from `Date.now()`
  and `Math.random()` and are not guaranteed unique. Exactly one entry goes
  only when ids are unique (`History.WithoutUniqueRemovesOne`).
- Of the three modelled routes, only generate calls the backend. The two
  search routes answer with three canned results.
- The routes write the body's field into text with a template literal. That
  throws for an object with its own `toString` member, or an array holding
  one (`Json.TextThrows`), and the handler then answers 500: the search
  routes always, the generate route only when it falls back to the mock
  text, after its backend call.
- Submitting reads the slot, not the list on screen. So a form started from
  a stale list still records on top of what the slot holds
  (`Scenarios.DeleteThenGenerate`).
- A corrupt slot makes the submission fail after the generated text has been
  shown. Both the text and the error are set, and the prompt is kept.
- A blank prompt returns before the `try`. `isLoading` is therefore left as it
  was, not reset.
- Deleting an id that no entry has leaves the list unchanged but still
  writes that list to the slot.

## Model

| member | source | states |
|---|---|---|
| `JsText.Trim` | components/TextGenerationForm.tsx:51 | the trimmed prompt is no longer than the input and neither starts nor ends with whitespace |
| `JsText.TrimParts` | components/TextGenerationForm.tsx:66 | `trim` removes only whitespace: the input is a whitespace run, the trimmed text, then a whitespace run |
| `JsText.BlankIffAllWhitespace` | components/SearchForm.tsx:18 | the blank guard `!s.trim()` holds exactly when every character is whitespace |
| `JsText.TrimIdempotent` | components/TextGenerationForm.tsx:66 | trimming an already trimmed prompt changes nothing |
| `JsText.Slice` | components/HistoryForm.tsx:113-114 | `slice(0, n)` gives a prefix of the text of length min(length, n) |
| `Json.Get` | app/api/generate/route.ts:5 | reading a key gives `undefined` exactly when no member has that key; otherwise it gives the value of the last member with that key |
| `Json.Destructure` | app/api/generate/route.ts:5 | destructuring throws exactly on a `null` body; it yields a value exactly when the body is an object with a member of that key, and then the value `Get` reads |
| `Json.GetIgnoresOther` | app/api/generate/route.ts:5 | inserting a member with another key anywhere in an object leaves the value read for a key unchanged |
| `Json.Truthy` | app/api/generate/route.ts:7 | `!prompt` / `!query` hold exactly for `undefined`, `null`, `false`, `0` and `""` |
| `Json.NatText` | app/api/search/similar/route.ts:14-16 | the result number is written as decimal digits without leading zeros, and those digits spell the number back (`DigitsValue`) |
| `Json.ToText` | app/api/search/similar/route.ts:13-17 | `${v}` throws exactly when `TextThrows(v)`: an object with its own `toString` member, or an array holding one at any depth; a string gives itself, a non-negative number its decimal digits, any other object `[object Object]` |
| `Json.JoinText` | app/api/search/similar/route.ts:14-16 | the `join` behind `${array}` throws exactly when one of the elements throws; a one-element array writes as its element, unless that is `null` |
| `Json.ErrorBody` | app/api/generate/route.ts:8-11 | the error body is an object whose `error` member is the message |
| `Routes.ReadField` | app/api/search/text/route.ts:5 | reading the body throws exactly when the body is not JSON or is `null` |
| `Routes.OtherMemberIgnored` | app/api/search/similar/route.ts:5 | inserting a member with another key anywhere in the body leaves the field read unchanged |
| `History.Cap` | components/TextGenerationForm.tsx:76-78 | `splice(50)` keeps a prefix of the array, of length at most 50 |
| `History.Loaded` | components/TextGenerationForm.tsx:26-46 | a parsed slot gives the stored list; a missing or corrupt slot leaves the current list; within the bound when both are |
| `History.Existing` | components/TextGenerationForm.tsx:71-72 | a submission starts from the stored list, or from `[]` when the slot is missing; within the bound when the slot is |
| `History.Recorded` | components/TextGenerationForm.tsx:71-80 | after a submission the stored list has the new item at index 0, then the previously stored items in order; its length is min(old+1, 50) |
| `History.RecordedKeepsAll` | components/TextGenerationForm.tsx:73 | below 50 stored entries nothing is evicted |
| `History.RecordedEvictsOldest` | components/TextGenerationForm.tsx:73-78 | at 50 stored entries the length stays 50, the oldest entry is dropped and the other 49 each move down one place |
| `History.RecordAll` | components/TextGenerationForm.tsx:63-80 | after a non-empty run of submissions the newest is first and the length is min(old + run, 50); an empty run leaves the list |
| `History.Reversed` | components/TextGenerationForm.tsx:73 | the order a run of `unshift`s leaves: element i of the result is element n-1-i of the run |
| `History.RecordAllNewestFirst` | components/TextGenerationForm.tsx:63-80 | after any run of successful submissions the slot holds them newest first, then the earlier contents, cut to 50 |
| `History.Without` | components/HistoryForm.tsx:45 | deleting an id removes every entry with that id and keeps every other entry, as often as it occurred and in its original order |
| `History.WithoutAbsent` | components/TextGenerationForm.tsx:102 | deleting an id that no entry has leaves the list unchanged |
| `History.WithoutIdempotent` | components/HistoryForm.tsx:45-47 | deleting the same id twice gives the same list as deleting it once |
| `History.WithoutUniqueRemovesOne` | components/TextGenerationForm.tsx:65 | when ids are unique, deleting a present id shortens the list by exactly one |
| `History.Preview` | components/HistoryForm.tsx:113-114 | a prompt up to the width is shown whole; a longer one is shown as its first `width` characters followed by "..." |
| `TextGenerationForm.SidebarPreview` | components/TextGenerationForm.tsx:165-166 | the sidebar shows a prompt of up to 60 characters whole; a longer one as its first 60 characters followed by "..." |
| `TextGenerationForm.Form.Mount` | components/TextGenerationForm.tsx:13-24 | initial state (empty prompt, no text, not loading, no error, no selection) followed by a load from the slot |
| `TextGenerationForm.Form.LoadHistory` | components/TextGenerationForm.tsx:26-46 | a parsed slot replaces the list; a missing or corrupt slot leaves it unchanged without failing; the 50-entry bound is kept |
| `TextGenerationForm.Form.HandleSubmit` | components/TextGenerationForm.tsx:48-93 | blank prompt: error "Prompt cannot be empty", no call, nothing else changes. API failure: fixed error, prompt kept, history and slot unchanged. Corrupt slot: text shown and error set. Success: slot and list become `Recorded`, the prompt is cleared, there is no error. Afterwards `isLoading` is false on every non-blank path |
| `TextGenerationForm.Form.SaveToHistory` | components/TextGenerationForm.tsx:71-83 | reads the slot (not the shown list), writes `Recorded` of it and reloads; a corrupt slot throws and nothing is written |
| `TextGenerationForm.Form.KeyDown` | components/TextGenerationForm.tsx:247-256 | Enter without Shift submits exactly when nothing is loading and the prompt is not blank; any other key press changes nothing |
| `TextGenerationForm.Form.ClearHistory` | components/TextGenerationForm.tsx:95-99 | history empty, selection null, slot removed |
| `TextGenerationForm.Form.DeleteHistoryItem` | components/TextGenerationForm.tsx:101-108 | the list becomes `Without(list, id)`, the slot receives exactly that list, and the selection is cleared exactly when its id is the deleted id |
| `TextGenerationForm.Form.LoadHistoryItem` | components/TextGenerationForm.tsx:114-118 | replaying an entry shows its prompt and response and selects it, with no call |
| `TextGenerationForm.Form.SetPrompt` | components/TextGenerationForm.tsx:246 | typing sets the prompt |
| `HistoryForm.ListPreview` | components/HistoryForm.tsx:113-114 | the list shows a prompt of up to 80 characters whole; a longer one as its first 80 characters followed by "..." |
| `HistoryForm.View.Mount` | components/HistoryForm.tsx:12-36 | on mount the list equals the stored list, in stored order; a missing or malformed slot leaves it empty |
| `HistoryForm.View.ClearHistory` | components/HistoryForm.tsx:38-42 | history empty, selection null, slot removed |
| `HistoryForm.View.DeleteItem` | components/HistoryForm.tsx:44-51 | the list becomes `Without(list, id)` and the slot receives that list. The selection is cleared exactly when its id is the deleted id. An absent id leaves the list and the selection unchanged. The bound and "selection is listed" invariant are kept |
| `HistoryForm.View.Select` | components/HistoryForm.tsx:103 | clicking an entry selects it |
| `HistoryForm.DeleteTwice` | components/HistoryForm.tsx:44-47 | a second delete with the same id leaves the list as the first left it |
| `SearchForm.CallFor` | components/SearchForm.tsx:29-33 | type "similarity" calls the similarity search; any other type calls the text search, each with the query as typed |
| `SearchForm.Form.constructor` | components/SearchForm.tsx:9-13 | a new form keeps its `type` and starts with an empty query, no results, not loading and no error |
| `SearchForm.Form.HandleSubmit` | components/SearchForm.tsx:15-46 | blank query: error "Search query cannot be empty" and no call. Success: `results` is the returned list, and the error is "No results found for your query" exactly when that list is empty. Failure: error "Search failed. Please try again." and `results` unchanged. Afterwards `isLoading` is false on both paths |
| `DataEntryForm.Form.constructor` | components/DataEntryForm.tsx:5-13 | a new form records whether `onDataStored` was passed and starts with empty content and context, not loading, no result id, no error and no callback made |
| `DataEntryForm.Form.HandleSubmit` | components/DataEntryForm.tsx:15-43 | blank content: error "Content cannot be empty" and no call; a blank context does not block. Success: `resultId` is the id, content and context are cleared, and the callback is called once with the id when it is provided; when that callback throws, the store error is set even though the id is shown and the fields are cleared, otherwise there is no error. Failure: fixed error, fields and prior `resultId` unchanged. Afterwards `isLoading` is false |
| `GenerateRoute.BackendUrl` | app/api/generate/route.ts:15-16 | the backend URL is never empty: a set, non-empty variable is used as it is, and anything else gives `http://localhost:5000` |
| `GenerateRoute.TemplateParts` | app/api/generate/route.ts:37-54 | in the mock template the prompt and a closing quote follow the lead, appear again after the explanation, and the URL and note end the text |
| `GenerateRoute.MockTextShape` | app/api/generate/route.ts:37-54 | the mock text starts with `AI Generated Response for: "<prompt>"`, quotes the prompt verbatim a second time, and ends with the note naming the backend URL |
| `GenerateRoute.TextBody` | app/api/generate/route.ts:56 | the mock body is an object whose `text` member is the mock text |
| `GenerateRoute.Post` | app/api/generate/route.ts:3-65 | status is 200, 400 or 500. A backend call, to `<url>/api/generate` with the prompt, is made exactly when the prompt is truthy. 400 with "Prompt is required" exactly when the prompt is falsy. 500 with "Failed to generate text" exactly when the body cannot be read, or when the backend gives no usable answer and `${prompt}` throws |
| `GenerateRoute.PassThrough` | app/api/generate/route.ts:27-32 | a 2xx backend answer with a JSON body is returned verbatim with status 200 |
| `GenerateRoute.Fallback` | app/api/generate/route.ts:33-64 | an unreachable backend, a non-2xx status or a non-JSON body gives status 200 with `{text}` set to the mock text for the prompt and URL; when `${prompt}` throws, 500 with "Failed to generate text" instead |
| `GenerateRoute.StringPromptForwarded` | app/api/generate/route.ts:7-12 | any non-empty string prompt, whitespace-only included, is forwarded; with the backend down it is echoed verbatim in the mock text |
| `GenerateRoute.ToStringPromptFails` | app/api/generate/route.ts:37-64 | a prompt object with its own `toString` member and the backend down: the call is made and the answer is 500 with "Failed to generate text" |
| `GenerateRoute.CallTarget` | app/api/generate/route.ts:15-19 | a set, non-empty variable `u` sends the call to `u/api/generate`; otherwise it goes to `http://localhost:5000/api/generate` |
| `GenerateRoute.OnlyPromptMatters` | app/api/generate/route.ts:5 | two bodies with the same `prompt` member get the same call and the same answer |
| `SimilarRoute.Post` | app/api/search/similar/route.ts:3-27 | 500 with "Failed to perform similarity search" exactly when the body cannot be read or `${query}` throws on a truthy query; 400 with "Query is required" exactly when the query is falsy; otherwise 200 |
| `SimilarRoute.ResultsBody` | app/api/search/similar/route.ts:13-19 | the results member has exactly three entries, entry k being `Similar result k for query: "<query>"` |
| `SimilarRoute.ThreeResults` | app/api/search/similar/route.ts:13-26 | a truthy query answers 200 with the three results for its text, or 500 when `${query}` throws |
| `SimilarRoute.ResultLine` | app/api/search/similar/route.ts:14-16 | result line k starts with `Similar result `, then the decimal digits of k (`NatText(k)`, which read back as k), and ends with the query verbatim in quotes |
| `SimilarRoute.StringQueryQuoted` | app/api/search/similar/route.ts:13-19 | a non-empty string query answers 200 with the three results quoting it verbatim |
| `SimilarRoute.ToStringQueryFails` | app/api/search/similar/route.ts:13-26 | a query object with its own `toString` member answers 500 with "Failed to perform similarity search" |
| `SimilarRoute.OnlyQueryMatters` | app/api/search/similar/route.ts:5 | two bodies with the same `query` member get the same answer: `limit` and every other member are ignored |
| `TextRoute.Post` | app/api/search/text/route.ts:3-27 | 500 with "Failed to perform text search" exactly when the body cannot be read or `${query}` throws on a truthy query; 400 with "Query is required" exactly when the query is falsy; otherwise 200 |
| `TextRoute.ResultsBody` | app/api/search/text/route.ts:13-19 | the results member has exactly three entries, entry k being `Text search result k for: "<query>"` |
| `TextRoute.ThreeResults` | app/api/search/text/route.ts:13-26 | a truthy query answers 200 with the three results for its text, or 500 when `${query}` throws |
| `TextRoute.ResultLine` | app/api/search/text/route.ts:14-16 | result line k starts with `Text search result `, then the decimal digits of k (`NatText(k)`, which read back as k), and ends with the query verbatim in quotes |
| `TextRoute.StringQueryQuoted` | app/api/search/text/route.ts:13-19 | a non-empty string query answers 200 with the three results quoting it verbatim |
| `TextRoute.ToStringQueryFails` | app/api/search/text/route.ts:13-26 | a query object with its own `toString` member answers 500 with "Failed to perform text search" |
| `TextRoute.OnlyQueryMatters` | app/api/search/text/route.ts:5 | two bodies with the same `query` member get the same answer: `limit` and every other member are ignored |
| `Scenarios.ClearThenReload` | components/TextGenerationForm.tsx:95-99 | clearing and then reloading leaves an empty list and no slot |
| `Scenarios.DeleteThenGenerate` | components/TextGenerationForm.tsx:71-83 | a form mounted before a deletion on the history page records on top of the list the page wrote to the slot |

## Left out

- Rendering, styling, icons, toast notifications and navigation: presentational, with no logic.
- `lib/api.ts`, the client wrapper, is not part of this model. Its results enter the forms as the `Outcome` inputs. Its search calls turn errors into `[]`, so through it the search form's failure path is not reached in practice.
- `app/api/data/route.ts` and `app/api/health/route.ts` are not part of this model. They only forward a request, with a random fallback id or wall-clock timestamps.
- The network: `fetch` in the generate route becomes the `BackendOutcome` input. The request the route would send is returned as `BackendCall`.
- Browser storage is reduced to the one history slot. `JSON.parse`/`JSON.stringify` are reduced to "parses to a list of entries" or "corrupt". Stored arrays whose elements are not entries are not modelled.
- Timestamps: `new Date(...)`, `toISOString` and `toLocaleString` are treated as opaque text. Loading turns a stored timestamp into a `Date`, and a delete writes the list back with `JSON.stringify`. That rewrite is not modelled: a valid stored date that is not in ISO form comes back in ISO form, and an invalid one comes back as `null`.
- Browser storage never throws here. `localStorage.getItem` throwing (storage disabled) at TextGenerationForm.tsx:27 and :71 and HistoryForm.tsx:17, and `localStorage.setItem` throwing (a full quota) at TextGenerationForm.tsx:80 and :104 and HistoryForm.tsx:47, are not modelled.
- TextGenerationForm.Form.HandleSubmit: the client call's result is taken to be a string (`Outcome<string>`). The generate route passes any JSON the backend sends through, so `response.data.text` can be missing or not a string. What the form then shows and stores is not modelled.
- DataEntryForm.Form.HandleSubmit: the store call's result is taken to be a string id (`Outcome<string>`). The data route passes any JSON the backend sends through, so `response.data.id` can be missing or not a string. What the form then shows and passes to the callback is not modelled.
- Generated ids (`Date.now()`, `Math.random()`) and the current time are parameters of `HandleSubmit`. They are not guaranteed unique.
- JSON numbers are integers only: fractions and `-0` are not modelled. `JSON.parse` rounds integers beyond 2^53 to the nearest double, and the request body is taken as already parsed, so that rounding is outside the model.
- Json.ToText: an integer is always written in decimal. JavaScript writes a number of magnitude 10^21 or more in exponent form (`1e+21`), so for those numbers the text differs.
- Strings are sequences of Unicode scalar values. JavaScript counts UTF-16 code units, so `slice(0, 80)` on text outside the Basic Multilingual Plane is not modelled exactly.
- `async`/`await` and React's re-rendering: each handler's call is taken as already settled. The model states the state after the handler finishes, with `isLoading` set during the call and reset after it. Concurrent submissions and cross-tab races on the slot are not modelled.
- `console.error` logging and `e.preventDefault()`: no state.
- TextGenerationForm.Form.KeyDown: on a submitting key press it states only which prompt is sent and that loading ends. The rest of the new state is what `HandleSubmit` states.
