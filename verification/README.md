# Issue tracker store, modelled in Dafny

This project models the in-memory issue store of a small issue-tracking
HTTP API. The store is a process-wide object `issues` that maps a project name to
that project's issues in insertion order. Four route handlers under
`/api/issues/:project` work on it:

- **GET (list)** returns the project's issues whose fields strictly equal (`===`)
  every query parameter.
- **POST (create)** requires truthy `issue_title`, `issue_text` and `created_by`.
  It defaults `assigned_to` and `status_text` to `""`, stamps the id, both
  timestamps and `open = true`, and appends the issue.
- **PUT (update)** checks for a truthy `_id`, then for at least one other field,
  then for an issue of this project with that `_id`. It then merges the body into
  that issue and resets `updated_on`.
- **DELETE** checks for a truthy `_id`, finds the first issue with it in the
  project, and splices it out.

Modules:

- `Values` (values.dfy): field values (`Str`, `Num`, `Bool`, `Null`, `Time`) and
  JavaScript truthiness. On strings, numbers, booleans and null, strict equality
  is Dafny's `==`, so the string `"true"` does not equal the boolean `true`. A
  timestamp is a `Date` object, which `===` compares by identity. `==` on `Time`
  does not capture that, but the handlers only ever compare a timestamp with a
  string (a query value or a JSON `_id`), and that comparison is false in both.
- `Issues` (issues.dfy): an issue is a map from field name to value, because the
  update handler merges arbitrary keys into it. This module holds the record the
  create handler builds, the filter of the list handler, the `_id` search
  (`find` / `findIndex`), the field merge of the update handler and the `splice`
  of the delete handler, with their lemmas.
- `IssueStore` (store.dfy): the response payloads, the store invariant (every
  stored issue has an `_id`, and ids are unique across all projects), and the
  class `Store`. Its field `issues` is the handlers' shared dictionary. `List` is
  a function that reads it. `Create`, `Update` and `Delete` are methods that
  reassign it.
- `FunctionalScenario` (scenario.dfy): the functional test suite's fourteen
  requests to project `test`, in the suite's order, on a fresh store: three
  POSTs, three GETs, five PUTs and three DELETEs. Every answer the suite checks
  follows from the handlers' contracts alone.
- `PrototypeLookup` (prototype.dfy): the project lookup as JavaScript actually
  evaluates it on a plain object (see Findings).

External sources become parameters:

- `uuidv4()` is the `id` argument of `Create`. A `requires` states that the id
  is fresh, meaning no stored issue has it.
- Each `new Date()` is a natural-number timestamp argument. Create takes two,
  `createdOn` and `updatedOn`, because the source reads the clock twice.
  Update takes one, `now`.

## Model

| member | source | states |
|---|---|---|
| `Values.Truthy` | routes/api.js:23 | A body key passes a truthiness check if and only if it is present and its value is not `""`, `0`, `false` or `null`. |
| `Issues.NewIssue` | routes/api.js:27-37 | The created record has exactly the nine issue fields. It carries the supplied id, the three required fields as given, `assigned_to`/`status_text` as given or `""` when absent, both clock readings, and `open = true`. |
| `Issues.Filter` | routes/api.js:13-15 | The listed issues are drawn from the project's issues and all match every filter key. Every matching issue is listed, and the result is never longer than the input. |
| `Issues.MatchingIndices` | routes/api.js:13-15 | The matching positions come in strictly increasing order, and a position is included exactly when its issue matches. |
| `Issues.FilterIsMatchingSubsequence` | routes/api.js:13-15 | The filter result is exactly the matching subsequence, in original order: its k-th element is the issue at the k-th matching position. |
| `Issues.FilterNoneMatch` | routes/api.js:13-15 | When no issue of the sequence matches, the list is empty. |
| `Issues.FilterWithoutKeys` | routes/api.js:13-14 | With no query parameters, the whole sequence comes back unchanged and in insertion order. |
| `Issues.StringFilterSkipsNonStrings` | routes/api.js:14 | Strict equality: a string filter never selects an issue whose field holds a boolean, a number, null or a timestamp. |
| `Issues.FirstMatch` | routes/api.js:84 | `findIndex` by `_id`: -1 exactly when no issue has the `_id`; otherwise the first index whose issue has it. The same search is `find` at routes/api.js:60. |
| `Issues.Merged` | routes/api.js:68-69 | `Object.assign` and then the timestamp: the keys become the union of both; supplied fields overwrite; other fields stay; `updated_on` is the clock reading even if the body supplied one. |
| `Issues.MergeKeepsId` | routes/api.js:47-69 | Because `_id` is taken out of the body before the merge, an update never changes an issue's `_id`. |
| `Issues.Removed` | routes/api.js:90 | `splice(i, 1)`: one element shorter; the issues before `i` keep their positions and the later ones move down by one. |
| `Issues.RemovedFirstMatchIsGone` | routes/api.js:84-90 | After the first issue with an `_id` is spliced out of a sequence with unique ids, no issue there has that `_id`, so a second delete fails. |
| `Issues.RemovedKeepsUnique` | routes/api.js:90 | Splicing keeps the remaining ids unique. |
| `IssueStore.LookupIsScoped` | routes/api.js:59-60 | An `_id` held by an issue of another project is not found in this one, so update and delete report it as missing. |
| `IssueStore.AppendKeepsUnique` | routes/api.js:27-40 | Appending an issue whose id is fresh keeps ids unique across the store. |
| `IssueStore.ReplaceKeepsUnique` | routes/api.js:68-69 | Replacing an issue with its merged version, which has the same `_id`, keeps ids unique across the store. |
| `IssueStore.RemoveKeepsUnique` | routes/api.js:90 | Removing an issue from one project keeps ids unique across the store. |
| `IssueStore.DeleteUndoesCreate` | routes/api.js:39-90 | The issue just appended is found at the end of its project. Splicing it out gives back the project's previous sequence. |
| `IssueStore.Store.constructor` | routes/api.js:5 | The store starts empty and satisfies the invariant. |
| `IssueStore.Store.List` | routes/api.js:9-17 | GET returns exactly the matching issues in original order (sound, complete, positionally the matching subsequence). An empty filter returns everything. An unknown project returns `[]`. |
| `IssueStore.Store.Create` | routes/api.js:19-43 | Any falsy or absent required field gives `required field(s) missing` and leaves the store unchanged. Otherwise exactly `NewIssue(...)` is appended to the project (created if absent) and returned. Other projects are unchanged and id uniqueness is kept. |
| `IssueStore.Store.Update` | routes/api.js:45-72 | The errors come in this order: `missing _id` with no id; then `no update field(s) sent` with the id when the body has no other key, whatever their values; then `could not update` with the id when the project has no issue with it. Each error leaves the store unchanged. On success, only the first matching issue of that project becomes `Merged(issue, body - {_id}, now)`; length, order, other issues and other projects are unchanged. |
| `IssueStore.Store.Delete` | routes/api.js:75-92 | A falsy `_id` gives `missing _id`. No match in the project gives `could not delete` with the id. Both leave the store unchanged. Otherwise the first match is spliced out, the result is `successfully deleted` with the id, and no issue of the project has that `_id` afterwards. |
| `FunctionalScenario.TestSuiteSession` | tests/2_functional-tests.js:8-186 | The whole suite in order on a fresh store, with its answers. POST with every field keeps `assigned_to` `Someone` and `status_text` `Open`. POST with only the required fields defaults both to `""` and is open. POST `{}` gives `required field(s) missing`. GET lists both issues in creation order; `open=true`, alone or with `assigned_to=Someone`, lists nothing, because the string never equals the boolean. The PUT answers: `successfully updated`; `could not update` with `invalid_id`; `no update field(s) sent` with the id; `successfully updated`; `missing _id`. The DELETE answers: `successfully deleted`; `could not delete` with `invalid_id`; `missing _id`. |
| `FunctionalScenario.PostRequests` | tests/2_functional-tests.js:11-56 | The three POSTs and their answers. The store then holds exactly the two created issues under `test`, in creation order. |
| `FunctionalScenario.PostEveryField` | tests/2_functional-tests.js:12-29 | On the empty store, POST with all five body fields returns an issue with the nine fields, the given `assigned_to` and `status_text`, and `open = true`. It is the only issue of `test`. |
| `FunctionalScenario.PostRequiredFields` | tests/2_functional-tests.js:31-44 | POST with only the three required fields returns an issue with `assigned_to` and `status_text` set to `""`. It is appended after the first issue. |
| `FunctionalScenario.GetRequests` | tests/2_functional-tests.js:58-88 | With two open issues stored, GET without a query lists both in order. `open=true`, and `open=true&assigned_to=Someone`, list nothing. |
| `FunctionalScenario.PutRequests` | tests/2_functional-tests.js:90-150 | The five PUTs answer as the suite expects. The store keeps one project with both issues, in the same positions with the same ids. |
| `FunctionalScenario.UpdateFirst` | tests/2_functional-tests.js:91-138 | A PUT that names the first issue's id and at least one other field answers `successfully updated` with that id. It keeps both issues' ids and positions. |
| `FunctionalScenario.DeleteRequests` | tests/2_functional-tests.js:153-185 | Deleting the first issue succeeds and leaves only the second issue. Then `invalid_id` gives `could not delete` with that id, and `{}` gives `missing _id`. |
| `PrototypeLookup.ProjectIssuesAsWritten` | routes/api.js:5-12 | As written, `issues[project] \|\| []` on a plain object fails to produce an array exactly for inherited `Object.prototype` names the store does not hold. Elsewhere it agrees with `Lookup`. |
| `PrototypeLookup.ListAsWritten` | routes/api.js:12-15 | The list handler as written throws exactly for inherited names that are not store keys. Elsewhere it returns the filter result. |
| `PrototypeLookup.ConstructorProjectThrows` | routes/api.js:12-15 | On an empty store, as written, listing project `constructor` throws, while `Store.List` answers `[]`. |
| `PrototypeLookup.AsWrittenAgreesElsewhere` | routes/api.js:12-15 | As written and corrected, listing agrees on every project name that is a store key or is not inherited. |

## Left out

- Express routing, `req`/`res` handling, HTTP status codes and JSON
  serialisation (routes/api.js:7-8 and the `res.json` calls). Answers are the
  `Response` datatype; key order in the JSON output is not modelled.
- `uuidv4()` is a foreign library, so it becomes the `id` parameter of `Create`.
  The parameter must be fresh, which is what a v4 UUID is trusted to be.
- `new Date()` is the wall clock, so it becomes natural-number parameters. No
  relation between `created_on` and `updated_on` is claimed, because they come
  from two clock reads.
- `updated_on >= created_on` is not stated as an invariant. The update handler
  merges arbitrary body keys, so a body can overwrite `created_on` with any
  value, and the clock readings are unconstrained parameters.
- Query-string parsing quirks such as repeated or nested parameters, which
  become arrays or objects. Filters are modelled as string-to-string maps.
- JSON body values that are objects, arrays or non-integer numbers. Numbers are
  modelled as integers, so `NaN` is not modelled.
- A body key `__proto__`, which `Object.assign` treats as a prototype setter.
- Concurrency and persistence, because the source has neither.
- The other handlers' own throwing on inherited project names: Create
  (routes/api.js:39-40), Update (routes/api.js:59-60) and Delete
  (routes/api.js:83-84). Only the list handler's version is modelled as written;
  the others use the corrected own-key `Lookup`.

## Findings

| source | as written | input that shows it | evidently intended | confidence | as-written member | corrected member |
|---|---|---|---|---|---|---|
| routes/api.js:5-12 | `issues` is a plain `{}`, so `issues[project] \|\| []` finds a property inherited from `Object.prototype` for a project the store does not hold. The value is a function or object, not an array, so `.filter` (and likewise `.find`, `.findIndex`, `.push` at lines 39-40, 59-60, 83-84) throws a TypeError. | GET `/api/issues/constructor` on any store without that key (also `toString`, `__proto__`, ...) | Every project name not yet used behaves as an empty project: GET lists `[]`; POST creates the project. | high; not executed | `PrototypeLookup.ConstructorProjectThrows` | `IssueStore.Store.List` |
