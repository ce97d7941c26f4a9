# TOEIC island builder: the reward, build and import logic in Dafny

The island builder is a quiz game. A team answers listening, reading and
vocabulary questions to earn three resources: electricity, bricks and chips.
It spends them on buildings placed on its island. A separate admin page
imports questions as JSON and uploads them to the database in batches.

This project models the two event-handling cores of the application:

- `island.dfy` (module `Island`) is the player page, `app/page.tsx`.
  The reward rule, the cost deduction, the shop's affordability test, the
  level counter and the building-asset lookup are pure functions on
  records. The page's React state is the class `PlayerPage`. Its fields
  are `team`, `blueprints`, `myBuildings`, `activeQuestion`,
  `selectedOption`, `showResult` and `loading`, and its methods are the
  event handlers.
- `admin.dfy` (module `Admin`) is the import page, `app/admin/page.tsx`.
  It holds an already-parsed JSON datatype, JavaScript truthiness, the
  validation of the parse handler, and the upload loop with its batching.
  The loop is the method `UploadBatches`, which is proved against the
  recursive specification `UploadRun`. The page state is the class
  `AdminPage`.
- `wrappers.dfy` (module `Wrappers`) defines `Option` and `Result`.

Every database call is replaced by a parameter that carries its result:
- the query results of the initial load;
- the fetched questions and the random index into them;
- whether a remote write of the build threw;
- an insert oracle that gives the result of the insert for each batch,
  keyed by the batch's first row.

The browser's `confirm` dialog is a boolean parameter. The clock readings
for the temporary building id and date are string parameters.

Main results:
- A correct answer credits exactly 20 units to the channel of its category
  and leaves the other two channels unchanged. A wrong answer, or a missing
  team, question or selection, leaves the resources unchanged.
- The shop's `canAfford` is exactly the negation of the build guard.
- A guarded build deducts each cost exactly. Its result has no negative
  resource if and only if the blueprint was affordable. `SubmitAnswer` and
  `HandleBuild` preserve the `Solvent` invariant of `PlayerPage` (no
  negative resource on screen).
- A build appends exactly one optimistic building, which keeps the old list
  as a prefix and raises the level by one.
- The upload loop sends ceil(N/50) batches. Each batch holds 1 to 50
  rows, and the batches are consecutive slices whose concatenation is the
  preview. The success and failure counts sum to N. The j-th progress line
  reports the rows of batch j. The preview is cleared if and only if some
  batch was stored.

Two points where the code is more specific than a plain reading of its
intent:
- A question whose category is none of the three known names earns
  nothing (`RewardFor` gives zero). The import never validates `type`.
- A refused parse leaves the previous preview in place, so a later upload
  sends that older preview.

## Model

| member | source | states |
|---|---|---|
| `Island.RewardFor` | app/page.tsx:156-159 | the reward is non-negative and totals 20 for a known category (0 otherwise), with at most one channel non-zero, so exactly one channel is credited |
| `Island.Credit` | app/page.tsx:162-167 | the new team's total resources are the old total plus the reward |
| `Island.CreditByCategory` | app/page.tsx:154-167 | listening adds 20 to electricity only, reading 20 to bricks only, vocab 20 to chips only; id and name are kept; an unknown category changes nothing |
| `Island.CreditKeepsNonNegative` | app/page.tsx:161-168 | a reward keeps a non-negative team non-negative and raises its total by exactly the reward |
| `Island.Rejected` | app/page.tsx:184 | the build guard refuses exactly the builds whose payment would leave some resource negative |
| `Island.CanAfford` | app/page.tsx:334 | an affordable blueprint never costs more than the team holds in total |
| `Island.CanAffordIffNotRejected` | app/page.tsx:334 | the shop's `canAfford` holds exactly when the build guard does not reject |
| `Island.ShopDisablesUnaffordable` | app/page.tsx:340 | costs (10,0,0) with 5 electricity: the button is disabled and the build is rejected |
| `Island.Deduct` | app/page.tsx:193-198 | after paying, no resource is negative exactly when the blueprint was affordable; the total drops by the total cost; id and name are kept |
| `Island.DeductThenRefund` | app/page.tsx:193-198 | crediting back the three costs after a deduction restores the team |
| `Island.OptimisticBuilding` | app/page.tsx:202-208 | the placeholder carries the blueprint's id, the blueprint itself, the optimistic flag and a `temp-` id |
| `Island.Level` | app/page.tsx:251 | the level is at least 1, and it is 1 exactly when nothing is built |
| `Island.LevelAfterBuild` | app/page.tsx:251 | appending one building raises the level by exactly one |
| `Island.DefaultOnlyForUnknownNames` | app/page.tsx:42-68 | the lookup yields the default asset exactly for names missing from the table, and the table's entry otherwise |
| `Island.AssetFor` | app/page.tsx:42-68 | every look is either the default box or an entry of the 15-building table |
| `Island.ShopAsset` | app/page.tsx:335 | a blueprint is drawn in the shop with its table entry, or with the default when its name is missing |
| `Island.BuildingAsset` | app/page.tsx:277 | a building without a joined blueprint is drawn with the default asset |
| `Island.OptimisticLooksLikeShop` | app/page.tsx:335 | an optimistic building is drawn with the same asset as its blueprint in the shop |
| `Island.PlayerPage.constructor` | app/page.tsx:71-78 | the initial state: no team, no blueprints, no buildings, no question, no selection |
| `Island.PlayerPage.InitData` | app/page.tsx:82-101 | each query result that has data replaces its field; buildings are replaced only when a team was found |
| `Island.PlayerPage.OnTeamUpdate` | app/page.tsx:104-108 | a pushed row replaces the whole team; nothing else changes |
| `Island.PlayerPage.StartTraining` | app/page.tsx:123-146 | given a query result filtered on the requested category, an error or an empty result leaves the question as it was; otherwise the picked question opens, it has the requested category, with no selection and no result shown; loading ends false |
| `Island.PlayerPage.SelectOption` | app/page.tsx:436 | the clicked option becomes the selection |
| `Island.PlayerPage.CloseQuestion` | app/page.tsx:380 | the question dialog closes |
| `Island.PlayerPage.SubmitAnswer` | app/page.tsx:149-177 | no change without team, question or selection; otherwise the result is shown and the team is credited exactly when the selection equals the answer; the `Solvent` invariant is kept |
| `Island.PlayerPage.HandleBuild` | app/page.tsx:180-231 | no team, a rejected guard or a declined dialog changes nothing; a confirmed build sets the team to the deduction, appends exactly one optimistic building after the unchanged old list, raises the level by one and keeps `Solvent` |
| `Admin.Property` | app/admin/page.tsx:40 | only objects have fields; on an object a field is present exactly when its key is |
| `Admin.Truthy` | app/admin/page.tsx:40 | a missing field and `null` are falsy; every array and object, even an empty one, is truthy |
| `Admin.IsNumber` | app/admin/page.tsx:40 | a value passing `typeof === 'number'` is a number, and it is truthy exactly when it is not 0 |
| `Admin.HasRequiredFields` | app/admin/page.tsx:40 | a first element that passes is an object holding `question`, `options` and a numeric `answer` |
| `Admin.ParseQuestions` | app/admin/page.tsx:33-42 | accepted exactly when the value is a non-empty array whose first element has a truthy `question`, a truthy `options` and a numeric `answer`; the accepted preview is the whole array |
| `Admin.ParseRejectsNonArrays` | app/admin/page.tsx:35-36 | non-JSON text, a non-array and an empty array are refused, each with its own error |
| `Admin.ParseChecksOnlyFirst` | app/admin/page.tsx:38-42 | the verdict depends on the first element only; later elements never change it |
| `Admin.ParseTruthinessEdges` | app/admin/page.tsx:40 | empty `options` and `answer` 0 pass; an empty `question` or a string `answer` fails; a `null` first element fails with the TypeError |
| `Admin.NumBatches` | app/admin/page.tsx:67-69 | the batch count is the least iteration count whose offset reaches N |
| `Admin.NumBatchesIsCeiling` | app/admin/page.tsx:67-69 | the batch count equals ceil(N/50) |
| `Admin.NumBatchesUnique` | app/admin/page.tsx:69 | the two bounds on the count determine it, so the loop runs exactly that many times |
| `Admin.OffsetIsMultiple` | app/admin/page.tsx:69 | iteration k starts at row 50k |
| `Admin.OffsetMonotone` | app/admin/page.tsx:69 | each later iteration starts at least 50 rows further on |
| `Admin.BatchLength` | app/admin/page.tsx:70-71 | a batch holds at most 50 rows and never runs past the end; one starting inside the data is non-empty; it is full when 50 rows remain, and otherwise ends at the last row |
| `Admin.BatchAt` | app/admin/page.tsx:70 | the slice at row i has exactly the length `BatchLength` gives |
| `Admin.BatchesFrom` | app/admin/page.tsx:69-70 | the loop started at row i sends no batch exactly when i is already past the data |
| `Admin.Batches` | app/admin/page.tsx:69-70 | the whole data makes ceil(N/50) batches, which joined are the data |
| `Admin.BatchesFromLength` | app/admin/page.tsx:69-70 | the batches from row i number ceil((N-i)/50) |
| `Admin.BatchesFromAt` | app/admin/page.tsx:69-70 | the k-th batch is the slice starting at i + Offset(k), which lies inside the data |
| `Admin.BatchesBounded` | app/admin/page.tsx:67-70 | every batch holds between 1 and 50 rows |
| `Admin.BatchesFromCover` | app/admin/page.tsx:69-70 | the batches, concatenated, are exactly the data from row i |
| `Admin.OneHundredTwentyRows` | app/admin/page.tsx:67-70 | 120 rows make three batches, of 50, 50 and 20 rows |
| `Admin.Step` | app/admin/page.tsx:71-81 | one pass of the loop adds the batch's length to the two counters together |
| `Admin.UploadRunCountStep` | app/admin/page.tsx:75-81 | each iteration adds its batch's length to exactly one counter: success when the insert succeeded, failure otherwise |
| `Admin.UploadRunCounts` | app/admin/page.tsx:69-82 | after k iterations of the reference run `UploadRun`, the two counts sum to min(Offset(k), N) |
| `Admin.CountsReflectBatches` | app/admin/page.tsx:75-81 | the success count is positive exactly when some batch was stored, and the failure count exactly when some batch failed |
| `Admin.ProgressLines` | app/admin/page.tsx:71 | the expected progress lines of k batches: k lines, the j-th reporting rows Offset(j)+1 to min(Offset(j+1), N) |
| `Admin.ProgressReports` | app/admin/page.tsx:71 | the progress lines of the loop's log after k batches are exactly `ProgressLines`: one per batch, in order, each for its own batch |
| `Admin.UploadBatches` | app/admin/page.tsx:63-82 | the loop sends exactly the batches, ceil(N/50) of them, each of 1 to 50 rows and concatenating to the data; the counts sum to N; counts and log are those of `UploadRun` |
| `Admin.ClearedIffSomeBatchStored` | app/admin/page.tsx:86-89 | after the loop, the success count is positive, and so the input and preview are cleared, exactly when some batch was stored |
| `Admin.AdminPage.constructor` | app/admin/page.tsx:18-24 | the initial state: empty input, idle, no log, no preview, empty password |
| `Admin.AdminPage.SetJsonInput` | app/admin/page.tsx:118 | the text area sets the input and nothing else |
| `Admin.AdminPage.SetPassword` | app/admin/page.tsx:105 | the password field sets the password and nothing else |
| `Admin.AdminPage.HandleParse` | app/admin/page.tsx:28-51 | the log becomes the single verdict line; an accepted input becomes the preview with status idle; a refused one sets status error and keeps the old preview |
| `Admin.AdminPage.HandleUpload` | app/admin/page.tsx:54-90 | a wrong password or a declined dialog sends nothing and changes nothing; otherwise every batch of the preview is sent, the log gains the loop's lines and the final counts, the status becomes success, and input and preview are cleared exactly when some rows were stored |

## Left out

- Database I/O is replaced by parameters. This covers the initial load
  queries, the question query, the reward write, the two build writes and
  the batch insert. The model does not say what the database stores.
- The reward write is not modelled. Its failure is swallowed, so local and
  remote totals can silently diverge.
- `Island.PlayerPage.HandleBuild`: the page reload after a thrown remote
  write is reported as `Built(true)`. The reloaded state is whatever a
  later `InitData` supplies. The model does not say which remote write
  threw.
- Realtime subscription: subscribing, unsubscribing and the race with
  optimistic updates are concurrency and event delivery, so they are left
  out. Only the handler, which replaces the whole team, is modelled. The
  `Solvent` invariant is not kept by `OnTeamUpdate` or by `InitData`,
  because a pushed or loaded row may hold anything.
- Handlers are atomic steps. React's asynchronous state updates, stale
  closures and interleaved awaits are not modelled. Intermediate states,
  such as status `parsing` or `uploading` and `loading` during a build,
  are not observable.
- Random question choice: `Math.random` becomes the index parameter
  `pick`.
- `Island.PlayerPage.StartTraining`: the question query filters on the
  requested category in the database. The model takes that filter as a
  precondition: every fetched row has the requested category.
- Clock reads: `Date.now()` and `new Date()` become the `stamp` and `now`
  parameters.
- Browser APIs: speech synthesis, `alert` and the reload itself are left
  out. `confirm` is a boolean parameter.
- Parsing: `JSON.parse` is left out, and the handler receives the parsed
  value, or `None` for a syntax error. JSON numbers are modelled as
  integers, so fractional numbers and NaN are not represented. Duplicate
  object keys are not represented.
- `Island.AssetFor` treats the asset table as a plain map. A blueprint
  named after an `Object.prototype` property, such as `toString`, would
  find that property in the source instead of the default asset.
- Resource arithmetic is exact integer arithmetic. JavaScript's
  double-precision limits are not modelled.
- Rendering: all JSX rendering and CSS selection are left out, including
  the `disabled` states of the buttons. The handlers are modelled without
  the guards those buttons add.
- The database orders blueprints by brick cost. The model does not check
  that order.
- lib/supabase.ts is not part of this model. It only constructs the
  database client.
