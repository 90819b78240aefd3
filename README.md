# fastly-cli core, modelled in Dafny

This project models the core of fastly-cli, a command line tool for the Fastly
CDN API, and proves properties of the model:

- **Dictionary reconciliation** (`pkg/dictionary/manager.go`): a manager bound to
  one remote edge dictionary and one local reader. Sync lists the remote
  items, reads the local rows and validates them (at most 1000 rows, keys of
  at most 256 bytes, values of at most 8000 bytes, no repeated key), diffs the
  two maps into creates, updates and deletes, and sends those as batch
  requests of at most 1000 operations.
- **Batch endpoint** (`pkg/fastly-ext/dictionary.go`): ordered checks on the
  service, the dictionary and the item count, the request path, and one PATCH.
- **Version builder** (`pkg/builder/builder.go`, and its older copy
  `pkg/eavesdrop/builder.go`): clone a service version, run mutators on the
  clone, and activate it only when all of them succeed.
- **Token requests** (`pkg/tokens/manager.go` and the older `pkg/tokens/tokens.go`):
  use supplied credentials or ask for them, optionally ask for a 2FA token,
  create the token once and copy the response.
- **Small helpers**: the service picker's name list and lookup
  (`pkg/terminal/widget_serviceSelector.go`) and the token scope check
  (`cmd/fastly-cli/cmd_tokens.go`).

Remote APIs, terminals, readers, gatherers and mutators are oracles. Where the
source changes an object step by step (the dictionary manager, the builders,
the token manager), the model is a class. Its collaborators are stub classes
that answer from fixed functions and record every call made to them, and the
builders keep a ghost trace of their steps in order. Each such method is proved equal to a pure function
(`SyncSpec`, `Transaction`, `AddTokenRun`), and the properties are proved as
lemmas about that function. Go errors are one `Error` datatype, and
`errors.Wrap` is `Wrapped(context, cause)`.

Files:

| file | module |
|---|---|
| `errors.dfy` | `Errors` |
| `fastly_ext.dfy` | `FastlyExt` |
| `dictionary_rows.dfy` | `DictionaryRows` |
| `dictionary_diff.dfy` | `DictionaryDiff` |
| `dictionary_batch.dfy` | `DictionaryBatch` |
| `dictionary.dfy` | `Dictionary` |
| `dictionary_sync.dfy` | `DictionarySync` |
| `builder.dfy` | `Builder` |
| `eavesdrop_builder.dfy` | `Eavesdrop` |
| `tokens_manager.dfy` | `TokensManager` |
| `tokens.dfy` | `Tokens` |
| `service_selector.dfy` | `ServiceSelector` |
| `token_scope.dfy` | `TokenScopes` |

## Model

| member | source | states |
|---|---|---|
| FastlyExt.ItemsPath | pkg/fastly-ext/dictionary.go:66 | the path is the service and dictionary IDs placed between the fixed prefix, infix and suffix (27 extra characters) |
| FastlyExt.ParseItemsPath | pkg/fastly-ext/dictionary.go:66 | for IDs without '/', the service and the dictionary can be read back out of the path, so distinct ID pairs give distinct paths |
| FastlyExt.ParsedPathParts | pkg/fastly-ext/dictionary.go:66 | a path that parses is the prefix, the service, the infix, the dictionary and the suffix, and neither ID holds '/' |
| FastlyExt.ParsedPathIsItemsPath | pkg/fastly-ext/dictionary.go:66 | every path that parses is the items path of the IDs it parses to |
| FastlyExt.BatchUpdateDictionaryItems | pkg/fastly-ext/dictionary.go:53-77 | a request is sent exactly when the service and the dictionary are set and there are at most 1000 items (1000 itself is allowed); otherwise the error is missing service, then missing dictionary, then too many items, in that order; the request goes to the items path of the service and the dictionary with the input as its body, and the transport error is returned unchanged |
| DictionaryRows.ByteLen | pkg/dictionary/manager.go:237-242 | Go's `len` on a string counts UTF-8 bytes: between one and four per character |
| DictionaryRows.ValidateItem | pkg/dictionary/manager.go:235-245 | no error exactly when the key is at most 256 bytes and the value at most 8000; the key is checked before the value; keys of 64 characters or fewer always pass, and keys of more than 256 characters always fail |
| DictionaryRows.InsertRowsOk | pkg/dictionary/manager.go:212-230 | rows without an error all go in, each key with its own value |
| DictionaryRows.InsertRowsOkDomain | pkg/dictionary/manager.go:212-230 | rows without an error put nothing else in the map: one entry per row |
| DictionaryRows.InsertRowsFirstError | pkg/dictionary/manager.go:212-230 | the insertion loop stops with the error of the first bad row |
| DictionaryRows.FirstRowErrorExists | pkg/dictionary/manager.go:212-230 | if any row is bad, there is a first bad row |
| DictionaryRows.InsertRowsErrorPersists | pkg/dictionary/manager.go:212-230 | once an error is met, later rows do not change the outcome |
| DictionaryRows.RowsToMap | pkg/dictionary/manager.go:206-233 | more than 1000 rows is refused with too-many-items; otherwise the map is built exactly when no row repeats a key or breaks a limit, holds every row's key with its value and nothing else, and an error names the first bad row in row order |
| DictionaryRows.DuplicateKeyIsReported | pkg/dictionary/manager.go:214-221 | a key repeated at row j, with every earlier row fine, gives the duplicate-key error for that key |
| DictionaryRows.ItemsToMapKeys | pkg/dictionary/manager.go:193-204 | every listed key is in the map and nothing else is |
| DictionaryRows.ItemsToMapLastWins | pkg/dictionary/manager.go:193-204 | for a key listed more than once, the last item's value wins |
| DictionaryDiff.Dedup | pkg/dictionary/manager.go:190 | the keys the diff visits: no repeats, and the same set of keys |
| DictionaryDiff.KeyOrder | pkg/dictionary/manager.go:180-191 | the diff visits every local and every remote key exactly once |
| DictionaryDiff.ApplyChangesAgrees | pkg/dictionary/manager.go:113-148 | applying the changelog over a set of keys makes the map agree with the local one on those keys and leaves every other key alone |
| DictionaryDiff.DiffReachesLocal | pkg/dictionary/manager.go:74-77 | applying the operations to the remote map gives exactly the local map: local-only keys are added, remote-only keys deleted, changed keys updated |
| DictionaryDiff.ChangesAreJustified | pkg/dictionary/manager.go:113-148 | each create carries a local-only key and its local value; each delete a remote-only key; each update a key in both maps with different values, and the local value |
| DictionaryDiff.ChangesCoverDifferences | pkg/dictionary/manager.go:180-191 | exactly one change per differing key, and none for a key whose value is the same in both maps |
| DictionaryDiff.NoChangesWhenEqual | pkg/dictionary/manager.go:180-191 | diffing a map against itself yields no change |
| DictionaryBatch.Batches | pkg/dictionary/manager.go:150-176 | the operations cut into ceil(n/1000) batches of 1..1000 operations, all but the last full, which concatenate back to the operations in order |
| DictionaryBatch.SendCallAt | pkg/dictionary/manager.go:150-176 | request i carries batch i of the operations, with the manager's service and dictionary |
| DictionaryBatch.SendCallCount | pkg/dictionary/manager.go:150-176 | no more requests than batches |
| DictionaryBatch.SendAcceptedBefore | pkg/dictionary/manager.go:150-164 | every request before the last one was accepted |
| DictionaryBatch.SendLast | pkg/dictionary/manager.go:160-176 | no error only after every batch was sent and the last accepted; an error only when the last request was refused, wrapped when that batch was full and bare when it was the final flush |
| DictionaryBatch.SendFollowsBatches | pkg/dictionary/manager.go:150-176 | requests follow the batches in order, each carrying the service and the dictionary; sending stops at the first refused batch, and all earlier batches were accepted; there is no error exactly when every batch was sent and accepted; the error is the refused batch's, wrapped when that batch was full (flushed in the loop) and bare when it was the final flush |
| DictionaryBatch.SendFullBatch | pkg/dictionary/manager.go:150-164 | a full batch is flushed first; a refusal ends the run with the wrapped error, and an acceptance goes on with the rest |
| DictionaryBatch.SendLastBatch | pkg/dictionary/manager.go:167-176 | with nothing left, nothing is sent and there is no error; otherwise the remainder goes out as one batch whose error is returned unwrapped |
| Dictionary.LastRemoteDictionaryWins | pkg/dictionary/manager.go:38-43 | the options are applied in order, so the last WithRemoteDictionary decides the service and the dictionary |
| Dictionary.LastLocalReaderWins | pkg/dictionary/manager.go:50-54 | the last WithLocalReader decides the reader |
| Dictionary.NoLocalReaderOption | pkg/dictionary/manager.go:62-72 | without a WithLocalReader option the manager has no reader |
| Dictionary.StringSliceSliceToMap | pkg/dictionary/manager.go:206-233 | the imperative loop builds exactly RowsToMap's result |
| Dictionary.FastlyDictionaryItemsToMap | pkg/dictionary/manager.go:193-204 | the imperative loop builds exactly ItemsToMap's map |
| Dictionary.Diff | pkg/dictionary/manager.go:180-191 | a local validation error is returned unchanged; otherwise the changelog between the remote and local maps |
| Dictionary.Manager.constructor | pkg/dictionary/manager.go:62-72 | the manager starts with no dictionary and no reader, then applies the options in order |
| Dictionary.Manager.Sync | pkg/dictionary/manager.go:78-178 | one list call, then at most one local read, then the batch calls, with the error, exactly as SyncSpec describes |
| Dictionary.Manager.SendChanges | pkg/dictionary/manager.go:111-176 | the loop that appends operations and flushes full batches, plus the final flush, sends exactly Send's requests and returns Send's error |
| Dictionary.Manager.FlushFullBatches | pkg/dictionary/manager.go:111-164 | the loop alone: either it ends the run with Send's error after Send's requests, or every full batch was accepted and the unsent remainder is shorter than a batch |
| DictionarySync.SendCarriesPrefix | pkg/dictionary/manager.go:150-176 | the batches sent carry a prefix of the operations in order, and all of them when no error came back |
| DictionarySync.SyncStopsEarly | pkg/dictionary/manager.go:81-103 | a 404 on listing gives "dictionary not found", any other listing error is wrapped, and neither reads the local rows nor sends a batch; a read error is wrapped and sends nothing |
| DictionarySync.SyncConverges | pkg/dictionary/manager.go:78-178 | when Sync returns no error, the batches it sent, applied in order to the listed remote dictionary, leave exactly the local rows' map |
| DictionarySync.SyncFailureLeavesPrefix | pkg/dictionary/manager.go:154-176 | a failed sync has sent a prefix of the operations, all but its last batch accepted, and returns that batch's error, wrapped exactly when the batch was full |
| DictionarySync.SyncBatchesAreBounded | pkg/dictionary/manager.go:150-176 | every request names the manager's service and dictionary and holds 1..1000 operations, all but the last full; at most ceil(n/1000) requests, exactly that many when successful and then carrying all operations in order; none for an empty diff |
| DictionarySync.SyncIsIdempotent | pkg/dictionary/manager.go:74-77 | when the remote items already hold exactly the local rows, Sync sends nothing and returns no error |
| DictionarySync.SyncBatchesPassEndpointGuards | pkg/dictionary/manager.go:154-176 | with a service and a dictionary set, each request Sync sends passes the batch endpoint's checks and is sent as a PATCH with itself as the body |
| DictionarySync.SyncRejectsBadRows | pkg/dictionary/manager.go:105-109 | invalid local rows (too many, a repeated key, too long) give the validation error wrapped in the diff context and no batch; more than 1000 rows gives too-many-items |
| Builder.FirstFailure | pkg/builder/builder.go:64-68 | the index of the first mutator that fails: every earlier one succeeded |
| Builder.Transaction | pkg/builder/builder.go:56-85 | exactly one clone call, first, with the builder's service and version; a failed clone is wrapped, and then it is the only step; otherwise the steps after the clone are the runs of mutators 0, 1, ... in order, each on the service ID and the cloned version, followed by the activate call when there is one |
| Builder.MutatorsStopAtFirstError | pkg/builder/builder.go:64-68 | mutator j runs exactly when all earlier ones succeeded; the first failing mutator's error is returned unwrapped, its run is the last step, and no activate call is made |
| Builder.ActivatesOnlyWhenAllSucceed | pkg/builder/builder.go:56-72 | the activate call is made exactly when the clone and every mutator (none at all included) succeeded; it activates the cloned version, and it is the last step, after the clone and the run of every mutator in order; no earlier step is an activate call |
| Builder.SucceedsIffEveryStepSucceeds | pkg/builder/builder.go:81-84 | Apply returns no error exactly when the clone, every mutator and the activation succeed; a failed activation is wrapped |
| Builder.Builder.constructor | pkg/builder/builder.go:30-36 | the builder keeps the client, the service and the version, with no version cloned yet |
| Builder.Builder.Clone | pkg/builder/builder.go:38-52 | clones the configured version and records the call as a step; the new number becomes the latest version; a failure is wrapped and leaves it alone |
| Builder.Builder.Activate | pkg/builder/builder.go:74-85 | activates the latest version and records the call as a step; a failure is wrapped |
| Builder.Builder.Apply | pkg/builder/builder.go:56-72 | the client calls, the ordered trace of calls and mutator runs, the error and the new latest version are exactly Transaction's |
| Eavesdrop.EavesdropBuilder.constructor | pkg/eavesdrop/builder.go:24-30 | the builder keeps the client, the service and the version, with no version cloned yet |
| Eavesdrop.EavesdropBuilder.Clone | pkg/eavesdrop/builder.go:32-46 | clones the configured version, records the call as a step and stores the new number; a failure is wrapped |
| Eavesdrop.EavesdropBuilder.Activate | pkg/eavesdrop/builder.go:69-80 | activates the latest version and records the call as a step; a failure is wrapped |
| Eavesdrop.EavesdropBuilder.Action | pkg/eavesdrop/builder.go:50-67 | takes exactly the steps, returns the error and sets the latest version that the builder package's Transaction gives for the mutators bound to this client, so all Transaction lemmas apply to it; every mutator run is handed this builder's own client and the service ID with the cloned version |
| TokensManager.SuppliedOrInteractive | pkg/tokens/manager.go:109-116 | a non-empty value is used and the gatherer records no prompt; an empty one makes the gatherer record exactly that one prompt, and its answer or error comes back untouched |
| TokensManager.LastWithInputWins | pkg/tokens/manager.go:39-43 | the last WithInput overrides earlier ones and the default |
| TokensManager.LastWithSecretInputWins | pkg/tokens/manager.go:46-50 | the last WithSecretInput overrides earlier ones and the default |
| TokensManager.DefaultInputWithoutOption | pkg/tokens/manager.go:56-60 | without WithInput, the terminal's plain reader stays |
| TokensManager.AsksOnlyForMissingFields | pkg/tokens/manager.go:79-93 | the plain gatherer gets the username prompt once exactly when the username is empty, and nothing otherwise; the secret gatherer gets the password prompt once exactly when the password is empty and the username came through, and nothing otherwise |
| TokensManager.GathererErrorStops | pkg/tokens/manager.go:79-93 | no token is requested exactly when a gatherer that was asked failed; then the zero token comes back with that gatherer's own error, unchanged (the username gatherer's when it failed, else the password gatherer's) |
| TokensManager.CreatesOnceAndCopiesResponse | pkg/tokens/manager.go:95-106 | with both credentials resolved, one create request carries the request's name, scope and services and the credentials; a create error gives the zero token; success copies name, ID, services and access token |
| TokensManager.TokenManager.constructor | pkg/tokens/manager.go:54-66 | the terminal readers are the defaults, then the options are applied in order |
| TokensManager.TokenManager.AddToken | pkg/tokens/manager.go:69-107 | returns what AddTokenRun gives; the prompts the plain and the secret gatherer record, and the requests the creator records, are the run's (username prompt first when one gatherer serves both) |
| Tokens.SuppliedOrInteractive | pkg/tokens/tokens.go:87-107 | a non-empty input is returned and the terminal records no read; otherwise the terminal records exactly one read, with the secret reader when the flag is set and the plain one otherwise, and a read error comes back wrapped |
| Tokens.TwoFAOnlyWhenRequired | pkg/tokens/tokens.go:62-71 | the 2FA token is read only when the request requires it and did not supply it, and then it is read, secretly, right after the username and password are at hand; a required token is sent as supplied or else as read; when not required, the request's own 2FA value is sent |
| Tokens.ReadsMatchMissingFields | pkg/tokens/tokens.go:46-71 | one read per missing field (at most that many on an error path, exactly that many when the token is requested); a supplied username or password is never read; the username is read plainly and first, the password and the 2FA token secretly |
| Tokens.ReadsStopAtFirstFailure | pkg/tokens/tokens.go:46-71 | when no token is requested, the last read made is the first one that failed, every earlier read succeeded, and that read's error comes back wrapped in "error reading value" |
| Tokens.CreatesOnceAndCopiesResponse | pkg/tokens/tokens.go:73-84 | at most one create request; any error gives the zero token; no error exactly when the create succeeded, and a create error comes back unchanged; the request carries the request's name, scope and services and the resolved credentials; success copies four fields |
| Tokens.AddToken | pkg/tokens/tokens.go:36-85 | returns what AddTokenRun gives; the reads the terminal records and the create requests the API records are the run's |
| ServiceSelector.FirstNamed | pkg/terminal/widget_serviceSelector.go:50-58 | the position of the first service with the name: no earlier service has it |
| ServiceSelector.Keys | pkg/terminal/widget_serviceSelector.go:40-48 | one name per service, in list order |
| ServiceSelector.ByKey | pkg/terminal/widget_serviceSelector.go:50-58 | finds a service exactly when some service has the name, and then it is the first such service; none otherwise |
| ServiceSelector.LookupOfListedName | pkg/terminal/widget_serviceSelector.go:40-58 | looking up the i-th listed name finds a service with that name at position i or earlier |
| TokenScopes.StringToTokenScope | cmd/fastly-cli/cmd_tokens.go:110-123 | the scope is returned as given on both paths; only global:read is accepted, and anything else gives the invalid-scope error |
| TokenScopes.DefaultScopeIsRefused | cmd/fastly-cli/cmd_tokens.go:69 | the command's default scope "global", and every known scope except global:read, is refused |
| TokenScopes.StringToTokenScopeIntended | cmd/fastly-cli/cmd_tokens.go:110-123 | corrected: each of the four known scopes is accepted and anything else refused |
| TokenScopes.IntendedAcceptsDefault | cmd/fastly-cli/cmd_tokens.go:69 | the corrected check accepts the default scope and accepts everything the written one accepts |

## Left out

- The diff library's own output order is not modelled. Keys are visited in one fixed order: local row keys, then remote item keys, each once. Every proved property about the resulting state and counts holds for any order. The library's error return cannot happen for two string maps and is not modelled.
- HTTP, JSON and the PATCH call are left out. The PATCH call is an oracle, so the endpoint's "nil whatever the body says" is the oracle's answer. pkg/fastly-ext/tokens.go is not part of this model.
- The TCP listener, goroutines and syslog calls of pkg/eavesdrop/eavesdrop.go are left out. So are the terminal's stdin and password reads, the promptui selector widget, and the rest of the command wiring under cmd/fastly-cli/.
- Error message text is left out. Errors are tagged variants, and `errors.Wrap` keeps its context string.
- Local rows with fewer than two fields make the source panic. `WellFormed` (at least two fields per row) is required instead.
- Dictionary.Manager.Sync: requires a local reader (`local != null`) and well-formed rows from it. In the source, a missing reader matters only once the listing has succeeded (pkg/dictionary/manager.go:81-99): a failed listing returns its error before the reader is touched, a case the model does not cover without a reader; after a successful listing a missing reader is a nil dereference, and a short row is an index panic.
- DictionaryRows.ByteLen: counts a string as the UTF-8 encoding of its characters. Go strings holding bytes that are not valid UTF-8 are not modelled.
- The token scope constants and the 404 status have their values from the Fastly Go client and net/http. Those libraries are not part of this model.
- In pkg/tokens/manager.go, a TokenRequest's TwoFAToken is never passed to the create request. The model's CreateTokenInput for that version has no such field.
- The tokens.go `Manager()` constructor builds an empty value and is left out. Its AddToken is a module-level method.
- The terminal default gatherers of pkg/tokens/manager.go are passed to the TokenManager constructor as parameters. The terminal package is not part of this model: gatherers, the terminal and the token creation calls are recording stubs.
- Builder.Builder.Apply and Eavesdrop.EavesdropBuilder.Action record each mutator run, with its arguments, in a ghost trace. What a mutator does to the service is the mutator's business and is not modelled.
- Go's `int` version numbers are unbounded integers here. No arithmetic is done on them.

## Findings

| source | as written | input that shows it | evidently intended | confidence | as-written member | corrected member |
|---|---|---|---|---|---|---|
| cmd/fastly-cli/cmd_tokens.go:114-122 | the cases for global, purge_select and purge_all have empty bodies; a Go switch does not fall through, so they reach the invalid-scope error, and only global:read is accepted | "global", which is the default of the token-scope flag (cmd/fastly-cli/cmd_tokens.go:69) | all four known scopes are accepted | high; not executed | TokenScopes.StringToTokenScope, TokenScopes.DefaultScopeIsRefused | TokenScopes.StringToTokenScopeIntended, TokenScopes.IntendedAcceptsDefault |
