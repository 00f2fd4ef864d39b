# git-secret-update, modelled in Dafny

git-secret-update pushes key/value pairs to a GitHub repository. Each pair
becomes either an Actions *secret* or an Actions *variable*. A secret must
first be sealed with the repository's public key, using NaCl's anonymous
sealed box. The client fetches that key lazily and keeps it in the `repoPk`
field of its `UpdateGithubEnv` session. Variables have separate create and
update endpoints, so the client first lists the variables to decide which one
to call. `GithubStateUpdate.Execute` pushes a batch of entries in order and
stops at the first error.

This project models that decision protocol and proves what it guarantees
about the API calls made and about `repoPk`.

- `remote.dfy` (`Remote`) is the REST API as a collaborator. `ActionsService`
  appends every request to a call log. The reply to each request comes from a
  `Server` value: functions from the calls made so far (and, for writes, the
  request) to success or an error. A property proved for every `Server` holds
  however the real service answers.
- `action_spec.dfy` (`ActionSpec`) states each operation of `action.go` as a
  function on a `Session`: the repository, `repoPk`, and the call log.
  Base64 and `box.SealAnonymous` are function values in a `Crypto` record and
  are left uninterpreted. The Go `copy` into the 32-byte box key is modelled
  exactly.
- `action.dfy` (`Action`) is the class `UpdateGithubEnv`. It has the
  `repoPk` field, and each of its methods is proved to leave the session
  exactly as the matching `ActionSpec` function says.
- `state_update_spec.dfy` (`StateUpdateSpec`) models `main.go`'s batch entry
  (`State`), value resolution, one loop iteration (`ApplyEntry`) and the whole
  run (`Run`). It proves the lemmas about ordering and fail-fast behaviour.
- `state_update.dfy` (`StateUpdate`) is the class `GithubStateUpdate`. Its
  `Execute` loop is proved equal to `Run`.
- `key_cache.dfy` (`KeyCache`) and `guarantees.dfy` (`Guarantees`) state and
  prove the cache invariant. The log holds at most one successful key
  request, and `repoPk` is exactly the key it returned. Every secret upload
  comes after that request and carries that key's ID. Once a key is
  cached, no further key request is made. A run from a new session makes at
  most one key request, failed or not. Each entry's calls stay on one path:
  secret or variable.
- `repo_id.dfy` (`RepoId`) models the `OWNER/REPO` split rule.
- `scenario.dfy` (`Scenario`) works through a two-entry batch, one secret and
  one variable, call by call.

Three behaviours of the code are easy to miss:

- The decoded key is copied into the 32-byte buffer with Go `copy` semantics.
  A short key is zero-padded and a long one is truncated; no length error is
  raised. `CopyKeyIgnoresExcess` and `CopyKeyPadsWithZeros` show that
  different key material can produce the same box key.
- An entry with neither a value nor a file gets the empty string, not an
  error.
- A failed key request leaves `repoPk` nil, but within `Execute` it also ends
  the run: `EncryptUsingRepoPk` returns the error (action.go:59-61),
  `UpdateSecret` returns it (action.go:33-36) and `Execute` returns it
  (main.go:56-57). A run from a new session therefore makes at most one key
  request in total. The weaker bound "at most one *successful* key request"
  matters only when the session's methods are called directly, outside
  `Execute`: calling `UpdateSecret` again after a failed request requests
  the key again.

## Model

| member | source | states |
|---|---|---|
| `Remote.ActionsService.constructor` | action.go:23 | A new API client has an empty call log and the given server. |
| `Remote.ActionsService.GetRepoPublicKey` | action.go:48 | Logs one key request for the given repository and returns the server's reply to it. |
| `Remote.ActionsService.CreateOrUpdateRepoSecret` | action.go:42 | Logs one secret upload with the given body and returns the server's reply. |
| `Remote.ActionsService.ListRepoVariables` | action.go:109 | Logs one listing request and returns the server's reply (the listed variables or an error). |
| `Remote.ActionsService.CreateRepoVariable` | action.go:93-96 | Logs one create-variable request with the given name and value and returns the server's reply. |
| `Remote.ActionsService.UpdateRepoVariable` | action.go:87-90 | Logs one update-variable request with the given name and value and returns the server's reply. |
| `ActionSpec.CopyKey` | action.go:69-70 | Box key byte i is decoded byte i for i < min(32, len), and 0 for every other i below 32. The copy is total, whatever the decoded length. |
| `ActionSpec.CopyKeyIgnoresExcess` | action.go:69-70 | Bytes after the 32nd never reach the box key (silent truncation). |
| `ActionSpec.CopyKeyPadsWithZeros` | action.go:69-70 | A short key and the same key followed by zero bytes give the same box key (silent padding). |
| `ActionSpec.GetRepoPk` | action.go:46-53 | Exactly one key request. On success `repoPk` becomes the returned key. On error `repoPk` is unchanged and the request's error is returned. |
| `ActionSpec.Seal` | action.go:64-77 | A decode failure returns the wrapped decode error, and no sealing result is used. Otherwise the result is the encoded sealed box under the copied 32-byte key, or the wrapped sealing error. |
| `ActionSpec.EncryptUsingRepoPk` | action.go:55-78 | With a cached key, no call is made and the session is unchanged. Without one, exactly one key request is made, and a failure returns that request's error. With a key, the result is `Seal` of the value, and "" on any error. |
| `ActionSpec.UpdateSecret` | action.go:31-44 | `repoPk` is what encryption left. If encryption fails, its error is returned and nothing is uploaded. Otherwise exactly one call is added to the log: an upload for the session's repository with Name = key, KeyID = the cached key's ID and the sealed value, and that upload's reply is returned. |
| `ActionSpec.ContainsName` | action.go:114-116 | True exactly when some listed variable's name equals the key. |
| `ActionSpec.HasVariable` | action.go:106-119 | Exactly one listing request. On error the result is false together with the error. Otherwise it is whether some listed variable is named `key`. |
| `ActionSpec.UpdateVariable` | action.go:80-98 | If the existence check fails, no create or update is made and its error is returned. If the variable exists, exactly one update(key, value) is made; if not, exactly one create(key, value). `repoPk` is never touched. |
| `Action.UpdateGithubEnv.constructor` | action.go:22-29 | A new session has no cached key and targets the given owner and repository. |
| `Action.UpdateGithubEnv.GetRepoPk` | action.go:46-53 | The new `repoPk`, the log and the error are those of `ActionSpec.GetRepoPk`. |
| `Action.UpdateGithubEnv.EncryptUsingRepoPk` | action.go:55-78 | The new `repoPk`, the log, the ciphertext and the error are those of `ActionSpec.EncryptUsingRepoPk`. |
| `Action.UpdateGithubEnv.UpdateSecret` | action.go:31-44 | The new `repoPk`, the log and the error are those of `ActionSpec.UpdateSecret`. |
| `Action.UpdateGithubEnv.HasVariable` | action.go:106-119 | The log, the answer and the error are those of `ActionSpec.HasVariable`. |
| `Action.UpdateGithubEnv.UpdateVariable` | action.go:80-98 | The log and the error are those of `ActionSpec.UpdateVariable`. |
| `StateUpdateSpec.ResolveValue` | main.go:43-52 | An inline value wins even if a file is also set. Otherwise the file is read, and its read error is the result. With neither, the value is the empty string. |
| `StateUpdateSpec.ApplyEntry` | main.go:43-64 | A file-read error is returned with the session untouched, so no remote call is made. Otherwise the entry goes to UpdateSecret if `secret` is set and to UpdateVariable if not. The log only grows. |
| `StateUpdateSpec.Run` | main.go:41-67 | A run only extends the session: same repository, and the earlier log is a prefix of the new one. |
| `StateUpdateSpec.RunAppend` | main.go:41-65 | Running a + b means running a, then running b from where a stopped only if a returned no error. |
| `StateUpdateSpec.RunSingle` | main.go:42-65 | Running one entry is exactly that entry's dispatch. |
| `StateUpdateSpec.RunStep` | main.go:42-65 | After a successful prefix, one more entry adds exactly that entry's dispatch from the state the prefix left. |
| `StateUpdateSpec.RunStopsAtFirstFailure` | main.go:41-65 | If entry i is the first to fail, the run returns entry i's outcome: all earlier entries fully dispatched, entry i's error returned, and no call from any later entry. |
| `StateUpdateSpec.RunPassesIffEveryEntryPasses` | main.go:41-66 | The run returns nil exactly when every entry, dispatched from the state the earlier ones left, succeeded. |
| `StateUpdate.GithubStateUpdate.constructor` | main.go:33-39 | The batch holds the given session, entries and file reader. |
| `StateUpdate.GithubStateUpdate.Execute` | main.go:41-67 | The final `repoPk`, the log and the returned error are exactly those of `StateUpdateSpec.Run` over the entries, from the session's initial state. |
| `KeyCache.FreshSessionCoherent` | action.go:22-29 | A new session, with nothing cached and nothing called, satisfies the cache invariant. |
| `KeyCache.GetRepoPkKeepsCoherent` | action.go:46-53 | A key request made while nothing is cached keeps the invariant: at most one successful request, and `repoPk` is its key. |
| `KeyCache.EncryptKeepsCoherent` | action.go:55-62 | Encryption keeps the cache invariant, because the key is requested only when `repoPk` is nil. |
| `KeyCache.UpdateSecretKeepsCoherent` | action.go:31-44 | A secret upload keeps the invariant: it follows a successful key request and carries that key's ID. |
| `KeyCache.UpdateVariableKeepsCoherent` | action.go:80-98 | The variable path keeps the cache invariant. |
| `KeyCache.CachedUpdateSecretNeverFetches` | action.go:58-62 | With a key cached, the secret path makes no key request and keeps the cached key. |
| `KeyCache.UpdateVariableNeverFetches` | action.go:80-98 | The variable path makes no key request and leaves `repoPk` as it was. |
| `Guarantees.ApplyEntryKeepsCoherent` | main.go:43-64 | Every entry, on either path, keeps the cache invariant. |
| `Guarantees.RunKeepsCoherent` | main.go:41-67 | A whole run keeps the cache invariant. |
| `Guarantees.SecretsOnlyUnderTheFetchedKey` | action.go:31-62 | After any run from a new session, at most one key request was made at all, and at most one succeeded. `repoPk` is the successful request's key (nil if none succeeded). No secret was uploaded before that request or under another key ID. |
| `Guarantees.ApplyEntryRequestsKeyAtMostOnce` | main.go:43-64 | From a session with no cached key and no key request so far, one entry makes at most one key request. If the entry succeeds without caching a key, it made none. |
| `Guarantees.RunRequestsKeyAtMostOnce` | main.go:41-67 | From a session with no cached key and no key request so far, a whole run makes at most one key request, failed or not. A failed request ends the run (action.go:59-61, action.go:33-36, main.go:56-57), and a successful one is cached for the rest of it. |
| `Guarantees.ApplyEntryCachedNeverFetches` | action.go:58-62 | With a key cached, one entry makes no key request and keeps the key. |
| `Guarantees.CachedRunNeverFetches` | action.go:58-62 | Once a key is cached, the rest of the run makes no key request and keeps the same key. |
| `Guarantees.EntryTakesOnePath` | main.go:46-64 | A secret entry makes only key requests and uploads. A variable entry makes only list, create and update calls. A file-read error makes no call. |
| `RepoId.Split` | main.go:113 | `strings.Split` on one separator gives one more piece than there are separators. No piece contains the separator, and joining the pieces gives back the input. |
| `RepoId.ParseRepoId` | main.go:113-120 | The identifier is accepted exactly when it holds one "/". The owner is the text before it and the repo the text after it. Otherwise the error is "provide OWNER/REPO". |
| `RepoId.ParseRepoIdRoundTrip` | main.go:113-120 | Any owner and repository without "/" come back unchanged from `owner + "/" + repo`. |
| `Scenario.SecretThenVariable` | main.go:41-67 | For a secret API_TOKEN and a variable REGION, with key "kid1" and no listed variables, the calls are: one key request, one upload of API_TOKEN under "kid1", one listing, one create of REGION with its value. No error is returned. |

## Left out

- The real HTTP client, the access token and `context` (action.go:22-29 and the `client.Actions.*` calls). They are represented only by the call log and the `Server` reply functions.
- `base64` decoding and encoding and `box.SealAnonymous` with `crypto/rand` (action.go:64, 71, 76). These are uninterpreted function values. Fresh randomness per seal and the decrypt round trip are not modelled.
- `GetVariable` (action.go:100-104): nothing in the program uses it.
- Flag parsing, environment fallbacks, `promptOnEmpty`, reading the state file or stdin, `json.Unmarshal` of the batch, `log.Fatal` and `main` (main.go:75-155): all I/O. Only the `OWNER/REPO` split inside `parse` is modelled, and not the assignment of its results to the process-wide variables. The `State` fields are unexported, so `json.Unmarshal` could not fill them anyway; the model starts from an already decoded batch.
- The progress messages printed by `Execute` (main.go:55, 60).
- Pagination of the variable listing: as in the code, only the reply to one listing request is searched.
- A key reply that is nil with a nil error, and the nil-safe getters of `github.PublicKey`, are not modelled: a successful key request always carries a key ID and key material.
- Go strings versus bytes: keys, key IDs and ciphertext are Dafny strings; values and file paths are byte sequences. The conversions between them in the code do not change the data.
- `KeyCache.GetRepoPkKeepsCoherent`: stated only for a call made while no key is cached, which is the only way the program reaches it. Calling the exported `GetRepoPk` directly a second time would make a second successful request.
- `Guarantees.RunRequestsKeyAtMostOnce`: stated for a session with no cached key and no key request in its log, as `Execute` sees it after construction. A session whose methods were already called directly, after a failed key request, may request the key once more during a run.
