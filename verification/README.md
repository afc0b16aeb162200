# zvan-project backend and guest, modelled in Dafny

This project models two parts of the zvan-project.

The first is the backend's submission protocol. `POST /submit` takes five body fields: `address`, `signature`, `message`, `patientData` and `nonce`. The handler runs these steps in order:

1. It checks that every field is present, using JavaScript truthiness.
2. It recovers the signer from `(message, signature)` and compares it with `address`, ignoring case.
3. It derives the host token `HMAC(secret, address + "|" + nonce)`. Interpolating the nonce throws for an object with its own `toString` key, which the `catch` answers with 500.
4. It stages the patient data in a temporary file and creates the receipts directory.
5. It spawns the proof engine with three arguments: input path, token and output path.
6. After the engine has run, it removes the temporary file.
7. Only when the engine exits with code 0, it upserts a row of the `mappings` table under the token.

`GET /receipt/:host_token` looks the token up and serves the receipt path stored in its row.

The second part is the guest program's summary step. It turns a patient record `{diagnosis, treatment}` and a host token into `{anonymized_summary, host_token}`, whose bincode encoding it writes to its standard output. It commits nothing to the proof's journal, although the host decodes the journal (zvan-host/src/main.rs:53). As given, zvan-guest/src/main.rs does not compile: line 44 calls `write_all`, which needs `std::io::Write`, and line 2 imports only `Read`.

Files:

- `wrappers.dfy` (module `Wrappers`): `Option` and `Result`.
- `jsvalues.dfy` (module `JsValues`): parsed JSON values, JavaScript truthiness (`Present`), and ToString as a template literal applies it (`TemplateText`, with decimal digits).
- `server.dfy` (module `Server`): the configuration, the request and response shapes, and the server-chosen paths. It also holds the host token and `HandleSubmit`, which is the `/submit` handler as a function over an abstract `World`. The `World` holds the mappings table, the files, the directories and the log of spawn calls. The module also holds `Retrieve` for `/receipt`, the invariant `Consistent` and runs of many submissions. Finally it holds the class `Backend`: its `Submit` method updates the store, files, directories and launch log in place, step by step, and is proved to agree with `HandleSubmit`.
- `guest.dfy` (module `Guest`): the guest's structs, `Summarize`, `Anonymize` and `GuestMain`.

The library primitives are fields of `Config` and are left uninterpreted:

- HMAC-SHA256;
- `verifyMessage`, which gives a signer address or the message of the exception it throws;
- `toLowerCase`.

The clock readings, the file-system failures (`writeFileSync` or `mkdirSync` throwing, and an `unlinkSync` of the staged input throwing, which the handler swallows) and the engine's fate are fields of a per-request `Env`. The engine's fate is one of these:

- the `close` event with an exit code, or `null` when the engine is killed by a signal;
- the `error` event;
- `spawn` throwing synchronously.

Three behaviours of the code are easy to misread; the model keeps each as written:

- **Cleanup is not guaranteed.** The staged input is deleted only in the `close` and `error` handlers. If `mkdirSync` or `spawn` throws, the `catch` block answers 500 and the file stays on disk. If the delete itself throws, the empty `catch` swallows it: the file stays and the answer is unchanged (`StagingFailures`, `StagedInputCleanup`, `UnlinkFailureIsSwallowed`).
- **The token keeps the address's case.** Case is folded only for the signature comparison; the token is computed from the address as supplied (`TokenKeepsAddressCase`).
- **A malformed signature is a 500.** A signature that `verifyMessage` cannot parse throws, and the handler answers 500 with the exception's message, not 400.

## Model

| member | source | states |
|---|---|---|
| `JsValues.PresentMeansTruthy` | backend/server.js:34 | A field counts as present only when it was sent and is truthy: a missing field, `""`, `0`, `null` and `false` are all missing, while any array or object is present. |
| `JsValues.TemplateText` | backend/server.js:28 | A string nonce interpolates as itself. An object throws exactly when it has an own `toString` key, and an array throws exactly when one of its elements does; the error is `Cannot convert object to primitive value`. |
| `JsValues.OwnToStringThrows` | backend/server.js:28 | `{"toString":1}` and a `toString` object nested in an array throw; an object with only `valueOf` gives `[object Object]`. |
| `JsValues.NatText` | backend/server.js:48-52 | The decimal text of a `Date.now()` reading is a non-empty run of digits, and it starts with `0` only for zero. |
| `Server.ConfiguredSecret` | backend/server.js:11 | The HMAC key is never empty. It is `SERVER_SECRET` when that variable is set and non-empty, and `CHANGE_THIS_SECRET` otherwise. |
| `Server.MakeHostToken` | backend/server.js:26-29 | The token derivation fails exactly when the nonce's interpolation throws, and then with that error. |
| `Server.StagingIsNotReceipt` | backend/server.js:48-52 | The staged-input path and the receipt path can never coincide, whatever the two clock readings. |
| `Server.ReceiptPathShape` | backend/server.js:52 | A receipt path is `<cwd>/receipts/receipt_`, then digits, then `.bin`. No request text appears in it. |
| `Server.TokenIsDeterministic` | backend/server.js:26-29 | Equal addresses and equal nonce texts give equal host tokens. |
| `Server.NonceTypeIsForgotten` | backend/server.js:28 | The nonce enters the token through its string form: the string `"1"` and the number `1` give the same token. |
| `Server.OwnToStringNonceHasNoToken` | backend/server.js:28 | A nonce object with its own `toString` key yields no token, only the thrown error. |
| `Server.TokenKeepsAddressCase` | backend/server.js:40-45 | The token message is built from the address as supplied: `0xABC` and `0xabc` give different HMAC messages. |
| `Server.TokenMessageInjective` | backend/server.js:28 | For addresses without `\|`, equal HMAC messages mean equal addresses and equal nonce texts. |
| `Server.TokenMessageAmbiguousWithBar` | backend/server.js:28 | An address containing `\|` can share its HMAC message with a different (address, nonce) pair. |
| `Server.HandleSubmit` | backend/server.js:31-81 | Validation fails first: 400 `missing fields`, nothing changed. A throwing `verifyMessage` gives 500 with its message, nothing changed. A signer that differs from the address, ignoring case, gives 400 `invalid signature`, nothing changed. A nonce whose interpolation throws gives 500 `Cannot convert object to primitive value`, nothing changed. No part of the world changes unless the request was authenticated and its token derived. The store becomes `store[token := row]` exactly when the engine exits with 0, and is unchanged otherwise. Exactly one engine launch `[tmp, token, receipt]` is logged iff the handler reaches `spawn`. The status is 200 iff the engine succeeded, and then the body is `{ok, host_token, receipt_path}`. No file other than the staged input and the receipt changes, and the only directory that may appear is the receipts directory. |
| `Server.NonStringAddressIsInternalError` | backend/server.js:40 | A truthy address that is not a string makes `address.toLowerCase()` throw. The result is 500 and nothing changes. |
| `Server.StagingFailures` | backend/server.js:48-53 | A throwing `writeFileSync` gives 500 and changes nothing. A throwing `mkdirSync` gives 500 and leaves the staged patient file on disk. |
| `Server.StagedInputCleanup` | backend/server.js:56-76 | Once the engine closed or failed to start, the staged file is gone, unless its `unlinkSync` threw. A synchronous `spawn` throw or a failed delete leaves it in place with the patient data. The receipts directory exists in every case. |
| `Server.UnlinkFailureIsSwallowed` | backend/server.js:56-76 | A throwing `unlinkSync` changes neither the response, the store, the launches, the directories nor any file other than the staged input. Before the engine has run it changes nothing at all. |
| `Server.EngineFailureResponses` | backend/server.js:58-76 | A non-zero or null exit code gives 500 `{error:'zvan-host failed', code}`. A launch error or a `spawn` throw gives 500 with its message. Without success the store is unchanged. |
| `Server.EngineOutputIsKept` | backend/server.js:52-64 | A receipt file the engine wrote stays on disk, whatever the exit code. |
| `Server.UpsertIsolatesOtherTokens` | backend/server.js:66-68 | Every token other than the request's own keeps its row, or its absence. |
| `Server.Retrieve` | backend/server.js:83-88 | An unknown token gives 404 `not found`. A known token gives 200 and the file at exactly the stored `receipt_path`. |
| `Server.SubmitKeepsConsistent` | backend/server.js:45-68 | Every submission, whatever its outcome, keeps the invariant. Each row sits under the token of its own address and nonce. Its receipt path is server-named and was handed to the engine as the output for that token. |
| `Server.RetrievalServesIssuedPaths` | backend/server.js:52-87 | In a consistent world, `/receipt` only serves a server-named receipt path that was launched for the requested token. |
| `Server.RunKeepsConsistent` | backend/server.js:31-88 | The invariant holds after any sequence of submissions. |
| `Server.RunNeverForgets` | backend/server.js:67-68 | No sequence of submissions removes a row: `INSERT OR REPLACE` only adds or replaces. |
| `Server.FailureChangesNoReceipt` | backend/server.js:58-76 | A submission that did not succeed changes the `/receipt` answer for no token, its own included. |
| `Server.ResubmissionReplaces` | backend/server.js:67-68 | Two successful submissions of the same address and nonce leave one row under the token, and that row is the later record. |
| `Server.Backend.constructor` | backend/server.js:11-21 | The HMAC key is `ConfiguredSecret` of the `SERVER_SECRET` variable, so it is never empty. A fresh `mappings` table is empty and satisfies the invariant. |
| `Server.Backend.Submit` | backend/server.js:31-81 | The in-place handler leaves the store, files, directories and launch log, and returns the response, exactly as `HandleSubmit` describes, and keeps the invariant. |
| `Server.Backend.GetReceipt` | backend/server.js:83-88 | A read-only lookup that answers as `Retrieve`. Any file it serves is a server-named receipt path launched for that token. |
| `Guest.Summarize` | zvan-guest/src/main.rs:31-35 | The summary's length is the two fields' lengths plus the 25 label characters. |
| `Guest.SummaryLayout` | zvan-guest/src/main.rs:31-35 | The summary is `Diagnosis: `, the diagnosis verbatim, ` \| Treatment: `, then the treatment verbatim, at fixed offsets. |
| `Guest.SummaryDeterminesRecord` | zvan-guest/src/main.rs:31-35 | Two records with equal summaries and equal diagnosis lengths are equal. |
| `Guest.SummaryConflatesRecords` | zvan-guest/src/main.rs:31-35 | A label inside a field lets two different records produce one summary. |
| `Guest.Anonymize` | zvan-guest/src/main.rs:37-40 | The output's `host_token` is the input's, unchanged. The summary starts with `Diagnosis: ` and has the length above. |
| `Guest.GuestMain` | zvan-guest/src/main.rs:22-45 | Input that fails to decode gives no output (the guest panics). Otherwise the value written to standard output is `Anonymize` of the decoded input, so it carries the decoded token. |

## Left out

- HTTP plumbing is not modelled: Express setup, the 2 MB body limit, `app.listen` and the `res.sendFile` streaming. A response is a value, and "serve the file at p" is `File(p)`. Errors from `sendFile`, such as a missing receipt file, are not modelled.
- SQLite is a `map` from token to row. Its atomicity, its durability and reopening an existing database are left to the engine. The model starts from an empty table.
- Server.HandleSubmit and Server.Backend.Submit: assume the store write succeeds, so it writes the row for every nonce that interpolates. better-sqlite3 spreads an array argument into anonymous parameters: a one-element array of a string, a number or `null` binds its element and the row is written. A boolean nonce, an object nonce (one without its own `toString` key, which gets this far), an empty array, an array of several elements or a one-element array of a boolean, an object or an array makes `stmt.run` throw inside the `close` callback. That is outside the handler's `try`, so the process dies with no response. The model answers 200 instead.
- HMAC-SHA256 (RFC 2104 over SHA-256), `verifyMessage` (EIP-191 personal-message recovery) and `toLowerCase` are uninterpreted functions.
- JSON numbers are integers. Fractions, exponents and precision loss beyond 2^53 are not modelled.
- The temporary file holds the parsed value, not its `JSON.stringify` text. A failed `writeFileSync` is taken to leave no file.
- `path.resolve` is taken as plain concatenation with the working directory. This assumes an absolute, normalised directory that is not `/`.
- `ZVAN_HOST_CLI`, `DB_PATH` and `PORT` are not modelled. The engine path is the configured string.
- Concurrency is not modelled: concurrent requests, unbounded engine processes, and collisions between `Date.now()` file names. The three clock readings are inputs.
- Server.HandleSubmit and Server.Backend.Submit: collapse the engine's callbacks into one outcome and so misses a crash. With `stdio: 'inherit'`, Node reports every launch failure through the child's exit path: it emits `error` and then `close` with the negative errno. The `error` handler answers 500. Then the `close` handler's second `res.status(500).json` throws `ERR_HTTP_HEADERS_SENT` outside the `try`, and the process dies. So `LaunchFailed`, which the model treats as one answer after which the server keeps serving, in fact ends the server. `Server.Run` goes on past such a request, where the real server stops.
- zvan-host/src/main.rs is not part of this model. It is a wrapper over the prover and file I/O, and its structs do not match the guest's, so the host–guest link is not modelled either.
- backend/sign_proof.js is not part of this model. It is a straight-line chain of file reads, JSON, keccak256 and signing calls, whose only branch stops when no key is set.
- The guest's stdin read, its bincode encode and decode, and its stdout write are library I/O. Decoding is a parameter of `GuestMain`, and the output is the `GuestOutput` value whose encoding is written.
