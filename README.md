# crocmobile send front end, modelled in Dafny

This project models the mobile adapter of croc, the encrypted peer-to-peer
file transfer tool, as found in `src/crocmobile/crocmobile.go`. It covers
the part of `Send` that runs on the caller's thread and the event bridge
around the asynchronous transfer:

- `NewOptions` and its default values;
- the validation of the path, then the replacement of missing options by
  the defaults, then the validation of the shared secret;
- the field-by-field copy of `Options` into the engine's option record.
  `RelayPorts` is split on commas there, with Go's `strings.Split` meaning;
- the relay-address precedence rule, which leaves at most one relay address
  family configured;
- file enumeration before client construction, with their errors returned
  before any request exists;
- `newTransferRequest` with its bounded random ID and its kind;
- `TransferRequest.Cancel`;
- the handler bridge, which injects the request ID into the engine's
  `started` and `progress` callbacks;
- the completion sequence: one `TransferComplete` carrying the engine's
  error, and after it the cancel function.

Files:

- `strings.dfy` (module `Strings`): `Split`/`Join` on a one-character
  separator, with the round trip in both directions, the part count and
  separator-freedom of the parts.
- `errors.dfy` (module `Errors`): `Option`, `Result` and the adapter's
  errors. The two validation errors carry the source's messages. Engine
  errors are opaque.
- `config.dfy` (module `Config`): `Options` and the engine's option record,
  `NewOptions`, `Translate` with its inverse `Untranslate`, and
  `RelayPrecedence`.
- `bridge.dfy` (module `Bridge`): engine callbacks, the events the caller
  observes, the bridge as a map over traces (`Forwarded`), and the event
  sequence a whole transfer produces (`TransferEvents`).
- `crocmobile.dfy` (module `Crocmobile`): the engine as abstract results,
  `Prepare` (the synchronous part of `Send` as a value), and the classes
  `EventLog`, `Context`, `TransferRequest`, `Client` and `Transfer`. Also
  the methods `NewTransferRequest`, `BuildEngineOptions`, `Send` and
  `SendDefaulted`, the part of `Send` after the options are defaulted.

How things are represented:

- The foreign calls `croc.GetFilesInfo` and `croc.New` are fields of the
  `Engine` datatype, as total functions of what `Send` passes them. So do
  `utils.GetRandomName`'s answer and the constants `models.DEFAULT_RELAY`
  and `models.DEFAULT_RELAY6`. Their values are unknown: nothing assumes
  they equal the host names `NewOptions` writes.
- The random request ID is a nondeterministic choice in `[0, 10000)`.
- The goroutine is a `Transfer` object that `Send` returns. Running it is a
  later, sequential step: `Transfer.Run`. Its loop stands for the engine's
  send, which makes the callbacks in the given trace and then returns the
  given result.
- Handler calls and invocations of a request's cancel function are recorded
  in one `EventLog`. That makes "complete, then cancel" an observable order.
  The cancel invocation is labelled with its request's ID.
- `Context` stands for the `context.WithCancel` pair. `cancelCalls` counts
  how often the cancel function ran. The client holds the same `Context`
  object as the request, so a `Cancel` on the request is what the engine
  observes.

Two modelling choices follow the code closely:

- An enumeration or construction failure is returned as the engine's own
  error value. The adapter has no error kind of its own for them.
- The cancel function may run more than once. The completion sequence runs
  it, and so does every `TransferRequest.Cancel`. The model counts every
  run and promises nothing about a second one.

## Model

| member | source | states |
|---|---|---|
| `Strings.Split` | src/crocmobile/crocmobile.go:124 | splitting on the port separator always yields at least one part |
| `Strings.JoinSplit` | src/crocmobile/crocmobile.go:124 | joining the parts of a split with the separator gives back the original string |
| `Strings.SplitCount` | src/crocmobile/crocmobile.go:124 | a split has exactly one more part than the string has separators, so empty segments are kept |
| `Strings.SplitSeparatorFree` | src/crocmobile/crocmobile.go:124 | no part of a split contains the separator |
| `Strings.SplitJoin` | src/crocmobile/crocmobile.go:124 | splitting a join of a non-empty list of separator-free parts gives back the list: splitting is a bijection |
| `Config.NewOptionsDefaults` | src/crocmobile/crocmobile.go:73-98 | the defaults: sender role, secret from the random-name utility, the two default relay hosts, ports "9009,9010,9011,9012,9013", password "pass123", curve "p256", hash "xxhash", no upload throttle, every toggle (DebugWrapper included) off |
| `Config.DefaultRelayPorts` | src/crocmobile/crocmobile.go:85 | the default port string reaches the engine as the five ports 9009 to 9013, in order |
| `Config.Translate` | src/crocmobile/crocmobile.go:113-135 | the engine's port list joins back to the caller's string, and no entry contains a comma |
| `Config.TranslatePortCount` | src/crocmobile/crocmobile.go:124 | the engine's port list has one entry per comma in the caller's string, plus one |
| `Config.TranslateRoundTrip` | src/crocmobile/crocmobile.go:113-135 | the copy loses only DebugWrapper and IP: every other option can be read back unchanged from the engine record |
| `Config.TranslateOnto` | src/crocmobile/crocmobile.go:113-135 | every engine record with a non-empty, comma-free port list is the copy of some option record |
| `Config.RelayPrecedence` | src/crocmobile/crocmobile.go:137-141 | an overridden primary relay is kept and clears the secondary one; otherwise an overridden secondary relay is kept and clears the primary one; with both at their defaults nothing changes |
| `Config.RelayPrecedenceGuarantees` | src/crocmobile/crocmobile.go:137-141 | afterwards at most one relay address family is configured; addresses are only kept or cleared; a primary override always survives; no other field changes |
| `Config.RelayPrecedenceNotIdempotent` | src/crocmobile/crocmobile.go:137-141 | a second application can clear the remaining secondary address, so the rule is correct only because it runs once |
| `Bridge.Forwarded` | src/crocmobile/crocmobile.go:159-168 | with handlers, one handler call per engine callback, each carrying the request ID and the callback's values unchanged; without handlers, none |
| `Bridge.ForwardedRoundTrip` | src/crocmobile/crocmobile.go:160-166 | the engine callbacks can be read back, in order and unchanged, from the handler calls |
| `Bridge.ForwardedKeepsOrder` | src/crocmobile/crocmobile.go:159-168 | if the engine reports at most one start and no progress before it, so do the handler calls |
| `Bridge.CompletionIsTerminal` | src/crocmobile/crocmobile.go:182-186 | after the engine returns: the cancel trigger is the last event and happens once; with handlers, exactly one TransferComplete carrying the engine's error comes right before it; without handlers nothing else is observed |
| `Bridge.TransferPassesCallbacks` | src/crocmobile/crocmobile.go:159-186 | over a whole transfer with handlers, the caller sees the engine's callbacks unchanged and in the engine's order |
| `Crocmobile.Prepare` | src/crocmobile/crocmobile.go:100-156 | an empty path fails with "fileAtPath is not set" whatever else holds; otherwise an empty secret after defaulting fails with "shared secret is not set" |
| `Crocmobile.PrepareDefaultedLaunch` | src/crocmobile/crocmobile.go:108-155 | once the path is set and the options defaulted, a transfer is set up exactly when the secret is non-empty and both engine calls succeed, and it then carries the enumerated files and the engine configuration |
| `Crocmobile.EngineConfigKeepsOptions` | src/crocmobile/crocmobile.go:113-141 | the engine configuration carries every option the adapter copies unchanged, apart from the two relay addresses |
| `Crocmobile.EnumerationFailure` | src/crocmobile/crocmobile.go:146-149 | with a secret set, a failed enumeration is reported as its own error |
| `Crocmobile.PrepareSucceedsIff` | src/crocmobile/crocmobile.go:100-155 | Send sets up a transfer exactly when path and secret are non-empty and both enumeration (of the path alone, with the caller's zip flag) and construction (from the translated options) succeed |
| `Crocmobile.PrepareKeepsOptions` | src/crocmobile/crocmobile.go:113-141 | the client's options are the caller's (or the defaults), unchanged except for the two relay addresses |
| `Crocmobile.PrepareSingleRelayFamily` | src/crocmobile/crocmobile.go:137-141 | a client Send sets up is configured for at most one relay address family |
| `Crocmobile.NilOptionsAreDefaults` | src/crocmobile/crocmobile.go:105-107 | missing options behave exactly like NewOptions() |
| `Crocmobile.EnumerationFirst` | src/crocmobile/crocmobile.go:146-154 | an enumeration error is returned as it is, whatever the client constructor would do |
| `Crocmobile.ConstructionFailure` | src/crocmobile/crocmobile.go:151-154 | with a secret set and the files enumerated, a failed client construction is reported as the constructor's own error |
| `Crocmobile.ValidationErrors` | src/crocmobile/crocmobile.go:100-155 | Send reports one of its own two validation errors exactly when the path or the defaulted secret is empty, provided the engine never reports one of them |
| `Crocmobile.EmptyPathWins` | src/crocmobile/crocmobile.go:101-111 | the path check comes first: an empty path is reported even when the secret is empty too |
| `Crocmobile.TransferKind.Code` | src/crocmobile/crocmobile.go:64-67 | the kind constants: 0 is sending and 1 is receiving, and no other kind has either code |
| `Crocmobile.NewTransferRequest` | src/crocmobile/crocmobile.go:192-201 | a new request of the given kind with an ID in [0, 10000), holding a new, not yet cancelled context |
| `Crocmobile.Context.Cancel` | src/crocmobile/crocmobile.go:194 | running the cancel function marks the context cancelled and is recorded once more |
| `Crocmobile.TransferRequest.Cancel` | src/crocmobile/crocmobile.go:60-62 | Cancel runs the request's own cancel function |
| `Crocmobile.Client.OnStarted` | src/crocmobile/crocmobile.go:161-163 | the started callback calls TransferStarted with the request ID if handlers were given, and does nothing otherwise |
| `Crocmobile.Client.OnProgress` | src/crocmobile/crocmobile.go:164-166 | the progress callback calls TransferProgress with the request ID and the five counters unchanged if handlers were given, and does nothing otherwise |
| `Crocmobile.BuildEngineOptions` | src/crocmobile/crocmobile.go:113-141 | the copy followed by the in-place precedence rule yields exactly RelayPrecedence of the copy |
| `Crocmobile.Send` | src/crocmobile/crocmobile.go:100-190 | on any error: no request, the error Prepare gives, nothing observed; on success: a new SendTx request with a bounded ID, not cancelled, and a transfer whose client shares its context, carries Prepare's options and files, and has a bridge for the request ID exactly when handlers were given |
| `Crocmobile.SendDefaulted` | src/crocmobile/crocmobile.go:108-190 | the part of Send after defaulting: the error PrepareDefaulted gives and no request, or a new wired request and transfer carrying PrepareDefaulted's files and options |
| `Crocmobile.Transfer.Run` | src/crocmobile/crocmobile.go:170-187 | the transfer's observable events are the bridged callbacks, then TransferComplete with the engine's error (with handlers), then the cancel trigger; the cancel function runs once more |
| `Crocmobile.CancelThenRun` | src/crocmobile/crocmobile.go:156-157 | after a Cancel on the returned request, the returned transfer's client holds that request's context and reads it as cancelled before the run; the transfer still ends with one completion and one more cancel run, two runs in all |

## Left out

- The goroutine and any concurrency. The transfer runs as a sequential step after `Send`
  returns. Interleavings between `Cancel` and the running transfer are not modelled.
- The redirection of standard error through a pipe while the engine runs, and the
  DebugWrapper flag that disables it. This is process-wide I/O with no effect on results.
- The engine's file enumeration, client construction, send operation and random-name
  utility. They are abstract results. How the engine reacts to a cancelled context is
  also not modelled.
- The engine skipping its callbacks when no handlers were installed. That nil check is
  in the engine, which is not part of this model. The model states its outcome:
  nothing is observed.
- Random seeding at start-up and the distribution of request IDs. Any ID in
  [0, 10000) may be chosen, and two requests may share one.
- What `context.WithCancel` does beyond marking the context done. A second cancel is
  recorded, but nothing else is claimed about it.
- The engine option fields the adapter never sets. They keep Go's zero value.
- The `IP` field and the `ReceieveTx` constant. Neither is used by the adapter.
  `IP` exists only as an `Options` field, and `ReceiveTx` only as a value of `TransferKind`.
