/**
  The asynchronous launcher of the mobile adapter: Send validates and
  translates the configuration, asks the engine for the file metadata and
  a client, allocates a transfer request with its cancel function, wires
  the handler bridge, and hands back the request together with the
  transfer that is to run afterwards.
 */
module Crocmobile {
  import opened Errors
  import opened Strings
  import opened Config
  import opened Bridge

  /** The engine's file metadata: opaque here, only threaded through. */
  datatype FilesInfo = FilesInfo(minimalFileInfos: seq<string>, emptyFoldersToTransfer: seq<string>, totalNumberFolders: int)

  /**
    The transfer engine as the adapter sees it: the compiled-in default
    relay hosts, the random-name utility's answer, the file enumeration
    (from the list of paths and the zip-folder flag) and the client
    constructor (from the engine options; None when it succeeds).
   */
  datatype Engine = Engine(
    defaultRelay: string,
    defaultRelay6: string,
    randomName: string,
    getFilesInfo: (seq<string>, bool) -> Result<FilesInfo>,
    newClient: EngineOptions -> Option<Error>)

  /** The transfer kinds (`SendTx`, `ReceieveTx`). */
  datatype TransferKind = SendTx | ReceiveTx
  {
    /** The integer the Go constants give the kind: 0 for sending, 1 for receiving. */
    function Code(): (c: int)
      ensures c == 0 <==> this == SendTx
      ensures c == 1 <==> this == ReceiveTx
    {
      match this
      case SendTx => 0
      case ReceiveTx => 1
    }
  }

  /** Request IDs are drawn from [0, RequestIdBound). */
  const RequestIdBound: int := 10000

  /** What a successful Send has set up: the file metadata and the client's options. */
  datatype Launch = Launch(files: FilesInfo, config: EngineOptions)

  /** The options Send works with: the caller's, or the defaults when there are none. */
  function Defaulted(options: Option<Options>, randomName: string): Options
  {
    if options.None? then NewOptions(randomName) else options.value
  }

  /** The engine options Send builds from the (defaulted) options. */
  function EngineConfig(o: Options, engine: Engine): EngineOptions
  {
    RelayPrecedence(Translate(o), engine.defaultRelay, engine.defaultRelay6)
  }

  /**
    The synchronous part of Send, as a value: an error, or what the launch
    uses. The checks run in order: the path, the (defaulted) secret, file
    enumeration, client construction.
   */
  function Prepare(path: string, options: Option<Options>, engine: Engine): (r: Result<Launch>)
    ensures |path| == 0 ==> r == Failure(FileAtPathNotSet)
    ensures |path| > 0 && Defaulted(options, engine.randomName).sharedSecret == [] ==> r == Failure(SharedSecretNotSet)
  {
    if |path| == 0 then Failure(FileAtPathNotSet)
    else PrepareDefaulted(path, Defaulted(options, engine.randomName), engine)
  }

  /** Prepare once the path is known to be set and the options are defaulted. */
  function PrepareDefaulted(path: string, o: Options, engine: Engine): Result<Launch>
  {
    if |o.sharedSecret| == 0 then Failure(SharedSecretNotSet)
    else
      var config := EngineConfig(o, engine);
      match engine.getFilesInfo([path], config.zipFolder)
      case Failure(e) => Failure(e)
      case Success(files) =>
        if engine.newClient(config).Some? then Failure(engine.newClient(config).value)
        else Success(Launch(files, config))
  }

  /**
    The engine configuration hands the engine the options unchanged, except
    for the relay addresses, which only the precedence rule touches.
   */
  lemma EngineConfigKeepsOptions(o: Options, engine: Engine)
    ensures var config := EngineConfig(o, engine);
      Untranslate(config.(relayAddress := o.relayAddress, relayAddress6 := o.relayAddress6), o.debugWrapper, o.ip) == o
  {
    RelayPrecedenceGuarantees(Translate(o), engine.defaultRelay, engine.defaultRelay6);
    TranslateRoundTrip(o);
  }

  /** What PrepareDefaulted launches with when it succeeds, and when it does. */
  lemma PrepareDefaultedLaunch(path: string, o: Options, engine: Engine)
    ensures PrepareDefaulted(path, o, engine).Success?
      <==> && |o.sharedSecret| > 0
           && engine.getFilesInfo([path], o.zipFolder).Success?
           && engine.newClient(EngineConfig(o, engine)).None?
    ensures PrepareDefaulted(path, o, engine).Success? ==>
      PrepareDefaulted(path, o, engine).value
        == Launch(engine.getFilesInfo([path], o.zipFolder).value, EngineConfig(o, engine))
  {
    assert EngineConfig(o, engine).zipFolder == o.zipFolder;
  }

  /**
    Send succeeds exactly when the path and the secret are non-empty and
    both engine calls succeed; the engine is asked to enumerate the given
    path alone, with the caller's zip-folder flag, and to build a client
    from the translated options.
   */
  lemma PrepareSucceedsIff(path: string, options: Option<Options>, engine: Engine)
    ensures var o := Defaulted(options, engine.randomName);
      Prepare(path, options, engine).Success?
      <==> && |path| > 0 && |o.sharedSecret| > 0
           && engine.getFilesInfo([path], o.zipFolder).Success?
           && engine.newClient(EngineConfig(o, engine)).None?
  {
    PrepareDefaultedLaunch(path, Defaulted(options, engine.randomName), engine);
  }

  /**
    A successful Send hands the engine the caller's options unchanged,
    except for the relay addresses, which only the precedence rule touches.
   */
  lemma PrepareKeepsOptions(path: string, options: Option<Options>, engine: Engine)
    requires Prepare(path, options, engine).Success?
    ensures var o := Defaulted(options, engine.randomName);
      var config := Prepare(path, options, engine).value.config;
      Untranslate(config.(relayAddress := o.relayAddress, relayAddress6 := o.relayAddress6), o.debugWrapper, o.ip) == o
  {
    var o := Defaulted(options, engine.randomName);
    PrepareDefaultedLaunch(path, o, engine);
    EngineConfigKeepsOptions(o, engine);
  }

  /** A successful Send configures the engine for at most one relay address family. */
  lemma PrepareSingleRelayFamily(path: string, options: Option<Options>, engine: Engine)
    requires Prepare(path, options, engine).Success?
    ensures SingleRelayFamily(Prepare(path, options, engine).value.config, engine.defaultRelay, engine.defaultRelay6)
  {
    var o := Defaulted(options, engine.randomName);
    PrepareDefaultedLaunch(path, o, engine);
    RelayPrecedenceGuarantees(Translate(o), engine.defaultRelay, engine.defaultRelay6);
  }

  /** Missing options behave exactly like NewOptions(). */
  lemma NilOptionsAreDefaults(path: string, engine: Engine)
    ensures Prepare(path, None, engine) == Prepare(path, Some(NewOptions(engine.randomName)), engine)
  {
    assert Defaulted(None, engine.randomName) == Defaulted(Some(NewOptions(engine.randomName)), engine.randomName);
  }

  /**
    Enumeration is attempted before construction: when it fails, its error
    is the result, whatever the client constructor would have done.
   */
  lemma EnumerationFirst(path: string, options: Option<Options>, engine: Engine,
                         otherNewClient: EngineOptions -> Option<Error>)
    requires |path| > 0 && |Defaulted(options, engine.randomName).sharedSecret| > 0
    requires engine.getFilesInfo([path], Defaulted(options, engine.randomName).zipFolder).Failure?
    ensures Prepare(path, options, engine)
         == Prepare(path, options, engine.(newClient := otherNewClient))
         == Failure(engine.getFilesInfo([path], Defaulted(options, engine.randomName).zipFolder).error)
  {
    var o := Defaulted(options, engine.randomName);
    EnumerationFailure(path, o, engine);
    EnumerationFailure(path, o, engine.(newClient := otherNewClient));
  }

  /** A failed enumeration is what PrepareDefaulted reports, given a secret. */
  lemma EnumerationFailure(path: string, o: Options, engine: Engine)
    requires |o.sharedSecret| > 0 && engine.getFilesInfo([path], o.zipFolder).Failure?
    ensures PrepareDefaulted(path, o, engine) == Failure(engine.getFilesInfo([path], o.zipFolder).error)
  {
    assert EngineConfig(o, engine).zipFolder == o.zipFolder;
  }

  /**
    Construction is attempted after a successful enumeration: when it fails,
    the constructor's own error is the result.
   */
  lemma ConstructionFailure(path: string, options: Option<Options>, engine: Engine)
    requires |path| > 0 && |Defaulted(options, engine.randomName).sharedSecret| > 0
    requires engine.getFilesInfo([path], Defaulted(options, engine.randomName).zipFolder).Success?
    requires engine.newClient(EngineConfig(Defaulted(options, engine.randomName), engine)).Some?
    ensures Prepare(path, options, engine)
         == Failure(engine.newClient(EngineConfig(Defaulted(options, engine.randomName), engine)).value)
  {
    ConstructionFailureDefaulted(path, Defaulted(options, engine.randomName), engine);
  }

  /** A failed construction is what PrepareDefaulted reports, given a secret and the files. */
  lemma ConstructionFailureDefaulted(path: string, o: Options, engine: Engine)
    requires |o.sharedSecret| > 0 && engine.getFilesInfo([path], o.zipFolder).Success?
    requires engine.newClient(EngineConfig(o, engine)).Some?
    ensures PrepareDefaulted(path, o, engine) == Failure(engine.newClient(EngineConfig(o, engine)).value)
  {
    assert EngineConfig(o, engine).zipFolder == o.zipFolder;
  }

  /**
    The adapter's own errors are exactly the failed path and secret checks:
    Send reports a validation error precisely when the path or the
    (defaulted) secret is empty, provided the engine's own errors are never
    mistaken for the adapter's.
   */
  lemma ValidationErrors(path: string, options: Option<Options>, engine: Engine)
    requires var o := Defaulted(options, engine.randomName);
      && (engine.getFilesInfo([path], o.zipFolder).Failure? ==> !engine.getFilesInfo([path], o.zipFolder).error.IsValidation())
      && (engine.newClient(EngineConfig(o, engine)).Some? ==> !engine.newClient(EngineConfig(o, engine)).value.IsValidation())
    ensures var o := Defaulted(options, engine.randomName);
      (Prepare(path, options, engine).Failure? && Prepare(path, options, engine).error.IsValidation())
      <==> (|path| == 0 || |o.sharedSecret| == 0)
  {
    if |path| > 0 {
      ValidationErrorsDefaulted(path, Defaulted(options, engine.randomName), engine);
    }
  }

  /** ValidationErrors once the path is set and the options are defaulted. */
  lemma ValidationErrorsDefaulted(path: string, o: Options, engine: Engine)
    requires engine.getFilesInfo([path], o.zipFolder).Failure? ==> !engine.getFilesInfo([path], o.zipFolder).error.IsValidation()
    requires engine.newClient(EngineConfig(o, engine)).Some? ==> !engine.newClient(EngineConfig(o, engine)).value.IsValidation()
    ensures (PrepareDefaulted(path, o, engine).Failure? && PrepareDefaulted(path, o, engine).error.IsValidation())
      <==> |o.sharedSecret| == 0
  {
    PrepareDefaultedLaunch(path, o, engine);
    if |o.sharedSecret| > 0 && engine.getFilesInfo([path], o.zipFolder).Failure? {
      EnumerationFailure(path, o, engine);
    } else if |o.sharedSecret| > 0 && engine.newClient(EngineConfig(o, engine)).Some? {
      ConstructionFailureDefaulted(path, o, engine);
    }
  }

  /**
    An empty path is reported before anything else is looked at, whatever
    the options and the engine.
   */
  lemma EmptyPathWins(options: Option<Options>, engine: Engine)
    ensures Prepare("", options, engine) == Failure(FileAtPathNotSet)
    ensures Prepare("", Some(Defaulted(options, engine.randomName).(sharedSecret := "")), engine) == Failure(FileAtPathNotSet)
  {
  }

  /** Where the caller's handlers and the cancel functions are observed. */
  class EventLog {
    var events: seq<Event>

    constructor ()
      ensures events == []
    {
      events := [];
    }

    method Record(e: Event)
      modifies this
      ensures events == old(events) + [e]
    {
      events := events + [e];
    }
  }

  /**
    A cancellable context and its cancel function. `cancelCalls` counts the
    invocations; nothing is promised about a second one beyond its being
    recorded.
   */
  class Context {
    const requestId: int
    const log: EventLog
    var cancelCalls: nat

    constructor (requestId: int, log: EventLog)
      ensures this.requestId == requestId && this.log == log && cancelCalls == 0
    {
      this.requestId := requestId;
      this.log := log;
      cancelCalls := 0;
    }

    /** The context is done once its cancel function has run. */
    predicate Cancelled()
      reads this
    {
      cancelCalls > 0
    }

    /** The cancel function. */
    method Cancel()
      modifies this, log
      ensures cancelCalls == old(cancelCalls) + 1 && Cancelled()
      ensures log.events == old(log.events) + [CancelTriggered(requestId)]
    {
      cancelCalls := cancelCalls + 1;
      log.Record(CancelTriggered(requestId));
    }
  }

  /** TransferRequest: the handle Send returns. */
  class TransferRequest {
    const id: int
    const kind: TransferKind
    const ctxCancel: Context

    constructor (id: int, kind: TransferKind, ctxCancel: Context)
      ensures this.id == id && this.kind == kind && this.ctxCancel == ctxCancel
    {
      this.id := id;
      this.kind := kind;
      this.ctxCancel := ctxCancel;
    }

    /** The request's cancel function belongs to its own context. */
    predicate Valid()
    {
      ctxCancel.requestId == id && 0 <= id < RequestIdBound
    }

    /** Cancel: runs the request's cancel function. */
    method Cancel()
      requires Valid()
      modifies ctxCancel, ctxCancel.log
      ensures ctxCancel.cancelCalls == old(ctxCancel.cancelCalls) + 1 && ctxCancel.Cancelled()
      ensures ctxCancel.log.events == old(ctxCancel.log.events) + [CancelTriggered(id)]
    {
      ctxCancel.Cancel();
    }
  }

  /**
    newTransferRequest: a request of the given kind with a random ID below
    RequestIdBound (any such ID may be chosen; two requests may share one)
    and a fresh, not yet cancelled context.
   */
  method NewTransferRequest(kind: TransferKind, log: EventLog) returns (ctx: Context, request: TransferRequest)
    ensures fresh(ctx) && fresh(request)
    ensures request.Valid() && request.kind == kind && request.ctxCancel == ctx
    ensures ctx.log == log && ctx.cancelCalls == 0
  {
    var id :| 0 <= id < RequestIdBound;
    ctx := new Context(id, log);
    request := new TransferRequest(id, kind, ctx);
  }

  /**
    The engine client after construction. `bridge` is the request ID the
    installed handler bridge injects, or None when no handlers were given;
    `handlers` is where the caller's handler calls are observed.
   */
  class Client {
    const options: EngineOptions
    const handlers: EventLog
    var context: Context?
    var bridge: Option<int>

    constructor (options: EngineOptions, handlers: EventLog)
      ensures this.options == options && this.handlers == handlers
      ensures context == null && bridge == None
    {
      this.options := options;
      this.handlers := handlers;
      context := null;
      bridge := None;
    }

    /** The engine's `started` callback. */
    method OnStarted()
      modifies handlers
      ensures handlers.events == old(handlers.events)
        + (if bridge.Some? then [TransferStarted(bridge.value)] else [])
    {
      if bridge.Some? {
        handlers.Record(TransferStarted(bridge.value));
      }
    }

    /** The engine's `progress` callback. */
    method OnProgress(fileSize: Int64, bytesTransferred: Int64, msElapsed: Int64,
                      totalBytesTransferred: Int64, totalMsElapsed: Int64)
      modifies handlers
      ensures handlers.events == old(handlers.events)
        + (if bridge.Some? then [TransferProgress(bridge.value, fileSize, bytesTransferred,
                                                  msElapsed, totalBytesTransferred, totalMsElapsed)]
           else [])
    {
      if bridge.Some? {
        handlers.Record(TransferProgress(bridge.value, fileSize, bytesTransferred,
                                         msElapsed, totalBytesTransferred, totalMsElapsed));
      }
    }
  }

  /** The goroutine Send launches, with what it captured. */
  class Transfer {
    const client: Client
    const request: TransferRequest
    const handlersPresent: bool
    const files: FilesInfo
    const log: EventLog

    constructor (client: Client, request: TransferRequest, handlersPresent: bool, files: FilesInfo, log: EventLog)
      ensures this.client == client && this.request == request && this.handlersPresent == handlersPresent
      ensures this.files == files && this.log == log
    {
      this.client := client;
      this.request := request;
      this.handlersPresent := handlersPresent;
      this.files := files;
      this.log := log;
    }

    /**
      The client shares the request's context and reports to the caller's
      handlers through a bridge scoped to the request, if there are handlers.
     */
    ghost predicate Valid()
      reads client
    {
      && request.Valid()
      && client.context == request.ctxCancel
      && client.handlers == log && request.ctxCancel.log == log
      && client.bridge == (if handlersPresent then Some(request.id) else None)
    }

    /**
      The goroutine's body, run to its end: the engine's send makes the
      callbacks in `engineEvents` and returns `engineResult`; then the
      completion call is made if there are handlers, and then the request's
      cancel function runs.
     */
    method Run(engineEvents: seq<EngineEvent>, engineResult: Option<Error>)
      requires Valid()
      modifies log, request.ctxCancel
      ensures log.events == old(log.events)
        + TransferEvents(request.id, handlersPresent, engineEvents, engineResult)
      ensures request.ctxCancel.cancelCalls == old(request.ctxCancel.cancelCalls) + 1
    {
      var i := 0;
      while i < |engineEvents|
        invariant 0 <= i <= |engineEvents|
        invariant log.events == old(log.events) + Forwarded(request.id, handlersPresent, engineEvents[..i])
        invariant request.ctxCancel.cancelCalls == old(request.ctxCancel.cancelCalls)
      {
        match engineEvents[i] {
          case Started => client.OnStarted();
          case Progress(a, b, c, d, f) => client.OnProgress(a, b, c, d, f);
        }
        assert engineEvents[..i + 1][..i] == engineEvents[..i];
        i := i + 1;
      }
      assert engineEvents[..i] == engineEvents;
      if handlersPresent {
        log.Record(TransferComplete(request.id, engineResult));
      }
      request.ctxCancel.Cancel();
    }
  }

  /**
    The engine options Send builds: the field-by-field copy, then the
    relay-address precedence rule applied in place.
   */
  method BuildEngineOptions(options: Options, engine: Engine) returns (crocOptions: EngineOptions)
    ensures crocOptions == EngineConfig(options, engine)
  {
    crocOptions := Translate(options);
    ghost var translated := crocOptions;
    if crocOptions.relayAddress != engine.defaultRelay {
      crocOptions := crocOptions.(relayAddress6 := "");
      assert crocOptions == RelayPrecedence(translated, engine.defaultRelay, engine.defaultRelay6);
    } else if crocOptions.relayAddress6 != engine.defaultRelay6 {
      crocOptions := crocOptions.(relayAddress := "");
      assert crocOptions == RelayPrecedence(translated, engine.defaultRelay, engine.defaultRelay6);
    }
  }

  /**
    Send. On failure no request exists and nothing is observed; on success
    the request is new, of kind SendTx, not cancelled, and the transfer is
    wired to it and carries exactly what Prepare computes.
   */
  method Send(fileAtPath: string, options: Option<Options>, handlersPresent: bool, engine: Engine, log: EventLog)
    returns (request: TransferRequest?, transfer: Transfer?, err: Option<Error>)
    ensures Prepare(fileAtPath, options, engine).Failure? ==>
      && request == null && transfer == null
      && err == Some(Prepare(fileAtPath, options, engine).error)
    ensures Prepare(fileAtPath, options, engine).Success? ==>
      && err == None && request != null && transfer != null
      && fresh(request) && fresh(request.ctxCancel) && fresh(transfer) && fresh(transfer.client)
      && request.kind == SendTx && request.ctxCancel.cancelCalls == 0
      && transfer.request == request && transfer.log == log
      && transfer.handlersPresent == handlersPresent && transfer.Valid()
      && transfer.files == Prepare(fileAtPath, options, engine).value.files
      && transfer.client.options == Prepare(fileAtPath, options, engine).value.config
    ensures unchanged(log)
  {
    if |fileAtPath| == 0 {
      request, transfer, err := null, null, Some(FileAtPathNotSet);
      return;
    }
    var opts := Defaulted(options, engine.randomName);
    request, transfer, err := SendDefaulted(fileAtPath, opts, handlersPresent, engine, log);
  }

  /** The rest of Send, once the path is known to be set and the options are defaulted. */
  method SendDefaulted(fileAtPath: string, opts: Options, handlersPresent: bool, engine: Engine, log: EventLog)
    returns (request: TransferRequest?, transfer: Transfer?, err: Option<Error>)
    ensures PrepareDefaulted(fileAtPath, opts, engine).Failure? ==>
      && request == null && transfer == null
      && err == Some(PrepareDefaulted(fileAtPath, opts, engine).error)
    ensures PrepareDefaulted(fileAtPath, opts, engine).Success? ==>
      && err == None && request != null && transfer != null
      && fresh(request) && fresh(request.ctxCancel) && fresh(transfer) && fresh(transfer.client)
      && request.kind == SendTx && request.ctxCancel.cancelCalls == 0
      && transfer.request == request && transfer.log == log
      && transfer.handlersPresent == handlersPresent && transfer.Valid()
      && transfer.files == PrepareDefaulted(fileAtPath, opts, engine).value.files
      && transfer.client.options == PrepareDefaulted(fileAtPath, opts, engine).value.config
    ensures unchanged(log)
  {
    request, transfer, err := null, null, None;
    if |opts.sharedSecret| == 0 {
      err := Some(SharedSecretNotSet);
      return;
    }

    var crocOptions := BuildEngineOptions(opts, engine);

    var fnames := [fileAtPath];
    var filesInfo := engine.getFilesInfo(fnames, crocOptions.zipFolder);
    if filesInfo.Failure? {
      err := Some(filesInfo.error);
      return;
    }
    var constructed := engine.newClient(crocOptions);
    if constructed.Some? {
      err := constructed;
      return;
    }
    var crocClient := new Client(crocOptions, log);

    var ctx, req := NewTransferRequest(SendTx, log);
    crocClient.context := ctx;
    if handlersPresent {
      crocClient.bridge := Some(req.id);
    }
    transfer := new Transfer(crocClient, req, handlersPresent, filesInfo.value, log);
    request := req;
  }

  /**
    A caller's view: after a successful Send, cancelling the request is seen
    by the engine client through the shared context, and running the
    transfer afterwards still ends with exactly one completion call and one
    more cancel trigger.
   */
  method CancelThenRun(fileAtPath: string, options: Options, engine: Engine, log: EventLog,
                       engineEvents: seq<EngineEvent>, engineResult: Option<Error>)
    returns (request: TransferRequest?, transfer: Transfer?, cancelSeen: bool)
    requires Prepare(fileAtPath, Some(options), engine).Success?
    modifies log
    ensures request != null && transfer != null && fresh(request.ctxCancel)
    ensures transfer.request == request && transfer.client.context == request.ctxCancel
    ensures cancelSeen
    ensures request.ctxCancel.cancelCalls == 2
    ensures log.events == old(log.events) + [CancelTriggered(request.id)]
      + TransferEvents(request.id, true, engineEvents, engineResult)
  {
    var err;
    request, transfer, err := Send(fileAtPath, Some(options), true, engine, log);
    request.Cancel();
    cancelSeen := transfer.client.context.Cancelled();
    transfer.Run(engineEvents, engineResult);
  }
}
