/**
  The configuration translator: the adapter's option record, its defaults,
  the field-by-field copy into the transfer engine's option record, and the
  relay-address precedence rule.
 */
module Config {
  import opened Strings

  /** The caller-facing option record (the Go struct `Options`). */
  datatype Options = Options(
    isSender: bool,
    sharedSecret: string,
    debug: bool,
    debugWrapper: bool,
    relayAddress: string,
    relayAddress6: string,
    relayPorts: string,
    relayPassword: string,
    stdout: bool,
    noPrompt: bool,
    noMultiplexing: bool,
    disableLocal: bool,
    onlyLocal: bool,
    ignoreStdin: bool,
    ask: bool,
    sendingText: bool,
    noCompress: bool,
    ip: string,          // declared, but never read by the adapter
    overwrite: bool,
    curve: string,
    hashAlgorithm: string,
    throttleUpload: string,
    zipFolder: bool)

  /**
    The fields of the engine's option record that the adapter sets; the
    relay ports are a list there. Fields the adapter leaves at Go's zero
    value are not part of this model.
   */
  datatype EngineOptions = EngineOptions(
    sharedSecret: string,
    isSender: bool,
    debug: bool,
    noPrompt: bool,
    relayAddress: string,
    relayAddress6: string,
    stdout: bool,
    disableLocal: bool,
    onlyLocal: bool,
    ignoreStdin: bool,
    relayPorts: seq<string>,
    ask: bool,
    noMultiplexing: bool,
    relayPassword: string,
    sendingText: bool,
    noCompress: bool,
    overwrite: bool,
    curve: string,
    hashAlgorithm: string,
    throttleUpload: string,
    zipFolder: bool)

  const PortSeparator: char := ','

  /** Every boolean toggle of `o` other than the sender role is off. */
  predicate TogglesOff(o: Options)
  {
    && !o.debug && !o.debugWrapper && !o.stdout && !o.noPrompt
    && !o.noMultiplexing && !o.disableLocal && !o.onlyLocal && !o.ignoreStdin
    && !o.ask && !o.sendingText && !o.noCompress && !o.overwrite && !o.zipFolder
  }

  /**
    NewOptions. The secret comes from the engine's random-name utility,
    which is a parameter here. What the defaults are is stated by
    NewOptionsDefaults.
   */
  function NewOptions(randomName: string): Options
  {
    Options(
      isSender := true,
      sharedSecret := randomName,
      debug := false,
      debugWrapper := false,
      relayAddress := "croc.schollz.com",
      relayAddress6 := "croc6.schollz.com",
      relayPorts := "9009,9010,9011,9012,9013",
      relayPassword := "pass123",
      stdout := false,
      noPrompt := false,
      noMultiplexing := false,
      disableLocal := false,
      onlyLocal := false,
      ignoreStdin := false,
      ask := false,
      sendingText := false,
      noCompress := false,
      ip := "",
      overwrite := false,
      curve := "p256",
      hashAlgorithm := "xxhash",
      throttleUpload := "",
      zipFolder := false)
  }

  /**
    The defaults: the sender role with every toggle off, the random secret,
    the two public relays, the five default ports, the default password,
    curve and hash, no upload throttle and no IP.
   */
  lemma NewOptionsDefaults(randomName: string)
    ensures var o := NewOptions(randomName);
      && o.isSender && TogglesOff(o)
      && o.sharedSecret == randomName
      && o.relayAddress == "croc.schollz.com" && o.relayAddress6 == "croc6.schollz.com"
      && o.relayPorts == "9009,9010,9011,9012,9013"
      && o.relayPassword == "pass123"
      && o.curve == "p256" && o.hashAlgorithm == "xxhash"
      && o.throttleUpload == "" && o.ip == ""
  {
  }

  /** The default port string reaches the engine as five separate ports, in order. */
  lemma DefaultRelayPorts(randomName: string)
    ensures Split(NewOptions(randomName).relayPorts, PortSeparator)
         == ["9009", "9010", "9011", "9012", "9013"]
  {
    DefaultPortList();
  }

  /** The default port string lists the five default ports. */
  lemma DefaultPortList()
    ensures Split("9009,9010,9011,9012,9013", PortSeparator) == ["9009", "9010", "9011", "9012", "9013"]
  {
    var ports := ["9009", "9010", "9011", "9012", "9013"];
    assert Join(ports, PortSeparator) == "9009,9010,9011,9012,9013";
    SplitJoin(ports, PortSeparator);
  }

  /**
    The copy into the engine's record: every field as it is, except the
    relay ports, which are split on commas. The debug-wrapper flag and the
    IP field are not copied.
   */
  function Translate(o: Options): (c: EngineOptions)
    ensures Join(c.relayPorts, PortSeparator) == o.relayPorts
    ensures SeparatorFree(c.relayPorts, PortSeparator)
  {
    JoinSplit(o.relayPorts, PortSeparator);
    SplitSeparatorFree(o.relayPorts, PortSeparator);
    EngineOptions(
      sharedSecret := o.sharedSecret,
      isSender := o.isSender,
      debug := o.debug,
      noPrompt := o.noPrompt,
      relayAddress := o.relayAddress,
      relayAddress6 := o.relayAddress6,
      stdout := o.stdout,
      disableLocal := o.disableLocal,
      onlyLocal := o.onlyLocal,
      ignoreStdin := o.ignoreStdin,
      relayPorts := Split(o.relayPorts, PortSeparator),
      ask := o.ask,
      noMultiplexing := o.noMultiplexing,
      relayPassword := o.relayPassword,
      sendingText := o.sendingText,
      noCompress := o.noCompress,
      overwrite := o.overwrite,
      curve := o.curve,
      hashAlgorithm := o.hashAlgorithm,
      throttleUpload := o.throttleUpload,
      zipFolder := o.zipFolder)
  }

  /** The engine gets one port entry per comma in the option string, plus one. */
  lemma TranslatePortCount(o: Options)
    ensures |Translate(o).relayPorts| == multiset(o.relayPorts)[PortSeparator] + 1
  {
    SplitCount(o.relayPorts, PortSeparator);
  }

  /**
    The reverse of Translate: the option record an engine record was copied
    from, given the two fields Translate drops.
   */
  function Untranslate(c: EngineOptions, debugWrapper: bool, ip: string): Options
  {
    Options(
      isSender := c.isSender,
      sharedSecret := c.sharedSecret,
      debug := c.debug,
      debugWrapper := debugWrapper,
      relayAddress := c.relayAddress,
      relayAddress6 := c.relayAddress6,
      relayPorts := Join(c.relayPorts, PortSeparator),
      relayPassword := c.relayPassword,
      stdout := c.stdout,
      noPrompt := c.noPrompt,
      noMultiplexing := c.noMultiplexing,
      disableLocal := c.disableLocal,
      onlyLocal := c.onlyLocal,
      ignoreStdin := c.ignoreStdin,
      ask := c.ask,
      sendingText := c.sendingText,
      noCompress := c.noCompress,
      ip := ip,
      overwrite := c.overwrite,
      curve := c.curve,
      hashAlgorithm := c.hashAlgorithm,
      throttleUpload := c.throttleUpload,
      zipFolder := c.zipFolder)
  }

  /** Translate loses nothing but the debug-wrapper flag and the IP field. */
  lemma TranslateRoundTrip(o: Options)
    ensures Untranslate(Translate(o), o.debugWrapper, o.ip) == o
  {
  }

  /**
    Every engine record whose port list is non-empty and comma-free is the
    translation of exactly one option record (up to the two dropped fields).
   */
  lemma TranslateOnto(c: EngineOptions, debugWrapper: bool, ip: string)
    requires |c.relayPorts| >= 1 && SeparatorFree(c.relayPorts, PortSeparator)
    ensures Translate(Untranslate(c, debugWrapper, ip)) == c
  {
    SplitJoin(c.relayPorts, PortSeparator);
  }

  /**
    The relay-address precedence rule, applied to the engine's record after
    the copy: an overridden primary relay clears the secondary one; failing
    that, an overridden secondary relay clears the primary one.
   */
  function RelayPrecedence(c: EngineOptions, defaultRelay: string, defaultRelay6: string): (r: EngineOptions)
    ensures c.relayAddress != defaultRelay ==> r.relayAddress == c.relayAddress && r.relayAddress6 == ""
    ensures c.relayAddress == defaultRelay && c.relayAddress6 != defaultRelay6 ==>
      r.relayAddress == "" && r.relayAddress6 == c.relayAddress6
    ensures c.relayAddress == defaultRelay && c.relayAddress6 == defaultRelay6 ==> r == c
  {
    var primary := if c.relayAddress == defaultRelay && c.relayAddress6 != defaultRelay6 then "" else c.relayAddress;
    var secondary := if c.relayAddress != defaultRelay then "" else c.relayAddress6;
    c.(relayAddress := primary, relayAddress6 := secondary)
  }

  /**
    At most one relay address family is configured: one of the two
    addresses is empty, or both are at their defaults.
   */
  predicate SingleRelayFamily(c: EngineOptions, defaultRelay: string, defaultRelay6: string)
  {
    || c.relayAddress == ""
    || c.relayAddress6 == ""
    || (c.relayAddress == defaultRelay && c.relayAddress6 == defaultRelay6)
  }

  /**
    What the precedence rule guarantees for any record: afterwards at most
    one family is configured, an address is only ever kept or cleared, a
    primary override always survives, and no other field changes.
   */
  lemma RelayPrecedenceGuarantees(c: EngineOptions, defaultRelay: string, defaultRelay6: string)
    ensures var r := RelayPrecedence(c, defaultRelay, defaultRelay6);
      && SingleRelayFamily(r, defaultRelay, defaultRelay6)
      && (r.relayAddress == c.relayAddress || r.relayAddress == "")
      && (r.relayAddress6 == c.relayAddress6 || r.relayAddress6 == "")
      && (c.relayAddress != defaultRelay ==> r.relayAddress == c.relayAddress)
      && r.(relayAddress := c.relayAddress, relayAddress6 := c.relayAddress6) == c
  {
  }

  /**
    The rule is not idempotent: on a record whose (non-empty) secondary
    address alone was overridden, applying it a second time clears that
    address too when the primary default is not empty, so it must run
    exactly once, as it does.
   */
  lemma RelayPrecedenceNotIdempotent(c: EngineOptions, defaultRelay: string, defaultRelay6: string)
    requires c.relayAddress == defaultRelay && c.relayAddress6 != defaultRelay6
    requires defaultRelay != "" && c.relayAddress6 != ""
    ensures var once := RelayPrecedence(c, defaultRelay, defaultRelay6);
      RelayPrecedence(once, defaultRelay, defaultRelay6) != once
  {
    var once := RelayPrecedence(c, defaultRelay, defaultRelay6);
    assert once.relayAddress == "" && once.relayAddress6 == c.relayAddress6;
    assert RelayPrecedence(once, defaultRelay, defaultRelay6).relayAddress6 == "";
  }
}
