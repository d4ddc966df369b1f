/** The client constructor as a function of its arguments: which
    initialisation path runs, and what token store, transport and guid
    generator the new client ends up with (or why construction fails). */
module Construction {
  import opened Wrappers
  import opened JsString
  import opened ClientTypes
  import opened FacadePolicy
  import opened KeySource
  import opened ClientStatics

  /** The four initialisation paths of the constructor. */
  datatype InitPath = ByConfigFile | ForTests | ByPrivateKey | WithoutKey

  /** The constructor's arguments. `tokenContainer` is the contents of the
      container passed in (None for null); `bitPayClient` and `guidGenerator`
      are the test injections (None for null or undefined). */
  datatype Args = Args(
    configFilePath: Option<string>,
    privateKey: Option<string>,
    tokenContainer: Option<map<Facade, string>>,
    posToken: Option<string>,
    environment: Option<string>,
    platformInfo: Option<string>,
    bitPayClient: Option<nat>,
    guidGenerator: Option<GuidSource>)

  /** What a constructed client holds. */
  datatype ClientState = ClientState(
    tokens: map<Facade, string>,
    transport: Transport,
    guids: GuidSource)

  /** The order in which the constructor tests its arguments. */
  function Dispatch(a: Args): (p: InitPath)
    ensures p == ByConfigFile <==> a.configFilePath.Some?
    ensures p == ForTests ==> a.bitPayClient.Some?
    ensures p == ByPrivateKey ==> a.privateKey.Some? && a.bitPayClient.None?
  {
    if a.configFilePath.Some? then ByConfigFile
    else if a.bitPayClient.Some? then ForTests
    else if a.privateKey.Some? then ByPrivateKey
    else WithoutKey
  }

  /** A config file path wins over every other argument; a test transport
      wins over key and token arguments; a private key wins over a Pos token. */
  lemma DispatchPrecedence(a: Args)
    ensures Dispatch(a) == ByConfigFile <==> a.configFilePath.Some?
    ensures Dispatch(a) == ForTests <==> a.configFilePath.None? && a.bitPayClient.Some?
    ensures Dispatch(a) == ByPrivateKey <==>
      a.configFilePath.None? && a.bitPayClient.None? && a.privateKey.Some?
    ensures Dispatch(a) == WithoutKey <==>
      a.configFilePath.None? && a.bitPayClient.None? && a.privateKey.None?
  {
  }

  /** `initByConfigFilePath`. A missing file is reported as such; every
      failure after that point (unparsable text, an environment without an
      entry, a missing or unusable key, including the key lookup's own
      "Missing ECKey") is caught and reported as a read error. */
  function InitByConfigFilePath(path: string, platformInfo: Option<string>, host: Host, consts: EnvConstants)
    : (r: Result<ClientState, ClientError>)
    ensures r.Failure? ==> r.error == ConfigFileNotFound || r.error == ConfigReadError
    ensures (r.Failure? && r.error == ConfigFileNotFound) <==> path !in host.files
    ensures r.Success? <==>
      && path in host.files
      && host.files[path] in host.configs
      && var cfg := host.configs[host.files[path]];
         && cfg.environment in cfg.envConfig
         && EcKeyByConfig(cfg.envConfig[cfg.environment], host).Success?
    ensures r.Success? ==>
      var cfg := host.configs[host.files[path]];
      var env := cfg.envConfig[cfg.environment];
      && r.value.tokens == env.apiTokens
      && r.value.transport ==
         RemoteTransport(BaseUrl(cfg.environment, consts), Some(EcKeyByConfig(env, host).value), platformInfo)
      && r.value.guids == DefaultGuids
  {
    if path !in host.files then Failure(ConfigFileNotFound)
    else
      var text := host.files[path];
      if text !in host.configs then Failure(ConfigReadError)
      else
        var cfg := host.configs[text];
        if cfg.environment !in cfg.envConfig then Failure(ConfigReadError)
        else
          var env := cfg.envConfig[cfg.environment];
          match EcKeyByConfig(env, host)
          case Failure(_) => Failure(ConfigReadError)
          case Success(key) =>
            Success(ClientState(
              env.apiTokens,
              RemoteTransport(BaseUrl(cfg.environment, consts), Some(key), platformInfo),
              DefaultGuids))
  }

  /** The tokens the constructor starts from when no config file is given:
      the container passed in, or a fresh empty one for null. */
  function GivenTokens(a: Args): (r: map<Facade, string>)
    ensures a.tokenContainer.Some? ==> r == a.tokenContainer.value
    ensures a.tokenContainer.None? ==> r == map[]
  {
    a.tokenContainer.GetOr(map[])
  }

  /** The constructor, with `platformInfo` handed on to the config-file path:
      every transport it builds carries the caller's platform information. */
  function Construct(a: Args, host: Host, consts: EnvConstants): (r: Result<ClientState, ClientError>)
    ensures r.Success? && r.value.transport.RemoteTransport? ==> r.value.transport.platformInfo == a.platformInfo
    ensures r.Success? && Dispatch(a) != ByConfigFile ==>
      var url := BaseUrl(a.environment.GetOr(consts.prod), consts);
      match Dispatch(a)
      case ForTests =>
        r.value.transport == InjectedTransport(a.bitPayClient.value) && r.value.guids == a.guidGenerator.GetOr(DefaultGuids)
      case ByPrivateKey =>
        && EcKeyByPrivateKey(a.privateKey.value, host).Success?
        && r.value.transport == RemoteTransport(url, Some(EcKeyByPrivateKey(a.privateKey.value, host).value), a.platformInfo)
        && r.value.guids == DefaultGuids
      case WithoutKey =>
        r.value.transport == RemoteTransport(url, None, a.platformInfo) && r.value.guids == DefaultGuids
      case ByConfigFile => true
  {
    var tokens := GivenTokens(a);
    var url := BaseUrl(a.environment.GetOr(consts.prod), consts);
    match Dispatch(a)
    case ByConfigFile =>
      InitByConfigFilePath(a.configFilePath.value, a.platformInfo, host, consts)
    case ForTests =>
      Success(ClientState(tokens, InjectedTransport(a.bitPayClient.value), a.guidGenerator.GetOr(DefaultGuids)))
    case ByPrivateKey =>
      (match EcKeyByPrivateKey(a.privateKey.value, host)
       case Failure(e) => Failure(e)
       case Success(key) => Success(ClientState(tokens, RemoteTransport(url, Some(key), a.platformInfo), DefaultGuids)))
    case WithoutKey =>
      var tokens' := if a.posToken.Some? then tokens[Pos := a.posToken.value] else tokens;
      Success(ClientState(tokens', RemoteTransport(url, None, a.platformInfo), DefaultGuids))
  }

  /** The constructor as written: the config-file path is entered without
      `platformInfo`, so a client built from a config file never carries the
      platform information its caller gave. */
  function ConstructAsWritten(a: Args, host: Host, consts: EnvConstants): (r: Result<ClientState, ClientError>)
    ensures Dispatch(a) == ByConfigFile && r.Success? ==>
      r.value.transport.RemoteTransport? && r.value.transport.platformInfo == None
    ensures Dispatch(a) == ByConfigFile ==>
      var c := Construct(a, host, consts);
      && (r.Success? <==> c.Success?)
      && (r.Failure? ==> r.error == c.error)
      && (r.Success? ==> r.value == c.value.(transport := c.value.transport.(platformInfo := None)))
    ensures Dispatch(a) != ByConfigFile ==> r == Construct(a, host, consts)
  {
    if Dispatch(a) == ByConfigFile then InitByConfigFilePath(a.configFilePath.value, None, host, consts)
    else Construct(a, host, consts)
  }

  /** A witness that the as-written loss happens: a readable config file and
      a caller-supplied platform string that does not reach the transport. */
  lemma ConfigPathDropsPlatformInfoExample()
    ensures
      var env := EnvConfig(map[Merchant := "t"], Some("k"), Some(""));
      var host := Host(map["c" := "j", "k" := "m"], map["j" := ConfigFile("P", map["P" := env])], {"m"});
      var consts := EnvConstants("TEST", "test-url", "prod-url", "P");
      var a := Args(Some("c"), None, None, None, None, Some("plugin"), None, None);
      && ConstructAsWritten(a, host, consts).Success?
      && ConstructAsWritten(a, host, consts).value.transport.platformInfo == None
      && Construct(a, host, consts).value.transport.platformInfo == Some("plugin")
  {
    var env := EnvConfig(map[Merchant := "t"], Some("k"), Some(""));
    var host := Host(map["c" := "j", "k" := "m"], map["j" := ConfigFile("P", map["P" := env])], {"m"});
    ReplaceFirstAbsent("k", '"');
    ReplaceFirstAbsent("", '"');
    assert EcKeyByConfig(env, host) == Success(KeyPair("m"));
  }

  /** With a config file path, nothing but that path and the platform
      information affects the outcome. */
  lemma ConfigFileOverridesArguments(a: Args, b: Args, host: Host, consts: EnvConstants)
    requires a.configFilePath.Some? && a.configFilePath == b.configFilePath
    requires a.platformInfo == b.platformInfo
    ensures Construct(a, host, consts) == Construct(b, host, consts)
  {
  }

  /** Outside the config-file path the client keeps the tokens it was given,
      plus the Pos token exactly when neither a test transport nor a private
      key was supplied. */
  lemma TokensAfterConstruction(a: Args, host: Host, consts: EnvConstants)
    requires a.configFilePath.None? && Construct(a, host, consts).Success?
    ensures Construct(a, host, consts).value.tokens ==
      if Dispatch(a) == WithoutKey && a.posToken.Some? then GivenTokens(a)[Pos := a.posToken.value]
      else GivenTokens(a)
  {
  }

  /** A private key excludes the Pos token: whatever was passed as `posToken`
      is not inserted. */
  lemma PrivateKeyExcludesPosToken(a: Args, host: Host, consts: EnvConstants)
    requires a.configFilePath.None? && a.bitPayClient.None? && a.privateKey.Some?
    requires Construct(a, host, consts).Success?
    ensures Construct(a, host, consts).value.tokens == GivenTokens(a)
    ensures Construct(a, host, consts).value.transport.key.Some?
  {
  }

  /** A null container becomes an empty one, so the client holds at most the
      inserted Pos token. */
  lemma NullContainerStartsEmpty(a: Args, host: Host, consts: EnvConstants)
    requires a.configFilePath.None? && a.tokenContainer.None?
    requires Construct(a, host, consts).Success?
    ensures var tokens := Construct(a, host, consts).value.tokens;
      && tokens.Keys <= {Pos}
      && (Pos in tokens <==> Dispatch(a) == WithoutKey && a.posToken.Some?)
  {
  }

  /** Without a config file, construction fails only when a private key is
      given and cannot be loaded, and then with the loader's error. */
  lemma DirectConstructionFailsOnlyOnKey(a: Args, host: Host, consts: EnvConstants)
    requires a.configFilePath.None?
    ensures Construct(a, host, consts).Failure? <==>
      Dispatch(a) == ByPrivateKey && EcKeyByPrivateKey(a.privateKey.value, host).Failure?
    ensures Construct(a, host, consts).Failure? ==> Construct(a, host, consts).error == InvalidKey
  {
  }

  /** The key lookup's "Missing ECKey" and the TypeError of a malformed entry
      never escape the constructor. */
  lemma InnerErrorsDoNotEscape(a: Args, host: Host, consts: EnvConstants)
    requires Construct(a, host, consts).Failure?
    ensures Construct(a, host, consts).error != MissingEcKey
    ensures Construct(a, host, consts).error != MalformedConfig
  {
  }

  /** `createPosClient`. */
  function CreatePosClient(posToken: string, environment: Option<string>, platformInfo: Option<string>): (a: Args)
    ensures Dispatch(a) == WithoutKey && a.posToken == Some(posToken) && a.tokenContainer.None?
    ensures a.environment == environment && a.platformInfo == platformInfo
  {
    Args(None, None, None, Some(posToken), environment, platformInfo, None, None)
  }

  /** `createClientByConfig`. */
  function CreateClientByConfig(configFilePath: string, platformInfo: Option<string>): (a: Args)
    ensures Dispatch(a) == ByConfigFile && a.configFilePath == Some(configFilePath)
    ensures a.platformInfo == platformInfo
  {
    Args(Some(configFilePath), None, None, None, None, platformInfo, None, None)
  }

  /** `createClientByPrivateKey`. */
  function CreateClientByPrivateKey(
    privateKey: string, tokens: map<Facade, string>, environment: Option<string>, platformInfo: Option<string>): (a: Args)
    ensures Dispatch(a) == ByPrivateKey && a.privateKey == Some(privateKey)
    ensures a.tokenContainer == Some(tokens) && GivenTokens(a) == tokens
    ensures a.environment == environment && a.platformInfo == platformInfo
  {
    Args(None, Some(privateKey), Some(tokens), None, environment, platformInfo, None, None)
  }

  /** A client built from a Pos token alone holds just that token, has no
      key, and its calls default to the Pos facade, unsigned. */
  lemma PosOnlyClient(posToken: string, environment: Option<string>, platformInfo: Option<string>,
                      host: Host, consts: EnvConstants)
    ensures var r := Construct(CreatePosClient(posToken, environment, platformInfo), host, consts);
      && r.Success?
      && r.value.tokens == map[Pos := posToken]
      && r.value.transport.RemoteTransport? && r.value.transport.key.None?
      && ResolveFacade(None, r.value.tokens) == Pos
      && !ResolveSign(None, ResolveFacade(None, r.value.tokens))
  {
    assert map[][Pos := posToken] == map[Pos := posToken];
  }

  /** A client built from a loadable private key and a Merchant token has the
      key, and its calls default to the Merchant facade, signed. */
  lemma MerchantKeyClient(privateKey: string, tokens: map<Facade, string>, environment: Option<string>,
                          platformInfo: Option<string>, host: Host, consts: EnvConstants)
    requires Merchant in tokens
    requires EcKeyByPrivateKey(privateKey, host).Success?
    ensures var r := Construct(CreateClientByPrivateKey(privateKey, tokens, environment, platformInfo), host, consts);
      && r.Success?
      && r.value.tokens == tokens
      && r.value.transport.RemoteTransport? && r.value.transport.key.Some?
      && ResolveFacade(None, r.value.tokens) == Merchant
      && ResolveSign(None, ResolveFacade(None, r.value.tokens))
  {
  }
}
