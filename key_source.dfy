/** Where the private key comes from: a file the given value names, or the
    value itself. */
module KeySource {
  import opened Wrappers
  import opened JsString
  import opened ClientTypes

  /** `KeyUtils.load_keypair`: the curve library accepts the material or throws. */
  function LoadKeypair(material: string, host: Host): (r: Result<KeyPair, ClientError>)
    ensures r.Success? <==> material in host.validKeys
    ensures r.Success? ==> r.value == KeyPair(material)
    ensures r.Failure? ==> r.error == InvalidKey
  {
    if material in host.validKeys then Success(KeyPair(material)) else Failure(InvalidKey)
  }

  /** `getEcKeyByPrivateKey`: a value naming an existing file yields that
      file's contents, untrimmed; any other value is used itself, trimmed. */
  function EcKeyByPrivateKey(value: string, host: Host): (r: Result<KeyPair, ClientError>)
    ensures value in host.files ==> r == LoadKeypair(host.files[value], host)
    ensures value !in host.files ==> r == LoadKeypair(Trim(value), host)
  {
    if value in host.files then LoadKeypair(host.files[value], host)
    else LoadKeypair(Trim(value), host)
  }

  /** An inline key may carry white space around it. */
  lemma InlineKeyIgnoresPadding(p: string, v: string, q: string, host: Host)
    requires AllSpace(p) && AllSpace(q)
    requires v !in host.files && p + v + q !in host.files
    ensures EcKeyByPrivateKey(p + v + q, host) == EcKeyByPrivateKey(v, host)
  {
    TrimIgnoresPadding(p, v, q);
  }

  /** `getEcKeyByConfig`: both fields are read (and lose their first double
      quote) before anything else; then an existing `PrivateKeyPath` file
      wins, else a non-empty `PrivateKey` is used trimmed, else the key is
      missing. */
  function EcKeyByConfig(env: EnvConfig, host: Host): (r: Result<KeyPair, ClientError>)
    ensures env.privateKeyPath.None? || env.privateKey.None? ==> r == Failure(MalformedConfig)
    ensures env.privateKeyPath.Some? && env.privateKey.Some? ==>
      var path := ReplaceFirst(env.privateKeyPath.value, '"');
      var hex := ReplaceFirst(env.privateKey.value, '"');
      && (path in host.files ==> r == LoadKeypair(host.files[path], host))
      && (path !in host.files && hex != "" ==> r == LoadKeypair(Trim(hex), host))
      && (path !in host.files && hex == "" ==> r == Failure(MissingEcKey))
  {
    if env.privateKeyPath.None? || env.privateKey.None? then
      Failure(MalformedConfig)
    else
      var path := ReplaceFirst(env.privateKeyPath.value, '"');
      var hex := ReplaceFirst(env.privateKey.value, '"');
      if path in host.files then LoadKeypair(host.files[path], host)
      else if hex != "" then LoadKeypair(Trim(hex), host)
      else Failure(MissingEcKey)
  }

  /** The key is reported missing exactly when both fields are present, the
      path names no file and the key field is empty or a lone quote. */
  lemma MissingEcKeyExactly(env: EnvConfig, host: Host)
    ensures EcKeyByConfig(env, host) == Failure(MissingEcKey) <==>
      && env.privateKeyPath.Some? && env.privateKey.Some?
      && ReplaceFirst(env.privateKeyPath.value, '"') !in host.files
      && ReplaceFirst(env.privateKey.value, '"') == ""
  {
  }

  /** A `PrivateKey` written as a lone double quote counts as missing. */
  lemma LoneQuoteKeyIsMissing(path: string, tokens: map<Facade, string>, host: Host)
    requires ReplaceFirst(path, '"') !in host.files
    ensures EcKeyByConfig(EnvConfig(tokens, Some(path), Some("\"")), host) == Failure(MissingEcKey)
  {
    assert "\"" == [] + ['"'] + [];
    ReplaceFirstAt([], '"', []);
  }

  /** A `PrivateKeyPath` wrapped in double quotes is looked up with its
      closing quote kept, so the file it names is not found. */
  lemma QuotedPathMissesFile(t: string, tokens: map<Facade, string>, host: Host)
    requires t in host.files && t + "\"" !in host.files
    ensures EcKeyByConfig(EnvConfig(tokens, Some("\"" + t + "\""), Some("")), host) == Failure(MissingEcKey)
  {
    QuotedKeepsClosingQuote(t);
  }
}
