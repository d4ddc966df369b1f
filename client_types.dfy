/** The entities the client's decision core works with. Curve keys, the
    transport and the guid generator are opaque here: the model records only
    which one was chosen and from what. */
module ClientTypes {
  import opened Wrappers

  /** The authorisation scopes a token can be issued for. */
  datatype Facade = Merchant | Payout | Pos

  /** Ways construction can fail. `ConfigFileNotFound` and `ConfigReadError`
      are the two messages the config-file path raises; `MissingEcKey` is the
      config key lookup's own error; `MalformedConfig` stands for the
      TypeError of reading a field of a missing object; `InvalidKey` is the
      curve library rejecting the key material. */
  datatype ClientError =
    | ConfigFileNotFound
    | ConfigReadError
    | MissingEcKey
    | MalformedConfig
    | InvalidKey

  /** The key pair the curve library derives from `material`. The curve
      arithmetic is not modelled; the pair is identified by its source text. */
  datatype KeyPair = KeyPair(material: string)

  /** The client's transport: one injected by a test, or one built here from
      a base URL, an optional key pair (with the identity derived from it) and
      the platform information string. */
  datatype Transport =
    | InjectedTransport(id: nat)
    | RemoteTransport(baseUrl: string, key: Option<KeyPair>, platformInfo: Option<string>)

  /** The guid generator in use: one injected by a test, or a default one. */
  datatype GuidSource = InjectedGuids(id: nat) | DefaultGuids

  /** The values of `Env.Test`, `Env.TestUrl`, `Env.ProdUrl` and
      `Environment.Prod`: `test` is compared with the upper-cased environment
      name, `prod` is the environment used when none is given. */
  datatype EnvConstants = EnvConstants(test: string, testUrl: string, prodUrl: string, prod: string)

  /** One environment's entry in the configuration file: its token map and
      the `PrivateKeyPath` and `PrivateKey` fields (None when the field is absent). */
  datatype EnvConfig = EnvConfig(
    apiTokens: map<Facade, string>,
    privateKeyPath: Option<string>,
    privateKey: Option<string>)

  /** The `BitPayConfiguration` object of a configuration file. */
  datatype ConfigFile = ConfigFile(environment: string, envConfig: map<string, EnvConfig>)

  /** What the client observes of its surroundings: the files that exist and
      their contents, the parse of a file's contents (absent when the text is
      not JSON, or lacks `BitPayConfiguration` or its `EnvConfig` object), and
      the key materials the curve library accepts. */
  datatype Host = Host(
    files: map<string, string>,
    configs: map<string, ConfigFile>,
    validKeys: set<string>)
}
