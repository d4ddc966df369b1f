# BitPay Node.js client: the decision core of `Client`

This project models the part of the BitPay client's `Client` class that
decides things rather than forwarding them. That part covers:

- which initialisation path the constructor takes (config file, test injection, private key, or no key);
- what ends up in the client's token container;
- where the private key material comes from;
- which facade (Merchant, Payout, Pos) a call uses and whether it is signed;
- how `createInvoice` fills in the invoice's idempotency token;
- the two static helpers `getBaseUrl` and `getDateAsString`.

The JavaScript string operations the source relies on are written out as
ECMAScript defines them in module `JsString`: `trim`, `replace` with a
one-character pattern, `toUpperCase` and `split('T')[0]`. Properties about
them are proved, because the key-source and URL rules depend on their exact
behaviour.

Modules:

- `Wrappers`: Option (a value that may be null/undefined) and Result (returns or throws).
- `JsString`: the string operations above, with lemmas that characterise them.
- `ClientTypes`: facades, errors, the opaque key pair, transport and guid generator, and the configuration file's shape. `Host` stands for file existence, file contents, JSON parsing and curve-key acceptance.
- `FacadePolicy`: the default facade, the signing policy and request defaulting.
- `KeySource`: `getEcKeyByPrivateKey` and `getEcKeyByConfig`.
- `ClientStatics`: `getBaseUrl` and `getDateAsString`.
- `Construction`: the constructor as a pure state machine over its arguments (`Construct`), with the precedence lemmas.
- `ClientModel`: the classes `TokenContainer`, `Invoice` and `Client`. `Client.New` runs the constructor step by step on objects and is proved equal to `Construct`, the corrected constructor of the finding below: unlike line 63 of `src/Client.ts`, it hands `platformInfo` to the config-file path. It also mutates a caller-supplied container in place. The call methods return the `Call` handed to the resource client.

The values of `Env.Test`, `Env.TestUrl`, `Env.ProdUrl` and `Environment.Prod` live in files that are not part of this model. The model therefore takes them as a parameter, `EnvConstants`.

## Model

| member | source | states |
|---|---|---|
| `FacadePolicy.DefaultFacade` | src/Client.ts:808-814 | the default facade is Merchant exactly when a Merchant token is held, and Pos exactly when none is |
| `FacadePolicy.PayoutNeverDefault` | src/Client.ts:808-814 | a resolved facade is Payout only when the caller asked for Payout |
| `FacadePolicy.IsSignRequest` | src/Client.ts:816-818 | Merchant and Payout calls are signed, and only those: a call is unsigned exactly when its facade is Pos |
| `FacadePolicy.ResolveFacade` | src/Client.ts:178-180 | an explicit facade is passed through; an omitted one becomes the store's default |
| `FacadePolicy.ResolveSign` | src/Client.ts:182-184 | an explicit sign flag is passed through; an omitted one follows the facade's signing policy |
| `FacadePolicy.DefaultCallSignedIffMerchant` | src/Client.ts:178-184 | a call naming neither facade nor sign flag is signed exactly when a Merchant token is held |
| `FacadePolicy.ExplicitChoicesWin` | src/Client.ts:178-184 | explicit facade and sign flag are used whatever the store holds |
| `KeySource.LoadKeypair` | src/Client.ts:734 | the curve library either accepts the material, giving the key pair for it, or fails with InvalidKey |
| `KeySource.EcKeyByPrivateKey` | src/Client.ts:731-738 | a value naming an existing file loads that file's contents untrimmed; any other value loads its own trimmed text |
| `KeySource.InlineKeyIgnoresPadding` | src/Client.ts:737 | white space around an inline key (not naming a file) does not change the key loaded |
| `KeySource.EcKeyByConfig` | src/Client.ts:740-754 | if either field is absent, the result is a malformed-config error. Both fields lose their first double quote. An existing path file wins. Otherwise a non-empty `PrivateKey` is loaded trimmed. Otherwise the result is MissingEcKey |
| `KeySource.MissingEcKeyExactly` | src/Client.ts:740-754 | MissingEcKey happens exactly when both fields are present, the de-quoted path names no file, and the de-quoted key is empty |
| `KeySource.LoneQuoteKeyIsMissing` | src/Client.ts:742-752 | a `PrivateKey` consisting of one double quote counts as missing |
| `KeySource.QuotedPathMissesFile` | src/Client.ts:741-744 | a `PrivateKeyPath` wrapped in quotes is looked up with the closing quote kept, so the quoted file is not found |
| `ClientStatics.BaseUrl` | src/Client.ts:756-758 | the test URL when the upper-cased environment name equals `Env.Test`, the production URL otherwise |
| `ClientStatics.BaseUrlIgnoresCase` | src/Client.ts:757 | environment names differing only in letter case select the same URL |
| `ClientStatics.LowerCaseTestNameNeverMatches` | src/Client.ts:757 | if `Env.Test` contains a lower-case letter, every environment selects the production URL |
| `ClientStatics.DateAsString` | src/Client.ts:820-825 | null maps to null; otherwise the result is the ISO string's text before its first `T` |
| `ClientStatics.DateAsStringOfIso` | src/Client.ts:824 | for `date + "T" + time` with no `T` in `date` the result is `date` |
| `JsString.TrimStart` | src/Client.ts:737 | the result is a suffix with only white space dropped and no leading white space |
| `JsString.TrimEnd` | src/Client.ts:737 | the result is a prefix with only white space dropped and no trailing white space |
| `JsString.Trim` | src/Client.ts:737 | the result has no white space at either end |
| `JsString.TrimParts` | src/Client.ts:737 | every string is its trimmed form with white space before and after |
| `JsString.TrimUnique` | src/Client.ts:737 | trimming an unpadded core with white space around it gives back exactly that core |
| `JsString.TrimIgnoresPadding` | src/Client.ts:737 | added surrounding white space does not change the trimmed form |
| `JsString.TrimIdempotent` | src/Client.ts:737 | trimming twice equals trimming once |
| `JsString.ReplaceFirst` | src/Client.ts:741-742 | one character is removed when the pattern occurs, none otherwise |
| `JsString.ReplaceFirstAbsent` | src/Client.ts:741-742 | a string without the character is left unchanged |
| `JsString.ReplaceFirstAt` | src/Client.ts:741-742 | the occurrence removed is the first; everything after it, later quotes included, is kept |
| `JsString.QuotedKeepsClosingQuote` | src/Client.ts:741-742 | a quoted value keeps its closing quote |
| `JsString.IsTruthy` | src/Client.ts:748 | as in the tests at lines 186 and 748, a value is truthy only when present, and a present string is truthy exactly when it is non-empty |
| `JsString.UpperChar` | src/Client.ts:757 | lower-case ASCII letters map to upper case; other characters are unchanged; no result is lower case |
| `JsString.ToUpper` | src/Client.ts:757 | same length, upper-cased character by character |
| `JsString.ToUpperIgnoresCase` | src/Client.ts:757 | strings that differ only in letter case upper-case to the same string |
| `JsString.ToUpperHasNoLower` | src/Client.ts:757 | an upper-cased string contains no lower-case letter |
| `JsString.PrefixBefore` | src/Client.ts:824 | the result is a prefix without the separator, ending at the end of input or just before the first separator |
| `JsString.PrefixBeforeSplit` | src/Client.ts:824 | for `d + sep + t` with no `sep` in `d` the result is `d` |
| `Construction.Dispatch` | src/Client.ts:62-84 | the config path is taken exactly when a path is given; the test path only with a test transport; the key path only with a key and no test transport |
| `Construction.DispatchPrecedence` | src/Client.ts:62-104 | config path beats test injection, which beats private key, which beats the no-key path; each path is taken exactly under its condition |
| `Construction.InitByConfigFilePath` | src/Client.ts:827-849 | a missing file yields ConfigFileNotFound and nothing else does. Every later failure becomes ConfigReadError. Success happens exactly when the file parses, names an environment with an entry, and that entry's key loads. Then the tokens are the entry's `ApiTokens`, and the transport has that entry's key, the URL for the file's environment, and the given platform information. The guid generator is the default one |
| `Construction.GivenTokens` | src/Client.ts:67-69 | a null container is replaced by an empty one; otherwise the caller's tokens are used |
| `Construction.Construct` | src/Client.ts:52-105 | the constructor, corrected to forward platform information: every transport it builds carries the caller's `platformInfo`. On the test path the transport is the injected one, and the guid generator is the injected one or else the default. On the private-key path the key loaded succeeds and is the transport's key. Both remote paths use the URL of `environment`, defaulting to `Environment.Prod`, and the default guid generator |
| `Construction.ConstructAsWritten` | src/Client.ts:62-63 | as written, a client built from a config file has no platform information. In everything else (success, error, tokens, key, URL, guid generator) it agrees with `Construct`, and off the config path it equals `Construct` |
| `Construction.ConfigPathDropsPlatformInfoExample` | src/Client.ts:62-63 | a concrete readable config and platform string for which the as-written constructor loses the string and the corrected one keeps it |
| `Construction.ConfigFileOverridesArguments` | src/Client.ts:62-65 | with a config path, no argument other than that path and `platformInfo` affects the outcome |
| `Construction.TokensAfterConstruction` | src/Client.ts:67-104 | outside the config path, the client holds the given tokens. The Pos token is added exactly when there is no test transport and no private key |
| `Construction.PrivateKeyExcludesPosToken` | src/Client.ts:84-95 | with a private key, the token store is the given one (no Pos token inserted) and the transport has a key |
| `Construction.NullContainerStartsEmpty` | src/Client.ts:67-69 | a null container becomes an empty one: afterwards at most a Pos token is held, and only on the no-key path with a Pos token |
| `Construction.DirectConstructionFailsOnlyOnKey` | src/Client.ts:71-104 | outside the config path, construction fails exactly when a private key is given and cannot be loaded, and then with InvalidKey |
| `Construction.InnerErrorsDoNotEscape` | src/Client.ts:832-848 | MissingEcKey and MalformedConfig never escape the constructor |
| `Construction.CreatePosClient` | src/Client.ts:112-114 | `createPosClient` takes the no-key path with the given Pos token, a null container, and the given environment and platform information |
| `Construction.CreateClientByConfig` | src/Client.ts:121-123 | `createClientByConfig` takes the config path with the given path and passes its `platformInfo` on |
| `Construction.CreateClientByPrivateKey` | src/Client.ts:131-138 | `createClientByPrivateKey` takes the private-key path with the given key, tokens, environment and platform information |
| `Construction.PosOnlyClient` | src/Client.ts:97-104 | a Pos-only client holds just the Pos token and no key; its default calls are Pos and unsigned |
| `Construction.MerchantKeyClient` | src/Client.ts:84-95 | a client with a loadable key and a Merchant token has the key; its default calls are Merchant and signed |
| `ClientModel.TokenContainer.constructor` | src/Client.ts:67-68 | the new container holds exactly the given tokens |
| `ClientModel.TokenContainer.IsTokenExist` | src/Client.ts:809 | true exactly when the store has a token for the facade |
| `ClientModel.TokenContainer.GetToken` | src/Client.ts:140-142 | the facade's token when present, none otherwise |
| `ClientModel.TokenContainer.AddPos` | src/Client.ts:101-102 | the Pos entry is set (last write wins); every other facade's token is unchanged |
| `ClientModel.FillToken` | src/Client.ts:186 | a non-empty existing token is kept; an empty or absent one is replaced by the guid |
| `ClientModel.FillTokenIdempotent` | src/Client.ts:186 | after a fill with a non-empty guid, a second fill never changes the token |
| `ClientModel.EmptyGuidDoesNotStick` | src/Client.ts:186 | an empty guid would be replaced by the next fill: idempotence relies on guids being non-empty |
| `ClientModel.Client.constructor` | src/Client.ts:851-855 | `initForTests`: the transport, guid generator and container are the given ones |
| `ClientModel.Client.NewByConfigFile` | src/Client.ts:827-849 | on success the client's state is exactly that of `InitByConfigFilePath`, in a fresh container; on failure the error is `InitByConfigFilePath`'s error |
| `ClientModel.Client.New` | src/Client.ts:52-105 | the corrected constructor, which also hands `platformInfo` to the config path: the client's state is `Construct` of the arguments, and a failure is `Construct`'s error. Outside the config path the client keeps the caller's container object, so the Pos token lands in it. On failure, and on the config path, the caller's container is unchanged |
| `ClientModel.Client.GetToken` | src/Client.ts:140-142 | the container's token for the facade |
| `ClientModel.Client.FacadeBasedOnTokenContainer` | src/Client.ts:808-814 | Merchant exactly when the container has a Merchant token; never Payout |
| `ClientModel.Client.CreateInvoice` | src/Client.ts:173-189 | facade and sign flag are defaulted only where omitted. The invoice's token is filled in place per `FillToken`. Its other fields are untouched, and the call carries the same invoice |
| `ClientModel.Client.GetInvoice` | src/Client.ts:198-208 | facade and sign flag are the caller's where given and the defaults otherwise |
| `ClientModel.Client.GetInvoiceByGuid` | src/Client.ts:218-228 | facade and sign flag are the caller's where given and the defaults otherwise |
| `ClientModel.Client.CreateBill` | src/Client.ts:606-616 | facade and sign flag are the caller's where given and the defaults otherwise |
| `ClientModel.Client.GetBill` | src/Client.ts:626-636 | facade and sign flag are the caller's where given and the defaults otherwise |
| `ClientModel.Client.DeliverBill` | src/Client.ts:666-671 | no facade is passed on; the call is signed exactly when a Merchant token is held |
| `ClientModel.CreateInvoiceTwice` | src/Client.ts:186 | two `createInvoice` calls on one invoice leave the token as the first call set it |

## Left out

- Elliptic-curve work: parsing key material, deriving the public key and the identity, and signing (`KeyUtils.load_keypair`, `getIdentity`). This is library code. A key pair is identified by its source text, and the identity is taken to follow from it.
- Filesystem and JSON: `fs.existsSync`, `fs.readFileSync`, `JSON.parse`. These are I/O and library parsing, modelled by the `Host` maps. A path that exists but cannot be read (a directory, say) is not modelled.
- `Host` is unconstrained: nothing stops its file map from containing the empty path, although `fs.existsSync('')` is false in Node. With such a host, an empty `PrivateKeyPath` would load that file instead of the inline key (lines 744-749). Real hosts never list the empty path.
- `Buffer.from(value).toString()`: the UTF-8 round trip is the identity on Dafny strings, whose characters are Unicode scalar values. Lone surrogates do not arise.
- `toUpperCase`: only ASCII letters are case-mapped. Non-ASCII case mappings belong to the Unicode tables, not to this client.
- `TokenContainer` internals: the class's source is not part of this model. The container is a map from facade to token, and a missing `ApiTokens` entry is taken as an empty map. How `new TokenContainer(tokens)` reads the configuration's keys is not modelled.
- Guid generation (`GuidGenerator.execute`): this is randomness, so the guid is an input of `CreateInvoice`. The injected and default generators are recorded but not distinguished further.
- The transport and resource clients (`BitPayClient`, `InvoiceClient`, `BillClient`, ...) and every endpoint that only forwards its arguments. This is network plumbing; the model stops at the `Call` handed to the resource client.
- `BitPayExceptionProvider`: only the fact of failure and its message kind are modelled, not the exception objects. `throwGenericExceptionWithMessage` is taken to throw, as its name and the `throw new Error()` after its call in `src/Client.ts` line 753 indicate. Its source is not part of this model.
- `TokenContainer.getToken` on a facade without a token: the container's source is not part of this model, so whether it throws is unknown. `GetToken` returns no value in that case.
- `Date.prototype.toISOString`: the model starts from the ISO string. The conversion, and the RangeError it throws for an invalid `Date` (which `getDateAsString` at line 824 lets through), are not modelled.
- `PrivateKey.getValue()` and `PosToken.getValue()` (lines 732 and 102): their classes are not part of this model. Each is taken to return the string it wraps.
- Concurrency: the async methods are modelled as synchronous steps. The decision core does not suspend.

## Findings

| source | as written | input that shows it | evidently intended | confidence | as-written member | corrected member |
|---|---|---|---|---|---|---|
| src/Client.ts:62-63 | the constructor calls `initByConfigFilePath(configFilePath)` without `platformInfo`, so `createClientByConfig(path, platformInfo)` builds a transport with no platform information | `createClientByConfig("bitpay.json", "plugin")` with a readable config file (`ConfigPathDropsPlatformInfoExample`) | `initByConfigFilePath(configFilePath, platformInfo)`: its signature at line 827 accepts the value, and `createClientByConfig` passes it | not executed | `Construction.ConstructAsWritten` | `Construction.Construct` (the form `ClientModel.Client.New` follows) |
