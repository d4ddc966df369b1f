/** The client object: its token container, transport and guid generator,
    the constructor that sets them up, and the calls whose facade, signing
    and idempotency token the client decides before handing them on. */
module ClientModel {
  import opened Wrappers
  import opened JsString
  import opened ClientTypes
  import opened FacadePolicy
  import opened KeySource
  import opened Construction

  /** The token store: one token per facade. */
  class TokenContainer {
    var tokens: map<Facade, string>

    constructor (initial: map<Facade, string>)
      ensures tokens == initial
    {
      tokens := initial;
    }

    function IsTokenExist(f: Facade): (b: bool)
      reads this
      ensures b <==> f in tokens
    {
      f in tokens
    }

    function GetToken(f: Facade): (r: Option<string>)
      reads this
      ensures r.Some? <==> f in tokens
      ensures r.Some? ==> r.value == tokens[f]
    {
      if f in tokens then Some(tokens[f]) else None
    }

    /** Installs the Pos token, replacing any earlier one; every other
      facade keeps its token. */
    method AddPos(token: string)
      modifies this
      ensures tokens == old(tokens)[Pos := token]
    {
      tokens := tokens[Pos := token];
    }
  }

  /** An invoice request: its idempotency token and its other fields. */
  class Invoice {
    var token: Option<string>
    var fields: map<string, string>

    constructor (token: Option<string>, fields: map<string, string>)
      ensures this.token == token && this.fields == fields
    {
      this.token := token;
      this.fields := fields;
    }
  }

  /** A bill request; the client only passes it on. */
  datatype Bill = Bill(fields: map<string, string>)

  /** The endpoint a call goes to, with its arguments. */
  datatype Endpoint =
    | CreateInvoiceCall(invoice: Invoice)
    | GetInvoiceCall(invoiceId: string)
    | GetInvoiceByGuidCall(guid: string)
    | CreateBillCall(bill: Bill)
    | GetBillCall(billId: string)
    | DeliverBillCall(billId: string, billToken: string)

  /** A call handed to a resource client: the endpoint, the facade passed
      along (None when the resource client takes none) and whether it is signed. */
  datatype Call = Call(endpoint: Endpoint, facade: Option<Facade>, signRequest: bool)

  /** The facade and signing of `call` are the caller's where given and the
      store's defaults otherwise. */
  ghost predicate Defaulted(facade: Option<Facade>, signRequest: Option<bool>, tokens: map<Facade, string>, call: Call) {
    && call.facade == Some(ResolveFacade(facade, tokens))
    && call.signRequest == ResolveSign(signRequest, ResolveFacade(facade, tokens))
  }

  /** The idempotency token `createInvoice` submits: the invoice's own when
      it is a non-empty string, the fresh guid otherwise. */
  function FillToken(token: Option<string>, guid: string): (r: string)
    ensures IsTruthy(token) ==> Some(r) == token
    ensures !IsTruthy(token) ==> r == guid
  {
    if IsTruthy(token) then token.value else guid
  }

  /** Once filled with a non-empty guid, a token is never replaced again. */
  lemma FillTokenIdempotent(token: Option<string>, guid: string, guid': string)
    requires guid != ""
    ensures FillToken(Some(FillToken(token, guid)), guid') == FillToken(token, guid)
  {
  }

  /** An empty guid would not stick: the next fill replaces it. */
  lemma EmptyGuidDoesNotStick(guid': string)
    ensures FillToken(Some(FillToken(None, "")), guid') == guid'
  {
  }

  class Client {
    var bitPayClient: Transport
    var guidGenerator: GuidSource
    var tokenContainer: TokenContainer

    /** `initForTests`: the three fields are set from the given values. */
    constructor (bitPayClient: Transport, guidGenerator: GuidSource, tokenContainer: TokenContainer)
      ensures this.bitPayClient == bitPayClient
      ensures this.guidGenerator == guidGenerator
      ensures this.tokenContainer == tokenContainer
    {
      this.bitPayClient := bitPayClient;
      this.guidGenerator := guidGenerator;
      this.tokenContainer := tokenContainer;
    }

    /** What the client holds, as a value. */
    function State(): ClientState
      reads this, tokenContainer
    {
      ClientState(tokenContainer.tokens, bitPayClient, guidGenerator)
    }

    /** `initByConfigFilePath`: a client built from the configuration file's
      token map and key, with a container of its own. */
    static method NewByConfigFile(configFilePath: string, platformInfo: Option<string>, host: Host, consts: EnvConstants)
      returns (r: Result<Client, ClientError>)
      ensures var want := InitByConfigFilePath(configFilePath, platformInfo, host, consts);
        && (r.Success? <==> want.Success?)
        && (r.Success? ==> fresh(r.value) && fresh(r.value.tokenContainer) && r.value.State() == want.value)
        && (r.Failure? ==> r.error == want.error)
    {
      var s := InitByConfigFilePath(configFilePath, platformInfo, host, consts);
      if s.Failure? {
        return Failure(s.error);
      }
      var container := new TokenContainer(s.value.tokens);
      var c := new Client(s.value.transport, s.value.guids, container);
      return Success(c);
    }

    /** The constructor, in its corrected form: unlike line 63 of the source,
      the config-file path is given the caller's `platformInfo` (the
      as-written behaviour is `ConstructAsWritten`). A config file path takes
      the config path and leaves the caller's container alone; a test
      transport takes the test path; a private key is loaded; otherwise the
      client has no key and a Pos token, if given, is added to the container,
      which may be the caller's own. Failure leaves no client and the caller's
      container as it was. */
    static method New(
      configFilePath: Option<string>,
      privateKey: Option<string>,
      tokenContainer: TokenContainer?,
      posToken: Option<string>,
      environment: Option<string>,
      platformInfo: Option<string>,
      bitPayClient: Option<nat>,
      guidGenerator: Option<GuidSource>,
      host: Host,
      consts: EnvConstants) returns (r: Result<Client, ClientError>)
      modifies tokenContainer
      ensures
        var given := if tokenContainer == null then None else Some(old(tokenContainer.tokens));
        var want := Construct(
          Args(configFilePath, privateKey, given, posToken, environment, platformInfo, bitPayClient, guidGenerator),
          host, consts);
        && (r.Success? <==> want.Success?)
        && (r.Success? ==> fresh(r.value) && r.value.State() == want.value)
        && (r.Failure? ==> r.error == want.error)
      ensures r.Success? && configFilePath.None? && tokenContainer != null ==>
        r.value.tokenContainer == tokenContainer
      ensures r.Success? && (configFilePath.Some? || tokenContainer == null) ==>
        fresh(r.value.tokenContainer)
      ensures r.Failure? && tokenContainer != null ==> tokenContainer.tokens == old(tokenContainer.tokens)
      ensures configFilePath.Some? && tokenContainer != null ==> tokenContainer.tokens == old(tokenContainer.tokens)
    {
      ghost var args := Args(configFilePath, privateKey,
        if tokenContainer == null then None else Some(tokenContainer.tokens),
        posToken, environment, platformInfo, bitPayClient, guidGenerator);
      ghost var want := Construct(args, host, consts);
      if configFilePath.Some? {
        assert want == InitByConfigFilePath(configFilePath.value, platformInfo, host, consts);
        r := NewByConfigFile(configFilePath.value, platformInfo, host, consts);
        return;
      }

      var container := tokenContainer;
      if container == null {
        container := new TokenContainer(map[]);
      }
      assert container.tokens == GivenTokens(args);

      if bitPayClient.Some? {
        var guids := if guidGenerator.Some? then guidGenerator.value else DefaultGuids;
        assert want == Success(ClientState(container.tokens, InjectedTransport(bitPayClient.value), guids));
        var c := new Client(InjectedTransport(bitPayClient.value), guids, container);
        return Success(c);
      }

      var env := if environment.Some? then environment.value else consts.prod;
      var url := ClientStatics.BaseUrl(env, consts);

      if privateKey.Some? {
        var key := EcKeyByPrivateKey(privateKey.value, host);
        if key.Failure? {
          assert want == Failure(key.error);
          return Failure(key.error);
        }
        assert want == Success(ClientState(container.tokens, RemoteTransport(url, Some(key.value), platformInfo), DefaultGuids));
        var c := new Client(RemoteTransport(url, Some(key.value), platformInfo), DefaultGuids, container);
        return Success(c);
      }

      var c := new Client(RemoteTransport(url, None, platformInfo), DefaultGuids, container);
      if posToken.Some? {
        container.AddPos(posToken.value);
      }
      assert want == Success(ClientState(container.tokens, RemoteTransport(url, None, platformInfo), DefaultGuids));
      return Success(c);
    }

    function GetToken(f: Facade): (r: Option<string>)
      reads this, tokenContainer
      ensures r.Some? <==> f in tokenContainer.tokens
      ensures r.Some? ==> r.value == tokenContainer.tokens[f]
    {
      tokenContainer.GetToken(f)
    }

    /** `getFacadeBasedOnTokenContainer`. */
    function FacadeBasedOnTokenContainer(): (f: Facade)
      reads this, tokenContainer
      ensures f == Merchant <==> tokenContainer.IsTokenExist(Merchant)
      ensures f != Payout
    {
      DefaultFacade(tokenContainer.tokens)
    }

    /** `createInvoice`: defaults facade and signing, and fills the
      invoice's token in place when it is empty or absent. */
    method CreateInvoice(invoice: Invoice, facade: Option<Facade>, signRequest: Option<bool>, guid: string)
      returns (call: Call)
      modifies invoice`token
      ensures call.endpoint == CreateInvoiceCall(invoice)
      ensures Defaulted(facade, signRequest, tokenContainer.tokens, call)
      ensures invoice.token == Some(FillToken(old(invoice.token), guid))
      ensures invoice.fields == old(invoice.fields)
    {
      var f := ResolveFacade(facade, tokenContainer.tokens);
      var sign := ResolveSign(signRequest, f);
      invoice.token := if IsTruthy(invoice.token) then invoice.token else Some(guid);
      call := Call(CreateInvoiceCall(invoice), Some(f), sign);
    }

    method GetInvoice(invoiceId: string, facade: Option<Facade>, signRequest: Option<bool>) returns (call: Call)
      ensures call.endpoint == GetInvoiceCall(invoiceId)
      ensures Defaulted(facade, signRequest, tokenContainer.tokens, call)
    {
      var f := ResolveFacade(facade, tokenContainer.tokens);
      var sign := ResolveSign(signRequest, f);
      call := Call(GetInvoiceCall(invoiceId), Some(f), sign);
    }

    method GetInvoiceByGuid(guid: string, facade: Option<Facade>, signRequest: Option<bool>) returns (call: Call)
      ensures call.endpoint == GetInvoiceByGuidCall(guid)
      ensures Defaulted(facade, signRequest, tokenContainer.tokens, call)
    {
      var f := ResolveFacade(facade, tokenContainer.tokens);
      var sign := ResolveSign(signRequest, f);
      call := Call(GetInvoiceByGuidCall(guid), Some(f), sign);
    }

    method CreateBill(bill: Bill, facade: Option<Facade>, signRequest: Option<bool>) returns (call: Call)
      ensures call.endpoint == CreateBillCall(bill)
      ensures Defaulted(facade, signRequest, tokenContainer.tokens, call)
    {
      var f := ResolveFacade(facade, tokenContainer.tokens);
      var sign := ResolveSign(signRequest, f);
      call := Call(CreateBillCall(bill), Some(f), sign);
    }

    method GetBill(billId: string, facade: Option<Facade>, signRequest: Option<bool>) returns (call: Call)
      ensures call.endpoint == GetBillCall(billId)
      ensures Defaulted(facade, signRequest, tokenContainer.tokens, call)
    {
      var f := ResolveFacade(facade, tokenContainer.tokens);
      var sign := ResolveSign(signRequest, f);
      call := Call(GetBillCall(billId), Some(f), sign);
    }

    /** `deliverBill` takes no facade or signing choice: it is signed exactly
      when the store holds a Merchant token. */
    method DeliverBill(billId: string, billToken: string) returns (call: Call)
      ensures call.endpoint == DeliverBillCall(billId, billToken) && call.facade.None?
      ensures call.signRequest <==> Merchant in tokenContainer.tokens
    {
      var f := DefaultFacade(tokenContainer.tokens);
      var sign := IsSignRequest(f);
      call := Call(DeliverBillCall(billId, billToken), None, sign);
    }
  }

  /** Calling `createInvoice` a second time on the same invoice leaves its
      token as the first call set it. */
  method CreateInvoiceTwice(client: Client, invoice: Invoice, guid1: string, guid2: string)
    requires guid1 != ""
    modifies invoice`token
    ensures invoice.token == Some(FillToken(old(invoice.token), guid1))
  {
    var first := client.CreateInvoice(invoice, None, None, guid1);
    var second := client.CreateInvoice(invoice, None, None, guid2);
    FillTokenIdempotent(old(invoice.token), guid1, guid2);
  }
}
