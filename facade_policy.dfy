/** Which facade a call uses and whether it is signed, when the caller does
    not say. */
module FacadePolicy {
  import opened Wrappers
  import opened ClientTypes

  /** `getFacadeBasedOnTokenContainer`: Merchant when a Merchant token is
      held, Pos otherwise. */
  function DefaultFacade(tokens: map<Facade, string>): (f: Facade)
    ensures f == Merchant <==> Merchant in tokens
    ensures f == Pos <==> Merchant !in tokens
  {
    if Merchant in tokens then Merchant else Pos
  }

  /** `isSignRequest`: only Pos calls go unsigned. */
  function IsSignRequest(f: Facade): (sign: bool)
    ensures sign <==> f == Merchant || f == Payout
  {
    f != Pos
  }

  /** The facade a call uses: the caller's, or the default. */
  function ResolveFacade(given: Option<Facade>, tokens: map<Facade, string>): (f: Facade)
    ensures given.Some? ==> f == given.value
    ensures given.None? ==> f == DefaultFacade(tokens)
  {
    given.GetOr(DefaultFacade(tokens))
  }

  /** Whether a call on facade `f` is signed: the caller's choice, or the
      signing policy of `f`. */
  function ResolveSign(given: Option<bool>, f: Facade): (sign: bool)
    ensures given.Some? ==> sign == given.value
    ensures given.None? ==> sign == IsSignRequest(f)
  {
    given.GetOr(IsSignRequest(f))
  }

  /** Payout is never a default; it has to be asked for. */
  lemma PayoutNeverDefault(given: Option<Facade>, tokens: map<Facade, string>)
    ensures ResolveFacade(given, tokens) == Payout ==> given == Some(Payout)
  {
  }

  /** A call that names neither facade nor signing is signed exactly when the
      store holds a Merchant token. */
  lemma DefaultCallSignedIffMerchant(tokens: map<Facade, string>)
    ensures ResolveSign(None, ResolveFacade(None, tokens)) <==> Merchant in tokens
  {
  }

  /** Explicit choices are passed through whatever the store holds. */
  lemma ExplicitChoicesWin(f: Facade, sign: bool, tokens: map<Facade, string>)
    ensures ResolveFacade(Some(f), tokens) == f
    ensures ResolveSign(Some(sign), ResolveFacade(Some(f), tokens)) == sign
  {
  }
}
