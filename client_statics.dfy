/** The client's two static helpers: the base URL an environment name selects,
    and the date part of a timestamp. */
module ClientStatics {
  import opened Wrappers
  import opened JsString
  import opened ClientTypes

  /** `getBaseUrl`: the test URL when the upper-cased environment name is
      `Env.Test`, the production URL otherwise. */
  function BaseUrl(environment: string, consts: EnvConstants): (url: string)
    ensures ToUpper(environment) == consts.test ==> url == consts.testUrl
    ensures ToUpper(environment) != consts.test ==> url == consts.prodUrl
  {
    if ToUpper(environment) == consts.test then consts.testUrl else consts.prodUrl
  }

  /** The environment name is matched without regard to letter case. */
  lemma BaseUrlIgnoresCase(a: string, b: string, consts: EnvConstants)
    requires EqualIgnoringCase(a, b)
    ensures BaseUrl(a, consts) == BaseUrl(b, consts)
  {
    ToUpperIgnoresCase(a, b);
  }

  /** Since the name is upper-cased before the comparison, a value of
      `Env.Test` holding a lower-case letter is never matched. */
  lemma LowerCaseTestNameNeverMatches(environment: string, consts: EnvConstants, i: int)
    requires 0 <= i < |consts.test| && IsLower(consts.test[i])
    ensures BaseUrl(environment, consts) == consts.prodUrl
  {
    if ToUpper(environment) == consts.test {
      ToUpperHasNoLower(environment, i);
      assert false;
    }
  }

  /** `getDateAsString`, applied to the timestamp's ISO string: null stays
      null, otherwise the text before the first `T`. */
  function DateAsString(iso: Option<string>): (r: Option<string>)
    ensures r.None? <==> iso.None?
    ensures r.Some? ==> r.value == PrefixBefore(iso.value, 'T')
  {
    match iso
    case None => None
    case Some(s) => Some(PrefixBefore(s, 'T'))
  }

  /** For an ISO string `date + "T" + time` the result is `date`, whatever
      the width of its year field. */
  lemma DateAsStringOfIso(date: string, time: string)
    requires 'T' !in date
    ensures DateAsString(Some(date + "T" + time)) == Some(date)
  {
    PrefixBeforeSplit(date, 'T', time);
  }
}
