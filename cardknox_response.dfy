/**
 * `CardknoxResponse`: the gateway's reply, a collection of key/value pairs, lifted into a record.
 * Each field is copied from its key when the key is present and is null otherwise.
 */
module CardknoxResponses {
  import opened Wrappers
  import opened Text

  /**
   * The reply as the indexer sees it: each key present with the value `_values[key]` returns
   * (null for a key present without a value).
   */
  type ResponseValues = map<string, NetString>

  datatype CardknoxResponse = CardknoxResponse(
    result: NetString, error: NetString, status: NetString, errorCode: NetString,
    refNum: NetString, authCode: NetString, batch: NetString, avsResultCode: NetString,
    avsResult: NetString, authAmount: Option<real>, maskedCardNumber: NetString,
    cardType: NetString, token: NetString, entryMethod: NetString)

  /** The exception the constructor lets through: Decimal.Parse rejected `xAuthAmount`. */
  datatype ResponseFailure = AuthAmountNotDecimal

  /** The value under `k`, or null when the key is absent: the property is then never set. */
  function Get(values: ResponseValues, k: string): NetString {
    if k in values then values[k] else None
  }

  /** The keys copied into a field unchanged. */
  const CopiedKeys: seq<string> := [
    "xResult", "xError", "xErrorCode", "xStatus", "xRefNum", "xAuthCode", "xBatch",
    "xAvsResultCode", "xMaskedCardNumber", "xCardType", "xToken", "xEntryMethod"]

  /** Every key the constructor looks at. */
  const ResponseKeys: seq<string> := CopiedKeys + ["xAvsResult", "xAuthAmount"]

  /** The field that key `k` of `CopiedKeys` is copied into. */
  function CopiedField(r: CardknoxResponse, k: string): NetString
    requires k in CopiedKeys
  {
    match k
    case "xResult" => r.result
    case "xError" => r.error
    case "xErrorCode" => r.errorCode
    case "xStatus" => r.status
    case "xRefNum" => r.refNum
    case "xAuthCode" => r.authCode
    case "xBatch" => r.batch
    case "xAvsResultCode" => r.avsResultCode
    case "xMaskedCardNumber" => r.maskedCardNumber
    case "xCardType" => r.cardType
    case "xToken" => r.token
    case _ => r.entryMethod
  }

  /**
   * The constructor. `urlDecode` stands for HttpUtility.UrlDecode and `parseDecimal` for
   * Decimal.Parse, which fails (`None`) on a null or malformed value.
   */
  function FromValues(values: ResponseValues, urlDecode: NetString -> NetString,
                      parseDecimal: NetString -> Option<real>): Result<CardknoxResponse, ResponseFailure>
  {
    if "xAuthAmount" in values && parseDecimal(values["xAuthAmount"]).None? then
      Failure(AuthAmountNotDecimal)
    else
      Success(CardknoxResponse(
        result := Get(values, "xResult"),
        error := Get(values, "xError"),
        status := Get(values, "xStatus"),
        errorCode := Get(values, "xErrorCode"),
        refNum := Get(values, "xRefNum"),
        authCode := Get(values, "xAuthCode"),
        batch := Get(values, "xBatch"),
        avsResultCode := Get(values, "xAvsResultCode"),
        avsResult := if "xAvsResult" in values then urlDecode(values["xAvsResult"]) else None,
        authAmount := if "xAuthAmount" in values then parseDecimal(values["xAuthAmount"]) else None,
        maskedCardNumber := Get(values, "xMaskedCardNumber"),
        cardType := Get(values, "xCardType"),
        token := Get(values, "xToken"),
        entryMethod := Get(values, "xEntryMethod")))
  }

  /** The constructor throws exactly when `xAuthAmount` is present and does not parse. */
  lemma ThrowsOnlyOnAuthAmount(values: ResponseValues, urlDecode: NetString -> NetString,
                               parseDecimal: NetString -> Option<real>)
    ensures FromValues(values, urlDecode, parseDecimal).Failure? <==>
      "xAuthAmount" in values && parseDecimal(values["xAuthAmount"]).None?
  {
  }

  /**
   * On success, each copied field holds its key's value when the key is present and null when
   * it is absent; `AvsResult` is the decoded `xAvsResult`; and `AuthAmount` is null exactly when
   * `xAuthAmount` is absent, the parsed amount otherwise.
   */
  lemma FieldsFromKeys(values: ResponseValues, urlDecode: NetString -> NetString,
                       parseDecimal: NetString -> Option<real>)
    requires FromValues(values, urlDecode, parseDecimal).Success?
    ensures var r := FromValues(values, urlDecode, parseDecimal).value;
      (forall k | k in CopiedKeys ::
         (k in values ==> CopiedField(r, k) == values[k]) && (k !in values ==> CopiedField(r, k).None?)) &&
      (r.authAmount.None? <==> "xAuthAmount" !in values) &&
      ("xAuthAmount" in values ==> Some(r.authAmount.value) == parseDecimal(values["xAuthAmount"])) &&
      ("xAvsResult" in values ==> r.avsResult == urlDecode(values["xAvsResult"])) &&
      ("xAvsResult" !in values ==> r.avsResult.None?)
  {
    var r := FromValues(values, urlDecode, parseDecimal).value;
    forall k | k in CopiedKeys
      ensures (k in values ==> CopiedField(r, k) == values[k]) && (k !in values ==> CopiedField(r, k).None?)
    {
    }
  }

  /** Keys outside `ResponseKeys` have no effect: replies that agree on those keys give the same outcome. */
  lemma OtherKeysIgnored(v1: ResponseValues, v2: ResponseValues, urlDecode: NetString -> NetString,
                         parseDecimal: NetString -> Option<real>)
    requires forall k | k in ResponseKeys :: (k in v1 <==> k in v2) && (k in v1 ==> v1[k] == v2[k])
    ensures FromValues(v1, urlDecode, parseDecimal) == FromValues(v2, urlDecode, parseDecimal)
  {
    assert forall k | k in ResponseKeys :: Get(v1, k) == Get(v2, k);
  }
}
