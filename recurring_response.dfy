/**
 * `RecurringResponse`: the recurring endpoint's reply lifted into a customer record. Raw result
 * and status strings are kept; their enum values are set only when they parse. The enum types,
 * dates and report rows are left abstract (type parameters), as are the library parsers.
 */
module RecurringResponses {
  import opened Wrappers
  import opened Text
  import opened Fields

  /** The reply: a Dictionary<string, string> as a map. */
  type RecurringValues = map<string, NetString>

  const AllParts: set<AddressPart> :=
    {FirstName, MiddleName, LastName, Company, Street, Street2, City, State, Zip, Country, Phone, Mobile}

  /** The initial value of a `Customer` address property: the country is "USA", the rest null. */
  function DefaultPart(p: AddressPart): NetString {
    if p == Country then Some("USA") else None
  }

  const DefaultAddress: map<AddressPart, NetString> := map p | p in AllParts :: DefaultPart(p)

  /**
   * The record. `result` and `status` are `None` while the enum property keeps its default;
   * `bill` and `ship` are the twelve billing and shipping properties inherited from `Customer`.
   */
  datatype RecurringResponse<R, S, D, T> = RecurringResponse(
    status: Option<S>, statusString: NetString, result: Option<R>, resultString: NetString,
    reportData: seq<T>, recordsReturned: int, error: NetString, errorCode: NetString,
    customerNumber: NetString, customerID: NetString, billName: NetString,
    recurringRefNum: NetString, enteredDate: Option<D>,
    bill: map<AddressPart, NetString>, ship: map<AddressPart, NetString>)

  /** The exceptions the constructor lets through. */
  datatype RecurringFailure =
    | EnteredDateNotDate     // DateTime.Parse rejected xEnteredDate
    | ReportDataNotJson      // the JSON deserializer rejected "[" + xReportData + "]"

  /** The value under `k` when present, else `otherwise`: the property keeps its initial value. */
  function CopyOr(values: RecurringValues, k: string, otherwise: NetString): NetString {
    if k in values then values[k] else otherwise
  }

  /** The billing key of an address part, as the request side names it too. */
  function BillKey(p: AddressPart): string {
    WireName(XBill(p))
  }

  /** The keys the constructor looks at besides the billing keys. */
  const OwnKeys: set<string> :=
    {"xResult", "xError", "xErrorCode", "xStatus", "xRecurringRefNum", "xEnteredDate", "xBillName",
     "xCustomerID", "xCustomerNumber", "xReportData"}

  /** The keys copied verbatim into a string property of their own. */
  const CopiedKeys: seq<string> :=
    ["xError", "xErrorCode", "xRecurringRefNum", "xBillName", "xCustomerID", "xCustomerNumber"]

  /** The property that key `k` of `CopiedKeys` is copied into. */
  function CopiedField<R, S, D, T>(r: RecurringResponse<R, S, D, T>, k: string): NetString
    requires k in CopiedKeys
  {
    match k
    case "xError" => r.error
    case "xErrorCode" => r.errorCode
    case "xRecurringRefNum" => r.recurringRefNum
    case "xBillName" => r.billName
    case "xCustomerID" => r.customerID
    case _ => r.customerNumber
  }

  /** Both replies hold `k` with the same value, or neither holds it. */
  predicate AgreeOn(v1: RecurringValues, v2: RecurringValues, k: string) {
    (k in v1 <==> k in v2) && (k in v1 ==> v1[k] == v2[k])
  }

  /** The billing properties: each copied from its key when present, else left at its initial value. */
  function BillOf(values: RecurringValues): map<AddressPart, NetString> {
    map p | p in AllParts :: CopyOr(values, BillKey(p), DefaultPart(p))
  }

  /** The text handed to the JSON deserializer: a null value interpolates as "". */
  function ReportJson(v: NetString): string {
    "[" + (if v.Some? then v.value else "") + "]"
  }

  /**
   * The constructor. `parseResult` and `parseStatus` stand for Enum.Parse, whose failure is
   * caught; `parseDate` for DateTime.Parse and `deserialize` for the JSON deserializer, whose
   * failures are not.
   */
  function FromValues<R, S, D, T>(
    values: RecurringValues,
    parseResult: NetString -> Option<R>, parseStatus: NetString -> Option<S>,
    parseDate: NetString -> Option<D>, deserialize: string -> Option<seq<T>>
  ): Result<RecurringResponse<R, S, D, T>, RecurringFailure>
  {
    if "xEnteredDate" in values && parseDate(values["xEnteredDate"]).None? then
      Failure(EnteredDateNotDate)
    else if "xReportData" in values && deserialize(ReportJson(values["xReportData"])).None? then
      Failure(ReportDataNotJson)
    else
      Success(RecurringResponse(
        status := if "xStatus" in values then parseStatus(values["xStatus"]) else None,
        statusString := CopyOr(values, "xStatus", None),
        result := if "xResult" in values then parseResult(values["xResult"]) else None,
        resultString := CopyOr(values, "xResult", None),
        reportData := if "xReportData" in values then deserialize(ReportJson(values["xReportData"])).value else [],
        recordsReturned := 0,
        error := CopyOr(values, "xError", None),
        errorCode := CopyOr(values, "xErrorCode", None),
        customerNumber := CopyOr(values, "xCustomerNumber", None),
        customerID := CopyOr(values, "xCustomerID", None),
        billName := CopyOr(values, "xBillName", None),
        recurringRefNum := CopyOr(values, "xRecurringRefNum", None),
        enteredDate := if "xEnteredDate" in values then parseDate(values["xEnteredDate"]) else None,
        bill := BillOf(values),
        ship := DefaultAddress))
  }

  /**
   * Only the date and the report data can make the constructor throw; an unparsable result or
   * status never does.
   */
  lemma ThrowsOnlyOnDateOrReport<R, S, D, T>(
    values: RecurringValues,
    parseResult: NetString -> Option<R>, parseStatus: NetString -> Option<S>,
    parseDate: NetString -> Option<D>, deserialize: string -> Option<seq<T>>)
    ensures FromValues(values, parseResult, parseStatus, parseDate, deserialize).Failure? <==>
      ("xEnteredDate" in values && parseDate(values["xEnteredDate"]).None?) ||
      ("xReportData" in values && deserialize(ReportJson(values["xReportData"])).None?)
  {
  }

  /**
   * The raw strings are kept verbatim; each enum is set exactly when its key is present and
   * parses, to the parsed value; a parse failure leaves it at its default and is not reported.
   */
  lemma RawStringsAndEnums<R, S, D, T>(
    values: RecurringValues,
    parseResult: NetString -> Option<R>, parseStatus: NetString -> Option<S>,
    parseDate: NetString -> Option<D>, deserialize: string -> Option<seq<T>>)
    requires FromValues(values, parseResult, parseStatus, parseDate, deserialize).Success?
    ensures var r := FromValues(values, parseResult, parseStatus, parseDate, deserialize).value;
      ("xResult" in values ==> r.resultString == values["xResult"]) &&
      ("xResult" !in values ==> r.resultString.None?) &&
      (r.result.Some? <==> "xResult" in values && parseResult(values["xResult"]).Some?) &&
      (r.result.Some? ==> Some(r.result.value) == parseResult(values["xResult"])) &&
      ("xStatus" in values ==> r.statusString == values["xStatus"]) &&
      ("xStatus" !in values ==> r.statusString.None?) &&
      (r.status.Some? <==> "xStatus" in values && parseStatus(values["xStatus"]).Some?) &&
      (r.status.Some? ==> Some(r.status.value) == parseStatus(values["xStatus"]))
  {
  }

  /** The string properties are copied verbatim when their key is present and stay null otherwise. */
  lemma StringFieldsCopied<R, S, D, T>(
    values: RecurringValues,
    parseResult: NetString -> Option<R>, parseStatus: NetString -> Option<S>,
    parseDate: NetString -> Option<D>, deserialize: string -> Option<seq<T>>)
    requires FromValues(values, parseResult, parseStatus, parseDate, deserialize).Success?
    ensures var r := FromValues(values, parseResult, parseStatus, parseDate, deserialize).value;
      forall k | k in CopiedKeys ::
        (k in values ==> CopiedField(r, k) == values[k]) && (k !in values ==> CopiedField(r, k).None?)
  {
    var r := FromValues(values, parseResult, parseStatus, parseDate, deserialize).value;
    CopiedFromValues(values, r);
  }

  /** A record whose six string properties were copied from `values` has each under its own key. */
  lemma CopiedFromValues<R, S, D, T>(values: RecurringValues, r: RecurringResponse<R, S, D, T>)
    requires r.error == CopyOr(values, "xError", None) && r.errorCode == CopyOr(values, "xErrorCode", None)
    requires r.recurringRefNum == CopyOr(values, "xRecurringRefNum", None)
    requires r.billName == CopyOr(values, "xBillName", None) && r.customerID == CopyOr(values, "xCustomerID", None)
    requires r.customerNumber == CopyOr(values, "xCustomerNumber", None)
    ensures forall k | k in CopiedKeys :: CopiedField(r, k) == CopyOr(values, k, None)
  {
    forall k | k in CopiedKeys
      ensures CopiedField(r, k) == CopyOr(values, k, None)
    {
      if k == "xError" {
      } else if k == "xErrorCode" {
      } else if k == "xRecurringRefNum" {
      } else if k == "xBillName" {
      } else if k == "xCustomerID" {
      } else {
        assert k == "xCustomerNumber";
      }
    }
  }

  /**
   * The billing properties are copied when their key is present and keep their initial value
   * otherwise; no shipping property is read; without `xReportData` the report list stays empty.
   */
  lemma CustomerFields<R, S, D, T>(
    values: RecurringValues,
    parseResult: NetString -> Option<R>, parseStatus: NetString -> Option<S>,
    parseDate: NetString -> Option<D>, deserialize: string -> Option<seq<T>>)
    requires FromValues(values, parseResult, parseStatus, parseDate, deserialize).Success?
    ensures var r := FromValues(values, parseResult, parseStatus, parseDate, deserialize).value;
      (forall p | p in AllParts ::
         p in r.bill && (BillKey(p) in values ==> r.bill[p] == values[BillKey(p)]) &&
         (BillKey(p) !in values ==> r.bill[p] == DefaultPart(p))) &&
      r.ship == DefaultAddress &&
      ("xReportData" !in values ==> r.reportData == []) &&
      ("xBillCountry" !in values ==> r.bill[Country] == Some("USA"))
  {
    assert BillKey(Country) == "xBillCountry";
  }

  /**
   * Keys other than `OwnKeys` and the billing keys have no effect: replies that agree on those
   * keys give the same outcome.
   */
  lemma OtherKeysIgnored<R, S, D, T>(
    v1: RecurringValues, v2: RecurringValues,
    parseResult: NetString -> Option<R>, parseStatus: NetString -> Option<S>,
    parseDate: NetString -> Option<D>, deserialize: string -> Option<seq<T>>)
    requires forall k | k in OwnKeys :: AgreeOn(v1, v2, k)
    requires forall p | p in AllParts :: AgreeOn(v1, v2, BillKey(p))
    ensures FromValues(v1, parseResult, parseStatus, parseDate, deserialize) ==
      FromValues(v2, parseResult, parseStatus, parseDate, deserialize)
  {
    BillAgrees(v1, v2);
    assert forall k | k in OwnKeys :: CopyOr(v1, k, None) == CopyOr(v2, k, None);
  }

  /** Replies that agree on the billing keys give the same billing properties. */
  lemma BillAgrees(v1: RecurringValues, v2: RecurringValues)
    requires forall p | p in AllParts :: AgreeOn(v1, v2, BillKey(p))
    ensures BillOf(v1) == BillOf(v2)
  {
    forall p | p in AllParts ensures BillOf(v1)[p] == BillOf(v2)[p] {
    }
  }
}
