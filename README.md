# Cardknox API wrapper: a verified model of its request, filter and response logic

This project models the core of the Cardknox .NET wrapper, a client library for the Cardknox
payment gateway, in Dafny.

- **`CardknoxClient`** (`cardknox_client.dfy`) is a class.
  - It holds its request `Dictionary<string, string>` as a field `Values`: a sequence of key/value
    pairs with no key twice.
  - The constructor seeds `Values` with the four session keys.
  - There is one method per gateway operation (`CCSale` … `FraudSubmit`, 32 in all). Each one:
    validates its input, applies the reuse guard (remove every key and re-seed on `force`), then
    adds its pairs one `Dictionary.Add` at a time. `AddCommonFields`, `AddSpecialFields`, the
    custom-field counter and the WIC item loop are methods with loops too.
  - Every operation method is proved against a pure description of the same request: `Call`
    together with the builders in `operations.dfy`.
  - The lemmas in `client_properties.dfy`, `request_keys.dfy` and `distinct_requests.dfy` state
    what those requests contain:
    - which keys are sent, and in which priority order;
    - that no `Dictionary.Add` can meet a duplicate key;
    - which validation comes first;
    - the quirks the code has: the inverted `Name` check of the check operations, the pairs left
      behind by a failed credential check, and the post-authorization that validates the amount
      but never sends it.
- **The legacy `Cardknox` class** (`legacy_cardknox.dfy`) and **`RecurringClient`**
  (`recurring_client.dfy`) keep a `NameValueCollection` (`name_values.dfy`). Its `Add` appends
  to an existing key's list instead of throwing.
- **`Log`** (`log.dfy`) models:
  - the sensitive-key set `NoInclude`;
  - the configuration fallbacks of the logging gate;
  - the body that `LogRequest` and `LogResponse` build in their loops.
- **`CardknoxEventArgs`** (`events.dfy`) copies a dictionary minus the sensitive keys.
- **`CardknoxResponse`** (`cardknox_response.dfy`) and **`RecurringResponse`**
  (`recurring_response.dfy`) are pure functions from the reply map to a record.
- **`MapPath`** (`extensions.dfy`) is a pure string rewrite, modelled with `String.Replace`'s
  left-to-right scan.
- **Shared pieces:**
  - `text.dfy` holds the number formats the requests use (`N2` amounts, `D2` custom numbers, and
    `Int32.ToString`), each with a round-trip lemma.
  - `fields.dfy` holds the request keys and their wire names.
  - `wire_names.dfy` reads a wire name back to its key. So two keys never share a wire name,
    and a dictionary whose keys are distinct still has distinct keys as strings.

## Model

| member | source | states |
|---|---|---|
| CardknoxClientModel.NewCardknoxRequest | src/Cardknox.NET/CardknoxRequest.cs:10-20 | the request keeps key, software and software version; the gateway version is the given one, or "4.5.5" when none is given |
| CardknoxClientModel.SeedSessionPairs | src/Cardknox.NET/CardknoxClient.cs:49-57 | a fresh dictionary holds each of the four session keys exactly once and no other key, so its keys are distinct |
| CardknoxClientModel.CardknoxClient.constructor | src/Cardknox.NET/CardknoxClient.cs:49-60 | a new client's dictionary is exactly `xKey`, `xVersion`, `xSoftwareName`, `xSoftwareVersion` with the request's values, and it satisfies the client invariant (distinct keys; four or fewer pairs only while it is the seed) |
| CardknoxClientModel.CardknoxClient.ReuseGuard | src/Cardknox.NET/CardknoxClient.cs:74-85 | the call goes on exactly when the dictionary has at most four keys or `force` is set; when it goes on, the dictionary is the seed again; when it does not, the dictionary is unchanged |
| CardknoxClientModel.CardknoxClient.Clear | src/Cardknox.NET/CardknoxClient.cs:77-79 | removing each key read from the dictionary leaves it empty |
| Fields.RemoveEach | src/Cardknox.NET/CardknoxClient.cs:77-79 | the loop that removes the keys read once beforehand ends with an empty collection; the loop is proved against `RemoveKeys` |
| WireNames.FieldOfWireName | src/Cardknox.NET/CardknoxClient.cs:42 | every key, fixed, numbered custom (`D2`), WIC item (plain index) or address part, is read back from its wire name as the same key |
| WireNames.WireNameInjective | src/Cardknox.NET/CardknoxClient.cs:42 | two keys with the same wire name are the same key, so keys that differ are different strings of the dictionary |
| WireNames.RenderedDistinct | src/Cardknox.NET/CardknoxClient.cs:42 | a dictionary with distinct keys still has distinct keys once they are rendered as strings, as the log and the event arguments need |
| CardknoxClientModel.CardknoxClient.AddCardCredential | src/Cardknox.NET/CardknoxClient.cs:90-115 | the pairs added are exactly the card-data group `CardCredential` picks, and the returned flag is whether that group suffices (a card number needs an expiry) |
| CardknoxClientModel.CardknoxClient.AddCheckCredential | src/Cardknox.NET/CardknoxClient.cs:846-863 | adds routing and account, else the token (where accepted), else MICR, as `CheckCredential` describes; the flag says whether one was sent |
| CardknoxClientModel.CardknoxClient.AddCommonFields | src/Cardknox.NET/CardknoxClient.cs:2421-2509 | appends exactly the pairs of `WithCommonFields`: invoice, tip, tax, e-mail and fax, then twelve billing and twelve shipping members, each only when set |
| CardknoxClientModel.CardknoxClient.AddSpecialFields | src/Cardknox.NET/CardknoxClient.cs:2511-2539 | appends exactly the pairs of `WithSpecialFields`: the six FSA amounts when positive, the order id when set, `xAllowDuplicate` when true, the currency name when not null |
| CardknoxClientModel.CardknoxClient.AddCustomFields | src/Cardknox.NET/CardknoxClient.cs:137-142 | the counted loop appends `xCustom01`, `xCustom02`, … with the custom values in list order |
| CardknoxClientModel.CardknoxClient.AddItems | src/Cardknox.NET/CardknoxClient.cs:1730-1740 | the counted loop appends, for item i = 1..n, its unit price (N2), quantity and UPC under `x{i}UnitPrice`, `x{i}Qty`, `x{i}Upc` |
| CardknoxClientModel.CardknoxClient.AddCardSale | src/Cardknox.NET/CardknoxClient.cs:88-142 | from the seed, the pairs added and the failure raised are those of `CardSaleRequest`, and the dictionary keeps distinct keys and more than four of them |
| CardknoxClientModel.CardknoxClient.AddCheckSale | src/Cardknox.NET/CardknoxClient.cs:842-885 | from the seed, the pairs and failure are those of `CheckSaleRequest`; the invariant is kept |
| CardknoxClientModel.CardknoxClient.AddEBTWSale | src/Cardknox.NET/CardknoxClient.cs:1689-1745 | from the seed, the pairs and failure are those of `EBTWSaleRequest`, with the items after the custom fields; the invariant is kept |
| CardknoxClientModel.CardknoxClient.CCSale | src/Cardknox.NET/CardknoxClient.cs:70-154 | amount check first, then the reuse guard, then the "cc:sale" card request; the outcome and the new dictionary are those of `Call`, including the pairs left behind when the card data does not suffice; the invariant is kept |
| CardknoxClientModel.CardknoxClient.CCSave | src/Cardknox.NET/CardknoxClient.cs:162-239 | no validation, the guard, then the "cc:save" request of `CCSaveRequest`; outcome and dictionary as `Call` says |
| CardknoxClientModel.CardknoxClient.CCRefund | src/Cardknox.NET/CardknoxClient.cs:247-293 | reference number checked before the amount, then the guard and the "cc:refund" request with the receipt flag |
| CardknoxClientModel.CardknoxClient.CCAuthOnly | src/Cardknox.NET/CardknoxClient.cs:301-385 | amount check, guard, then the "cc:authonly" card request with the custom fields before the common ones |
| CardknoxClientModel.CardknoxClient.CCCapture | src/Cardknox.NET/CardknoxClient.cs:393-454 | reference number then amount checked, guard, then "cc:capture" without card data |
| CardknoxClientModel.CardknoxClient.CCCredit | src/Cardknox.NET/CardknoxClient.cs:462-546 | amount check, guard, then the "cc:credit" card request with the custom fields first |
| CardknoxClientModel.CardknoxClient.CCVoid | src/Cardknox.NET/CardknoxClient.cs:554-593 | reference number check, guard, then "cc:void": command, reference number, custom fields |
| CardknoxClientModel.CardknoxClient.CCAdjust | src/Cardknox.NET/CardknoxClient.cs:601-655 | reference number then amount checked, guard, then the "cc:adjust" request |
| CardknoxClientModel.CardknoxClient.CCPostAuth | src/Cardknox.NET/CardknoxClient.cs:663-720 | authorization code then amount checked, guard, then the "cc:postauth" request, which has no amount pair |
| CardknoxClientModel.CardknoxClient.CCVoidRefund | src/Cardknox.NET/CardknoxClient.cs:728-767 | reference number check, guard, then "cc:voidrefund" as a void |
| CardknoxClientModel.CardknoxClient.CCVoidRelease | src/Cardknox.NET/CardknoxClient.cs:775-814 | reference number check, guard, then "cc:voidrelease" as a void |
| CardknoxClientModel.CardknoxClient.CheckSale | src/Cardknox.NET/CardknoxClient.cs:824-896 | amount check, guard, then "check:sale" with the inverted Name check, check data, amount and name |
| CardknoxClientModel.CardknoxClient.CheckCredit | src/Cardknox.NET/CardknoxClient.cs:904-975 | amount check, guard, then "check:credit", built as a check sale |
| CardknoxClientModel.CardknoxClient.CheckSave | src/Cardknox.NET/CardknoxClient.cs:983-1039 | no validation, guard, then "check:save" with the inverted Name check and check data without a token |
| CardknoxClientModel.CardknoxClient.CheckVoid | src/Cardknox.NET/CardknoxClient.cs:1047-1089 | amount checked before the reference number, guard, then "check:void" without the receipt flag |
| CardknoxClientModel.CardknoxClient.CheckRefund | src/Cardknox.NET/CardknoxClient.cs:1097-1142 | amount then reference number checked, guard, then "check:refund" with the receipt flag |
| CardknoxClientModel.CardknoxClient.EBTFSSale | src/Cardknox.NET/CardknoxClient.cs:1152-1225 | amount check, guard, then the "ebtfs:sale" EBT request: command, amount, DUKPT, EBT card data and the rest |
| CardknoxClientModel.CardknoxClient.EBTFSCredit | src/Cardknox.NET/CardknoxClient.cs:1232-1305 | amount check, guard, then "ebtfs:credit" as an EBT sale |
| CardknoxClientModel.CardknoxClient.EBTFSBalance | src/Cardknox.NET/CardknoxClient.cs:1312-1365 | no validation, guard, then the "ebtfs:balance" inquiry, which accepts a token |
| CardknoxClientModel.CardknoxClient.EBTFSVoucher | src/Cardknox.NET/CardknoxClient.cs:1372-1445 | amount check, guard, then an EBT sale under the command "ebtf:voucher" the code sends |
| CardknoxClientModel.CardknoxClient.EBTCBSale | src/Cardknox.NET/CardknoxClient.cs:1455-1528 | amount check, guard, then "ebtcb:sale" as an EBT sale |
| CardknoxClientModel.CardknoxClient.EBTCBCash | src/Cardknox.NET/CardknoxClient.cs:1535-1604 | amount check, guard, then the "ebtcb:cash" request |
| CardknoxClientModel.CardknoxClient.EBTCBBalance | src/Cardknox.NET/CardknoxClient.cs:1611-1659 | no validation, guard, then the "ebtcb:balance" inquiry without a token |
| CardknoxClientModel.CardknoxClient.EBTWSale | src/Cardknox.NET/CardknoxClient.cs:1669-1756 | the item list, which may be null, checked present (a null list throws) and non-empty before the amount, then the guard and the "ebtw:sale" request |
| CardknoxClientModel.CardknoxClient.EBTWBalance | src/Cardknox.NET/CardknoxClient.cs:1764-1812 | no validation, guard, then "ebtw:balance" without a token |
| CardknoxClientModel.CardknoxClient.EBTWVoid | src/Cardknox.NET/CardknoxClient.cs:1820-1867 | reference number check, guard, then "ebtw:void": command, DUKPT, reference number, card number or stripe |
| CardknoxClientModel.CardknoxClient.GCIssue | src/Cardknox.NET/CardknoxClient.cs:1877-1961 | amount check, guard, then "gift:issue" as a card sale |
| CardknoxClientModel.CardknoxClient.GCRedeem | src/Cardknox.NET/CardknoxClient.cs:1968-2052 | amount check, guard, then "gift:redeem" as a card sale |
| CardknoxClientModel.CardknoxClient.GCBalance | src/Cardknox.NET/CardknoxClient.cs:2059-2143 | amount check, guard, then "gift:balance" as a card sale |
| CardknoxClientModel.CardknoxClient.GCActivate | src/Cardknox.NET/CardknoxClient.cs:2151-2220 | no validation, guard, then the activation request: command, card data, IP, common and custom fields |
| CardknoxClientModel.CardknoxClient.GCDeactivate | src/Cardknox.NET/CardknoxClient.cs:2227-2296 | no validation, guard, then the deactivation request, built like the activation |
| CardknoxClientModel.CardknoxClient.FraudSubmit | src/Cardknox.NET/CardknoxClient.cs:2308-2392 | amount check, guard, then "fraud:submit" as a card sale |
| ClientProperties.SeedRendered | src/Cardknox.NET/CardknoxClient.cs:52-56 | the seed as sent is `xKey`, `xVersion`, `xSoftwareName`, `xSoftwareVersion`, in that order, with the request's values |
| ClientProperties.GuardOrder | src/Cardknox.NET/CardknoxClient.cs:72-85 | a failed validation throws and leaves the dictionary as it was; a used dictionary without `force` throws "new instance required" and stays as it is; with `force` the outcome does not depend on the dictionary's history |
| ClientProperties.PostedIsBuilt | src/Cardknox.NET/CardknoxClient.cs:144-153 | a call that posts sends exactly the pairs its builder produced |
| ClientProperties.CardSaleLeavesPairs | src/Cardknox.NET/CardknoxClient.cs:88-115 | when the card data does not suffice, the call throws after `xCommand`, `xAmount` and any card number, CVV and expiry were already added |
| ClientProperties.FailedSaleBlocksClient | src/Cardknox.NET/CardknoxClient.cs:74-115 | after a sale that failed on its card data, the next call without `force` throws (or fails its own validation first) and leaves the dictionary unchanged |
| ClientProperties.PostAuthRequestNoAmount | src/Cardknox.NET/CardknoxClient.cs:683-709 | the post-authorization builder adds no `xAmount` pair |
| ClientProperties.PostAuthNeverSendsAmount | src/Cardknox.NET/CardknoxClient.cs:665-684 | `CCPostAuth` checks the authorization code and then the amount, and what it posts never holds `xAmount` |
| ClientProperties.SeedNoAmount | src/Cardknox.NET/CardknoxClient.cs:683-684 | a post-authorization built from the seed holds no `xAmount` at all |
| ClientProperties.WicSaleNeedsItems | src/Cardknox.NET/CardknoxClient.cs:1671-1672 | an electronic WIC sale whose item list is null (the default) throws a null reference, and one whose list is empty throws for no items, exactly in those cases, before the dictionary is touched |
| ClientProperties.CardCredentialPriority | src/Cardknox.NET/CardknoxClient.cs:90-115 | exactly one of card number, token and stripe is sent, tried in that order; CVV and expiry only with a card number and only when set; a card number without an expiry fails exactly like no card data at all |
| ClientProperties.CheckCredentialPriority | src/Cardknox.NET/CardknoxClient.cs:846-863 | routing and account together when both are set, else the token where accepted, else MICR; the check data suffices exactly when one group was sent |
| ClientProperties.CheckSaleNameInverted | src/Cardknox.NET/CardknoxClient.cs:843-866 | a check sale or credit throws "Name is required" exactly when a name is given, after `xCommand` was added; a check sale that goes through sends a blank `xName` |
| ClientProperties.CheckSaveNameInverted | src/Cardknox.NET/CardknoxClient.cs:1000-1001 | saving check data has the same inverted check, and on success sends a blank `xName` |
| ClientProperties.CustomNames | src/Cardknox.NET/CardknoxClient.cs:140 | custom keys render as `xCustom01`, `xCustom12`, …, and no two numbers share a name |
| ClientProperties.ItemNames | src/Cardknox.NET/CardknoxClient.cs:1735-1737 | item keys render as `x3UnitPrice`, `x3Qty`, `x3Upc`, …, and no two item numbers share a name |
| ClientProperties.ItemFieldsLength | src/Cardknox.NET/CardknoxClient.cs:1730-1740 | n items yield 3·n pairs |
| ClientProperties.ItemGroupAt | src/Cardknox.NET/CardknoxClient.cs:1733-1739 | the i-th group of three pairs is item i+1's unit price, quantity and UPC |
| RequestKeys.CommonAt | src/Cardknox.NET/CardknoxClient.cs:2421-2509 | `AddCommonFields` adds each common key once when its member is set and adds no other key |
| RequestKeys.BillingAt | src/Cardknox.NET/CardknoxClient.cs:2438-2472 | the billing block adds one `xBill*` pair per part that is set, and nothing else |
| RequestKeys.ShippingAt | src/Cardknox.NET/CardknoxClient.cs:2474-2508 | the shipping block adds one `xShip*` pair per part that is set, and nothing else |
| RequestKeys.SpecialAt | src/Cardknox.NET/CardknoxClient.cs:2511-2539 | `AddSpecialFields` adds each special key once when its member is positive, set or true, and no other key |
| RequestKeys.StreetZipIPAt | src/Cardknox.NET/CardknoxClient.cs:120-128 | street, zip and IP are each added once when not blank, and nothing else |
| RequestKeys.CustomAt | src/Cardknox.NET/CardknoxClient.cs:137-142 | the custom fields add the keys numbered 1 to their count, each once |
| RequestKeys.ItemsAt | src/Cardknox.NET/CardknoxClient.cs:1730-1740 | the items add the three keys of each number 1 to their count, each once |
| RequestKeys.CardCredentialAt | src/Cardknox.NET/CardknoxClient.cs:90-115 | the card data adds only payment keys, each at most once |
| DistinctRequests.CardSaleDistinct | src/Cardknox.NET/CardknoxClient.cs:88-142 | from the session pairs, a card sale's pairs have distinct keys, so no `Values.Add` throws, and there are more of them than the seed |
| DistinctRequests.CheckSaleDistinct | src/Cardknox.NET/CardknoxClient.cs:842-885 | a check sale or credit never adds a key twice and grows the dictionary |
| DistinctRequests.EbtSaleDistinct | src/Cardknox.NET/CardknoxClient.cs:1170-1214 | an EBT sale, credit or voucher never adds a key twice and grows the dictionary |
| DistinctRequests.BalanceDistinct | src/Cardknox.NET/CardknoxClient.cs:1328-1354 | a balance inquiry never adds a key twice and grows the dictionary |
| DistinctRequests.GiftCardStateDistinct | src/Cardknox.NET/CardknoxClient.cs:2167-2209 | a gift card activation or deactivation never adds a key twice and grows the dictionary |
| DistinctRequests.CCSaveDistinct | src/Cardknox.NET/CardknoxClient.cs:178-228 | saving card data never adds a key twice and grows the dictionary |
| DistinctRequests.RefundDistinct | src/Cardknox.NET/CardknoxClient.cs:267-282 | a refund, check void or check refund never adds a key twice and grows the dictionary |
| DistinctRequests.VoidDistinct | src/Cardknox.NET/CardknoxClient.cs:572-582 | a void, void-refund or void-release never adds a key twice and grows the dictionary |
| DistinctRequests.CCCaptureDistinct | src/Cardknox.NET/CardknoxClient.cs:413-443 | a capture never adds a key twice and grows the dictionary |
| DistinctRequests.CCAdjustDistinct | src/Cardknox.NET/CardknoxClient.cs:621-644 | an adjustment never adds a key twice and grows the dictionary |
| DistinctRequests.CCPostAuthDistinct | src/Cardknox.NET/CardknoxClient.cs:683-709 | a post-authorization never adds a key twice and grows the dictionary |
| DistinctRequests.CheckSaveDistinct | src/Cardknox.NET/CardknoxClient.cs:999-1028 | saving check data never adds a key twice and grows the dictionary |
| DistinctRequests.EBTCBCashDistinct | src/Cardknox.NET/CardknoxClient.cs:1553-1593 | an EBT cash withdrawal never adds a key twice and grows the dictionary |
| DistinctRequests.EBTWSaleDistinct | src/Cardknox.NET/CardknoxClient.cs:1689-1745 | an electronic WIC sale never adds a key twice, items included, and grows the dictionary |
| DistinctRequests.EBTWVoidDistinct | src/Cardknox.NET/CardknoxClient.cs:1838-1856 | an electronic WIC void never adds a key twice and grows the dictionary |
| Text.FormatN2RoundTrip | src/Cardknox.NET/CardknoxClient.cs:89 | reading back the `N2` text of an amount gives its number of hundredths, rounded half away from zero |
| Text.CentsTextRoundTrip | src/Cardknox.NET/CardknoxClient.cs:1735 | every whole number of hundredths reads back from its `N2` text, sign, group separators and all |
| Text.GroupedRoundTrip | src/Cardknox.NET/CardknoxClient.cs:2427 | removing the group separators from the integer part of the `N2` text leaves the digits of the number |
| Text.RoundHalfAwayFromZero | src/Cardknox.NET/CardknoxClient.cs:2430 | the rounded integer is within one half of the amount, and halves go away from zero |
| Text.FormatNullableN2 | src/Cardknox.NET/Cardknox.cs:53 | a null amount formats as the empty string and only a null one does |
| Text.PadTwoRoundTrip | src/Cardknox.NET/CardknoxClient.cs:140 | the `D2` text of a custom number reads back as the number |
| Text.NatToStringRoundTrip | src/Cardknox.NET/CardknoxClient.cs:1735 | the decimal text of an item index reads back as the index |
| Text.IntToStringRoundTrip | src/Cardknox.NET/CardknoxClient.cs:1736 | `Int32.ToString()` of a quantity reads back as the quantity, sign included |
| NameValues.NvAddExisting | src/Cardknox.NET/Cardknox.cs:57-59 | adding under a key already present creates no second entry; only that key's value list grows, by the value when it is not null |
| NameValues.NvAddNew | src/Cardknox.NET/Cardknox.cs:52 | adding a key the collection lacks appends one entry, whose list holds the value, or nothing for null |
| NameValues.NvAddKeepsDistinct | src/Cardknox.NET/Cardknox.cs:38 | `Add` keeps one entry per key, so `AllKeys.Length` stays the number of entries |
| NameValues.NvSeedEntries | src/Cardknox.NET/Cardknox.cs:26-30 | the four session Adds on an empty collection give exactly the four session entries, in order |
| LegacyCardknox.Cardknox.constructor | src/Cardknox.NET/Cardknox.cs:24-32 | a new legacy client holds exactly the four session keys with the request's values |
| LegacyCardknox.Cardknox.CCSale | src/Cardknox.NET/Cardknox.cs:36-90 | more than four keys without `force` throws and changes nothing; otherwise (after `force` removes every key and re-seeds) the collection is the seed followed by the sale's entries, and that collection is posted; one entry per key is kept |
| LegacyCardknox.LegacySaleFromSeed | src/Cardknox.NET/Cardknox.cs:52-84 | from the seed, every Add of a legacy sale meets a new key, so the result is the seed followed by `SaleEntries` |
| LegacyCardknox.SaleEntriesKeys | src/Cardknox.NET/Cardknox.cs:52-84 | the command and the amount always come first (no amount validation; null formats as ""); the card number brings CVV and expiry even when blank; the token only without a card number, the stripe only without both; the four optional members only when not blank; no other key; no payment data is not an error |
| LegacyCardknox.LegacySaleUsesClient | src/Cardknox.NET/Cardknox.cs:38-53 | a posted legacy sale holds the seed, then `xCommand`, then `xAmount`: at least six keys, so the next call without `force` throws |
| LegacyCardknox.CredentialNew | src/Cardknox.NET/Cardknox.cs:55-68 | on a collection without payment keys, the payment group appends exactly its entries |
| LegacyCardknox.CredentialKeysSent | src/Cardknox.NET/Cardknox.cs:54-68 | the payment keys sent are those of the first group whose lead member is set: card number with CVV and expiry, else token, else stripe, else none |
| LegacyCardknox.OptionalsNew | src/Cardknox.NET/Cardknox.cs:73-84 | on a collection without the optional keys, street, zip, IP and invoice append their entries when not blank |
| RecurringClientModel.NewRecurringRequest | src/Cardknox.NET/RecurringRequest.cs:15-32 | the request keeps key, software and software version; the version is the given one, or "1.0.0" when none is given |
| RecurringClientModel.RecurringClient.constructor | src/Cardknox.NET/RecurringClient.cs:48-59 | a new recurring client holds exactly the four session keys with the request's values |
| RecurringClientModel.RecurringClient.CustomerAdd | src/Cardknox.NET/RecurringClient.cs:68-96 | more than four keys without `force` throws and changes nothing; otherwise (after `force` removes every key and re-seeds) the collection is the seed plus `xCommand` = "customer:add" and is posted |
| RecurringClientModel.CustomerAddEntries | src/Cardknox.NET/RecurringClient.cs:84 | the posted collection is exactly the four session entries and the command, one entry per key; with five keys, a second `CustomerAdd` without `force` throws |
| Log.FilteredExcludes | src/Cardknox.NET/Log.cs:59-63 | no pair kept has a key in `NoInclude`, and every pair kept comes from the input |
| Log.FilteredKeeps | src/Cardknox.NET/Operations/Events.cs:28-31 | every input pair whose key is outside `NoInclude` is kept, with its value |
| Log.FilteredSize | src/Cardknox.NET/Operations/Events.cs:27-31 | on a dictionary, the number of pairs kept is the input size minus the number of sensitive keys present |
| Log.FilteredDistinct | src/Cardknox.NET/Operations/Events.cs:31 | the pairs kept still have distinct keys, so the `Add` into the fresh dictionary cannot throw |
| Log.WritesExactly | src/Cardknox.NET/Log.cs:22-53 | the gate passes exactly when the logging switch reads true without failure and the location is not "" (a failed read of either counts as off or as ""); something is written exactly when, in addition, the location is not null |
| Log.RequestLinesFiltered | src/Cardknox.NET/Log.cs:59-63 | each line of the request body comes from a pair whose key is outside `NoInclude`, and every such pair has its `k = v` line |
| Log.LogRequest | src/Cardknox.NET/Log.cs:48-70 | nothing is done when the gate fails; past the gate a null location throws in formatting the path and writes nothing; otherwise the body is written, and it is the three-line header followed by the `k = v` lines of the non-sensitive pairs in order |
| Log.LogResponse | src/Cardknox.NET/Log.cs:75-97 | the same gate and the same throw on a null location; otherwise the body written is the header, the line of every pair unfiltered, and one more newline |
| Events.CardknoxEventArgs.constructor | src/Cardknox.NET/Operations/Events.cs:25-33 | the loop leaves the results equal to the input with the sensitive pairs removed, in order, with distinct keys |
| Events.ResultsFilter | src/Cardknox.NET/Operations/Events.cs:18-33 | the results hold no sensitive key, every other input pair unchanged, and one pair fewer per sensitive key present |
| Events.ResponseTokenDropped | src/Cardknox.NET/CardknoxClient.cs:151 | the same filter applies to the response, so an `xToken` the gateway returns is never handed to a handler |
| Extensions.MapPathCases | src/Cardknox.NET/Extensions.cs:19-25 | a path not starting with "~/" is returned unchanged; otherwise it is the base directory combined with the path with every "~/" the scan meets removed |
| Extensions.ShortPathsUnchanged | src/Cardknox.NET/Extensions.cs:21-22 | "", "~" and "/~/a" are returned unchanged |
| Extensions.StripHomeLength | src/Cardknox.NET/Extensions.cs:24 | the stripped path is two characters shorter per occurrence removed |
| Extensions.HomeCountZero | src/Cardknox.NET/Extensions.cs:24 | the scan removes nothing exactly when "~/" does not occur |
| Extensions.StripHomeUnchanged | src/Cardknox.NET/Extensions.cs:24 | `Replace` leaves the path unchanged exactly when "~/" does not occur in it |
| Extensions.StripHomeExamples | src/Cardknox.NET/Extensions.cs:24 | every occurrence is removed, not just the prefix ("~/a~/b" gives "ab"), and the result can hold "~/" again ("~/~~//" gives "~/") |
| CardknoxResponses.ThrowsOnlyOnAuthAmount | src/Cardknox.NET/CardknoxResponse.cs:49-51 | the constructor throws exactly when `xAuthAmount` is present and does not parse |
| CardknoxResponses.FieldsFromKeys | src/Cardknox.NET/CardknoxResponse.cs:29-60 | each of the twelve copied fields is its key's value when present and null when absent; `AvsResult` is the decoded `xAvsResult`; `AuthAmount` is null exactly when `xAuthAmount` is absent |
| CardknoxResponses.OtherKeysIgnored | src/Cardknox.NET/CardknoxResponse.cs:29-60 | replies that agree on the keys the constructor reads give the same record |
| RecurringResponses.ThrowsOnlyOnDateOrReport | src/Cardknox.NET/RecurringResponse.cs:73-135 | only the date and the report data can make the constructor throw; an unparsable result or status never does |
| RecurringResponses.RawStringsAndEnums | src/Cardknox.NET/RecurringResponse.cs:75-96 | `ResultString` and `StatusString` are the raw values; each enum is set exactly when its key is present and parses, and a parse failure leaves it at its default |
| RecurringResponses.StringFieldsCopied | src/Cardknox.NET/RecurringResponse.cs:84-130 | error, error code, reference number, bill name, customer id and customer number are copied verbatim when present and stay null otherwise |
| RecurringResponses.CustomerFields | src/Cardknox.NET/RecurringResponse.cs:101-134 | the billing members are copied when present and keep their initial value otherwise; no shipping member is read; without `xReportData` the report list stays empty |
| RecurringResponses.OtherKeysIgnored | src/Cardknox.NET/RecurringResponse.cs:73-135 | replies that agree on the keys the constructor reads give the same outcome |

## Left out

- `MakeRequest` in every client is left out. It covers `WebClient`, the TLS setting, the HTTP post
  and `ParseQueryString`, and it is network I/O. An operation ends in `Posted(pairs)`; the reply
  map is an input to the response functions.
- Which of `Log`/`CardknoxEventArgs` an operation calls is left out. The `RequestStarted` and
  `RequestCompleted` branch depends on whether a handler is subscribed. The operations end before
  that branch. The filter, the log body and the event arguments are modelled separately.
- File output is not modelled: the `FileStream` append, `DateTime.Now` and `UtcNow`, the path
  that `String.Format` makes of the location, and the `MapPath` call inside the log. The time
  stamp and `Environment.NewLine` are parameters. `Appended(body)` holds the text that would be
  appended.
- A `null` log location passes the gate, since only `""` is refused. Formatting the log path
  from it then throws `ArgumentNullException` before anything is written. The model ends in
  `FormatThrew` there.
- `CardknoxConfiguration` is reduced to two optional inputs, where `None` is a read that throws.
- `{0:N2}` is modelled in the invariant culture: ',' groups and '.' is the decimal point.
  Other cultures are not modelled. Amounts are exact decimals (`real`).
- `Decimal.Parse`, `HttpUtility.UrlDecode`, `Enum.Parse`, `DateTime.Parse`, the JSON
  deserializer and `Path.Combine` are foreign calls. They are function parameters.
- `Dispose` is left out: it only releases resources.
- The string that `NameValueCollection`'s indexer builds by joining several values with commas
  is not modelled. Each key keeps its list of values.
- `Results` is a value copy of the filtered pairs, not a `ReadOnlyDictionary` view. That is what
  the source gives a handler: the private dictionary is never changed after the constructor.
- Two `Customer` classes exist in the source. The recurring response uses the defaults of
  `Customer.cs`: country "USA", the rest null.
- `RecurringClient.CustomerAdd` passes a `NameValueCollection` to `Log.LogRequest` and
  `CardknoxEventArgs`, which take a `Dictionary`. That path is not modelled beyond the posted
  collection.
- The legacy `Cardknox.CCSale` has no logging and no events. `RecurringClient.CustomerAdd` sends
  only the command and none of the customer record's members; both are modelled as written.
- CardknoxClientModel.CardknoxClient.AddItems: the quantity is an `Int32`. Any value in that
  range is accepted, and no overflow arises in the source.
- CardknoxClientModel.CardknoxClient.GCActivate, CardknoxClientModel.CardknoxClient.GCDeactivate:
  the source sends the `Operation` property of its activate and deactivate records, and those
  classes are not part of this model. The commands `GiftActivateCommand` ("gift:activate") and
  `GiftDeactivateCommand` ("gift:deactivate") are assumed values from the gateway's gift commands.
- CardknoxClientModel.CardknoxClient.ReuseGuard: `Values`, and so every posted `sent`, is kept in
  insertion order. A .NET `Dictionary` enumerates in that order only until a key is removed. After
  `force` removes the pairs, the freed slots are reused last-in-first-out, so the order in which
  a re-used client's pairs are posted, logged and handed to events differs. The model states which
  pairs are sent, not that order. It matches enumeration only for a client that was never forced.
- There is no single dispatch over all operations: each operation is its own method, as in the
  source.
