/** middleware/validation.js: the guards run before an invoice is created and before an
 *  invoice is paid. Each guard either rejects the request or passes it on unchanged. */
module Validation {
  import opened Schema
  import Text

  /** `amount > 1000000`: the demo ceiling on an invoice. */
  const MaxInvoiceSats: int := 1000000

  /** The accepted expiry range, in seconds: one minute to one day. */
  const MinExpiry: int := 60
  const MaxExpiry: int := 86400

  /** A request body; a missing `amount` or `expiry` is 0, which JavaScript treats as false. */
  datatype InvoiceRequest = InvoiceRequest(amount: int, memo: string, expiry: int)

  datatype InvoiceRejection = AmountRequired | AmountTooLarge | ExpiryOutOfRange

  /** What an acceptable invoice request is, independently of the order of the checks. */
  predicate AcceptableInvoice(req: InvoiceRequest) {
    && 0 < req.amount <= MaxInvoiceSats
    && (req.expiry == 0 || MinExpiry <= req.expiry <= MaxExpiry)
  }

  /** `validateInvoiceCreation` (lines 1-26). */
  function CheckInvoiceCreation(req: InvoiceRequest): (r: Result<InvoiceRequest, InvoiceRejection>)
    ensures r.Ok? <==> AcceptableInvoice(req)
    ensures r.Ok? ==> r.value == req
    ensures r == Err(AmountRequired) <==> req.amount <= 0
    ensures r == Err(AmountTooLarge) <==> req.amount > MaxInvoiceSats
    ensures r == Err(ExpiryOutOfRange) <==>
      0 < req.amount <= MaxInvoiceSats && req.expiry != 0 && (req.expiry < MinExpiry || req.expiry > MaxExpiry)
  {
    if req.amount <= 0 then Err(AmountRequired)
    else if req.amount > MaxInvoiceSats then Err(AmountTooLarge)
    else if req.expiry != 0 && (req.expiry < MinExpiry || req.expiry > MaxExpiry) then Err(ExpiryOutOfRange)
    else Ok(req)
  }

  datatype PaymentRejection = Bolt11Required | InvalidInvoiceFormat

  /** `p` spelt with either case of each letter, compared without lowering `s`. */
  predicate SpelledIgnoringCase(s: string, p: string)
    requires |s| == |p|
  {
    forall i :: 0 <= i < |p| ==> s[i] == p[i] || s[i] == Text.UpperChar(p[i])
  }

  /** The human-readable part of a BOLT #11 invoice opens with `ln` and the currency
   *  prefix: `bc` for bitcoin mainnet, `tb` for testnet. */
  predicate HasLightningPrefix(s: string) {
    |s| >= 4 && (SpelledIgnoringCase(s[..4], "lnbc") || SpelledIgnoringCase(s[..4], "lntb"))
  }

  /** `bolt11.toLowerCase().startsWith(prefix)` */
  predicate StartsWithIgnoringCase(s: string, prefix: string) {
    Text.StartsWith(Text.ToLower(s), prefix)
  }

  /** `validatePayment` (lines 28-46); a missing `bolt11` is the empty string. */
  function CheckPayment(bolt11: string): (r: Result<string, PaymentRejection>)
    ensures r == Err(Bolt11Required) <==> bolt11 == ""
    ensures r.Ok? ==> r.value == bolt11
  {
    if bolt11 == "" then Err(Bolt11Required)
    else if !StartsWithIgnoringCase(bolt11, "lnbc") && !StartsWithIgnoringCase(bolt11, "lntb") then
      Err(InvalidInvoiceFormat)
    else Ok(bolt11)
  }

  /** Lowering then comparing with a lower-case prefix is the same as accepting either
   *  case of each of its letters. */
  lemma StartsWithIgnoringCaseSpelled(s: string, p: string)
    requires forall i :: 0 <= i < |p| ==> Text.IsLowerAscii(p[i])
    ensures StartsWithIgnoringCase(s, p) <==> |p| <= |s| && SpelledIgnoringCase(s[..|p|], p)
  {
    var l := Text.ToLower(s);
    if |p| <= |s| {
      forall i | 0 <= i < |p|
        ensures l[i] == p[i] <==> (s[i] == p[i] || s[i] == Text.UpperChar(p[i]))
      {
        assert l[i] == Text.LowerChar(s[i]);
      }
      if SpelledIgnoringCase(s[..|p|], p) {
        assert forall i :: 0 <= i < |p| ==> s[..|p|][i] == s[i];
        assert l[..|p|] == p;
      }
      if StartsWithIgnoringCase(s, p) {
        assert forall i :: 0 <= i < |p| ==> l[..|p|][i] == l[i];
      }
    }
  }

  /** A bolt11 string is accepted exactly when it is present and opens with `lnbc` or
   *  `lntb` in any mix of cases. */
  lemma CheckPaymentAcceptsLightningPrefixes(bolt11: string)
    ensures CheckPayment(bolt11).Ok? <==> bolt11 != "" && HasLightningPrefix(bolt11)
    ensures CheckPayment(bolt11) == Err(InvalidInvoiceFormat) <==> bolt11 != "" && !HasLightningPrefix(bolt11)
  {
    StartsWithIgnoringCaseSpelled(bolt11, "lnbc");
    StartsWithIgnoringCaseSpelled(bolt11, "lntb");
  }
}
