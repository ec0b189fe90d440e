/**
 * IPN verification (class Paypal): check that the callback came from
 * PayPal's notification host, echo its fields back to PayPal with
 * `cmd=_notify-validate`, and read the one-word answer.
 *
 * The reverse DNS lookup of the caller's address and the HTTPS exchange are
 * inputs: `remoteHost` is what `gethostbyaddr` resolved, and `curl` is what
 * `curl_exec` would return if the request were sent. The result records the
 * request that is sent, if any, beside the outcome.
 */
module IpnVerifier {
  import opened PhpArrays
  import opened IpnData

  const IPN_DOMAIN := "notify.paypal.com"
  const IPN_URL := "https://ipnpb.paypal.com/cgi-bin/webscr"
  const IPN_URL_SANDBOX := "https://ipnpb.sandbox.paypal.com/cgi-bin/webscr"
  const RESPONSE_VERIFIED := "VERIFIED"
  const RESPONSE_INVALID := "INVALID"

  const UNKNOWN_DOMAIN_MESSAGE := "Received request from unknown domain"
  const INVALID_MESSAGE := "Paypal request is invalid"
  const FAILED_MESSAGE := "Verification request to PayPal server failed"

  function UnknownResponseMessage(response: string): string {
    "Unknown paypal response \"" + response + "\""
  }

  /** What `curl_exec` returns: `false` on a transport failure, otherwise the body (or `true`). */
  datatype CurlResult = CurlBool(b: bool) | CurlString(text: string)

  /** The two exception classes, told apart by tag rather than by class. */
  datatype PaypalError = RequestException(message: string) | VerificationException(message: string)

  /** The POST sent to PayPal: its endpoint and the fields it carries, before form encoding. */
  datatype ValidationRequest = ValidationRequest(url: string, postFields: seq<Pair>)

  /** One call of `verifyRequest`: the request it issues, if any, and its outcome. */
  datatype Verification = Verification(sent: Option<ValidationRequest>, result: Result<PaypalData, PaypalError>)

  /** `['cmd' => '_notify-validate'] + $rawPostData` */
  function ValidationPayload(raw: StringArray): (payload: seq<Pair>)
    ensures 1 <= |payload| <= |raw| + 1 && payload[0] == ("cmd", "_notify-validate")
    ensures forall i :: 1 <= i < |payload| ==> payload[i].0 != "cmd"
  {
    LeftUnion([("cmd", "_notify-validate")], raw)
  }

  /**
   * The payload leads with the validation command and then carries the
   * callback's fields unchanged and in their own order, without the
   * callback's own `cmd` field if it had one.
   */
  lemma PayloadSpec(raw: StringArray)
    ensures DistinctKeys(ValidationPayload(raw))
    ensures |ValidationPayload(raw)| >= 1 && ValidationPayload(raw)[0] == ("cmd", "_notify-validate")
    ensures Get(ValidationPayload(raw), "cmd") == Some("_notify-validate")
    ensures forall k :: k != "cmd" ==> Get(ValidationPayload(raw), k) == Get(raw, k)
    ensures (forall i :: 0 <= i < |raw| ==> raw[i].0 != "cmd") ==>
      ValidationPayload(raw) == [("cmd", "_notify-validate")] + raw
    ensures forall i :: 0 <= i < |raw| && raw[i].0 == "cmd" ==>
      ValidationPayload(raw) == [("cmd", "_notify-validate")] + raw[..i] + raw[i + 1..]
  {
    var left := [("cmd", "_notify-validate")];
    assert forall k :: Get(left, k).Some? <==> k == "cmd";
    LeftUnionDistinct(left, raw);
    if forall i :: 0 <= i < |raw| ==> raw[i].0 != "cmd" {
      UnclaimedAllFree(raw, left);
    }
    forall i | 0 <= i < |raw| && raw[i].0 == "cmd"
      ensures ValidationPayload(raw) == [("cmd", "_notify-validate")] + raw[..i] + raw[i + 1..]
    {
      UnclaimedDropsOne(raw, left, i);
    }
    forall k
      ensures Get(ValidationPayload(raw), k) == if k == "cmd" then Some("_notify-validate") else Get(raw, k)
    {
      GetLeftUnion([("cmd", "_notify-validate")], raw, k);
    }
  }

  /** A `cmd` field of the callback is dropped from the payload, whatever its value. */
  lemma PayloadDropsCallerCmd(raw: StringArray, v: string)
    requires exists i :: 0 <= i < |raw| && raw[i] == ("cmd", v)
    requires v != "_notify-validate"
    ensures forall i :: 0 <= i < |ValidationPayload(raw)| ==> ValidationPayload(raw)[i] != ("cmd", v)
  {
    PayloadSpec(raw);
    var p := ValidationPayload(raw);
    forall i | 0 <= i < |p|
      ensures p[i] != ("cmd", v)
    {
      if p[i].0 == "cmd" {
        GetAt(p, i);
      }
    }
  }

  /** The verifier; `sandboxMode` is fixed when it is constructed. */
  datatype Paypal = Paypal(sandboxMode: bool)
  {
    /** `$this->sandboxMode ? Paypal::IPN_URL_SANDBOX : Paypal::IPN_URL` */
    function Endpoint(): (url: string)
      ensures url == IPN_URL_SANDBOX <==> sandboxMode
      ensures url == IPN_URL <==> !sandboxMode
    {
      if sandboxMode then IPN_URL_SANDBOX else IPN_URL
    }

    /**
     * What PayPal's answer means. In sandbox mode `INVALID` is read as
     * `VERIFIED`; both tokens are matched byte for byte.
     */
    function Interpret(rawPostData: StringArray, curl: CurlResult): (r: Result<PaypalData, PaypalError>)
      ensures r.Success? <==>
        curl.CurlString? && (curl.text == RESPONSE_VERIFIED || (sandboxMode && curl.text == RESPONSE_INVALID))
      ensures r.Success? ==> r.value == Build(rawPostData)
      ensures r.Failure? ==> r.error.VerificationException?
      ensures curl.CurlBool? ==> r == Failure(VerificationException(FAILED_MESSAGE))
    {
      match curl
      case CurlString(text) =>
        var response := if text == RESPONSE_INVALID && sandboxMode then RESPONSE_VERIFIED else text;
        if response == RESPONSE_VERIFIED then Success(Build(rawPostData))
        else if response == RESPONSE_INVALID then Failure(VerificationException(INVALID_MESSAGE))
        else Failure(VerificationException(UnknownResponseMessage(response)))
      case CurlBool(_) => Failure(VerificationException(FAILED_MESSAGE))
    }

    /** `verifyRequest($rawPostData)` with the host lookup and the transport as inputs. */
    function VerifyRequest(rawPostData: StringArray, remoteHost: string, curl: CurlResult): (v: Verification)
      ensures v.sent.None? <==> remoteHost != IPN_DOMAIN
      ensures v.sent.Some? ==> v.sent.value.url == Endpoint() && v.sent.value.postFields == ValidationPayload(rawPostData)
      ensures v.result.Success? <==>
        remoteHost == IPN_DOMAIN && curl.CurlString? &&
        (curl.text == RESPONSE_VERIFIED || (sandboxMode && curl.text == RESPONSE_INVALID))
      ensures v.result.Success? ==> v.result.value == Build(rawPostData) && v.result.value.GetRawData() == rawPostData
      ensures v.result.Failure? && v.result.error.RequestException? <==> remoteHost != IPN_DOMAIN
    {
      if remoteHost != IPN_DOMAIN then
        Verification(None, Failure(RequestException(UNKNOWN_DOMAIN_MESSAGE)))
      else
        Verification(Some(ValidationRequest(Endpoint(), ValidationPayload(rawPostData))), Interpret(rawPostData, curl))
    }
  }

  /** Any host other than `notify.paypal.com` is refused before anything is sent. */
  lemma UnknownOrigin(p: Paypal, raw: StringArray, host: string, curl: CurlResult)
    requires host != IPN_DOMAIN
    ensures p.VerifyRequest(raw, host, curl) == Verification(None, Failure(RequestException(UNKNOWN_DOMAIN_MESSAGE)))
  {
  }

  /** A transport failure is a verification error, in either mode. */
  lemma TransportFailure(p: Paypal, raw: StringArray, b: bool)
    ensures p.VerifyRequest(raw, IPN_DOMAIN, CurlBool(b)).result == Failure(VerificationException(FAILED_MESSAGE))
  {
  }

  /** `INVALID` is refused in production and accepted in the sandbox. */
  lemma InvalidResponse(p: Paypal, raw: StringArray)
    ensures !p.sandboxMode ==>
      p.VerifyRequest(raw, IPN_DOMAIN, CurlString(RESPONSE_INVALID)).result == Failure(VerificationException(INVALID_MESSAGE))
    ensures p.sandboxMode ==>
      p.VerifyRequest(raw, IPN_DOMAIN, CurlString(RESPONSE_INVALID)).result == Success(Build(raw))
  {
  }

  /** Any other answer, even one differing only by whitespace or case, is an unknown response quoted in the message. */
  lemma UnknownResponse(p: Paypal, raw: StringArray, text: string)
    requires text != RESPONSE_VERIFIED && text != RESPONSE_INVALID
    ensures p.VerifyRequest(raw, IPN_DOMAIN, CurlString(text)).result == Failure(VerificationException(UnknownResponseMessage(text)))
    ensures UnknownResponseMessage(text)[25..25 + |text|] == text
  {
  }
}
