/** The post-processing the join and send-code handlers apply to the E.164
    string the phone library produces (app/api/party/route.ts,
    app/api/verify/send/route.ts). The library itself is an oracle: the model
    receives its result, or `None` when it throws. */
module Phone {
  import opened Common

  /** `if (formatted.startsWith('+549')) formatted = '+54' + formatted.substring(4)`. */
  function CollapseMobilePrefix(e164: string): (r: string)
    // the collapse deletes exactly the character at index 3 (the mobile 9)
    ensures StartsWith(e164, "+549") ==> r == e164[..3] + e164[4..] && |r| == |e164| - 1
    ensures !StartsWith(e164, "+549") ==> r == e164
  {
    if StartsWith(e164, "+549") then "+54" + e164[4..] else e164
  }

  /** The collapse keeps the country code, and a collapsed string differs from
      its input exactly when the input started `+549`. */
  lemma CollapseKeepsCountryCode(e164: string)
    ensures StartsWith(e164, "+54") <==> StartsWith(CollapseMobilePrefix(e164), "+54")
    ensures CollapseMobilePrefix(e164) != e164 <==> StartsWith(e164, "+549")
  {
    var r := CollapseMobilePrefix(e164);
    if StartsWith(e164, "+549") {
      assert |r| < |e164|;
      assert r[..3] == e164[..3];
    }
  }

  /** The collapse is not idempotent on its own: an E.164 string whose national
      part starts with 99 loses one 9 per application. */
  lemma CollapseNotIdempotent()
    ensures CollapseMobilePrefix(CollapseMobilePrefix("+5499123")) != CollapseMobilePrefix("+5499123")
  {
    assert CollapseMobilePrefix("+5499123") == "+549123";
    assert CollapseMobilePrefix("+549123") == "+54123";
  }
}
