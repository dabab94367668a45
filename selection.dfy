/** The choice between the DTLS client and the pooled plain endpoint. */
module TransportSelection {

  datatype Transport = Dtls | Plain

  /** The marker whose presence in the decoded Proxy-Uri selects DTLS. */
  const SECURE_MARKER: string := "coaps"

  /** `pat` occurs in `s` starting at index `i`. */
  predicate OccursAt(s: string, pat: string, i: nat)
  {
    i + |pat| <= |s| && s[i..i + |pat|] == pat
  }

  lemma SliceOfTail(s: string, i: nat, n: nat)
    requires 0 < |s| && i + 1 + n <= |s|
    ensures s[i + 1..i + 1 + n] == s[1..][i..i + n]
  {
    var direct, viaTail := s[i + 1..i + 1 + n], s[1..][i..i + n];
    assert |direct| == n == |viaTail|;
    assert forall k :: 0 <= k < n ==> direct[k] == viaTail[k];
  }

  /** `s.contains(pat)`: `pat` occurs in `s` at some index. */
  function Contains(s: string, pat: string): (r: bool)
    ensures r <==> exists i: nat :: OccursAt(s, pat, i)
    decreases |s|
  {
    if |s| < |pat| then false
    else if s[..|pat|] == pat then assert OccursAt(s, pat, 0); true
    else
      var rest := Contains(s[1..], pat);
      assert forall i: nat :: OccursAt(s, pat, i + 1) <==> OccursAt(s[1..], pat, i) by {
        forall i: nat ensures OccursAt(s, pat, i + 1) <==> OccursAt(s[1..], pat, i) {
          if i + 1 + |pat| <= |s| {
            SliceOfTail(s, i, |pat|);
          }
        }
      }
      assert !OccursAt(s, pat, 0);
      assert (exists i: nat :: OccursAt(s, pat, i)) ==> exists i: nat :: OccursAt(s[1..], pat, i) by {
        if exists i: nat :: OccursAt(s, pat, i) {
          var i: nat :| OccursAt(s, pat, i);
          assert i != 0;
          assert OccursAt(s[1..], pat, i - 1);
        }
      }
      rest
  }

  /** The transport for a decoded Proxy-Uri: a substring test, not a comparison of the scheme. */
  function SelectTransport(decodedProxyUri: string): (t: Transport)
    ensures t == Dtls <==> exists i: nat :: OccursAt(decodedProxyUri, SECURE_MARKER, i)
  {
    if Contains(decodedProxyUri, SECURE_MARKER) then Dtls else Plain
  }

  /** The marker anywhere in the URI selects DTLS, whatever the scheme. */
  lemma MarkerAnywhereSelectsDtls(prefix: string, suffix: string)
    ensures SelectTransport(prefix + SECURE_MARKER + suffix) == Dtls
  {
    var s := prefix + SECURE_MARKER + suffix;
    assert s[|prefix|..|prefix| + 5] == SECURE_MARKER;
    assert OccursAt(s, SECURE_MARKER, |prefix|);
  }

  /** A "coaps" scheme selects DTLS. */
  lemma SecureSchemeSelectsDtls(rest: string)
    ensures SelectTransport("coaps://" + rest) == Dtls
  {
    MarkerAnywhereSelectsDtls([], "://" + rest);
    assert [] + SECURE_MARKER + ("://" + rest) == "coaps://" + rest;
  }

  /** A "coap" URI whose path mentions "coaps" still goes over DTLS. */
  lemma PlainSchemeMayStillSelectDtls()
    ensures SelectTransport("coap://origin/coapsensor") == Dtls
  {
    MarkerAnywhereSelectsDtls("coap://origin/", "ensor");
    assert "coap://origin/" + SECURE_MARKER + "ensor" == "coap://origin/coapsensor";
  }
}
