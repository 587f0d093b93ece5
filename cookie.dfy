/**
 * Reading the anonymous caller identity from a request's `Cookie` header
 * (`getAnonymousId` in src/lib/access.ts). The source matches the regular expression
 * `ccp_anon=([^;]+)` anywhere in the header, takes the first match's group, trims it and
 * URI-decodes it; the decoding step is not part of this model.
 */
module Cookie {
  import opened Wrappers
  import Js

  const COOKIE_NAME: string := "ccp_anon"
  const MATCH_PREFIX: string := COOKIE_NAME + "="

  /** The pattern `ccp_anon=([^;]+)` matches at position `i`: the name, `=`, then a character other than `;`. */
  predicate MatchesAt(h: string, i: int) {
    0 <= i && i + |MATCH_PREFIX| < |h| && h[i..i + |MATCH_PREFIX|] == MATCH_PREFIX && h[i + |MATCH_PREFIX|] != ';'
  }

  /** `i` is where a regular-expression search finds the pattern: the leftmost position it matches at. */
  predicate LeftmostMatch(h: string, i: int) {
    MatchesAt(h, i) && forall j :: 0 <= j < i ==> !MatchesAt(h, j)
  }

  /** The search for the pattern from position `from` on. */
  function FirstMatch(h: string, from: nat): (r: Option<nat>)
    decreases |h| - from
    ensures r.Some? ==> from <= r.value && MatchesAt(h, r.value)
    ensures r.Some? ==> forall j :: from <= j < r.value ==> !MatchesAt(h, j)
    ensures r.None? ==> forall j :: from <= j ==> !MatchesAt(h, j)
  {
    if from + |MATCH_PREFIX| >= |h| then None
    else if MatchesAt(h, from) then Some(from)
    else FirstMatch(h, from + 1)
  }

  /** The greedy group `([^;]+)` from position `j`: the longest run of characters other than `;`. */
  function Run(h: string, j: nat): (r: string)
    requires j <= |h|
    decreases |h| - j
    ensures j + |r| <= |h| && r == h[j..j + |r|]
    ensures ';' !in r
    ensures j + |r| == |h| || h[j + |r|] == ';'
  {
    if j == |h| || h[j] == ';' then "" else [h[j]] + Run(h, j + 1)
  }

  /** A run of non-`;` characters that ends at a `;` or at the end of the header is what `Run` takes. */
  lemma RunIs(h: string, j: nat, v: string)
    requires j + |v| <= |h| && h[j..j + |v|] == v && ';' !in v
    requires j + |v| == |h| || h[j + |v|] == ';'
    ensures Run(h, j) == v
  {
  }

  /**
   * `getAnonymousId(cookieHeader)`: absent for a missing or empty header and for a header the
   * pattern does not match; otherwise the trimmed group of the leftmost match.
   */
  function GetAnonymousId(cookieHeader: Option<string>): (r: Option<string>)
    ensures !Js.Truthy(cookieHeader) ==> r.None?
    ensures cookieHeader.Some? ==> (r.Some? <==> exists i :: MatchesAt(cookieHeader.value, i))
    ensures r.Some? ==> exists i ::
      LeftmostMatch(cookieHeader.value, i) && r.value == Js.Trim(Run(cookieHeader.value, i + |MATCH_PREFIX|))
    ensures r.Some? ==> ';' !in r.value
  {
    if !Js.Truthy(cookieHeader) then None
    else
      var h := cookieHeader.value;
      match FirstMatch(h, 0)
      case None => None
      case Some(i) =>
        assert LeftmostMatch(h, i);
        Some(Js.Trim(Run(h, i + |MATCH_PREFIX|)))
  }

  /**
   * `getAnonymousIdFromRequest(request)`: the identity in the request's `cookie` header. Header
   * names are keyed in lower case, as the Fetch `Headers` object stores them.
   */
  function GetAnonymousIdFromRequest(headers: map<string, string>): (r: Option<string>)
    ensures "cookie" !in headers ==> r.None?
    ensures r.Some? ==> "cookie" in headers && ';' !in r.value
  {
    GetAnonymousId(if "cookie" in headers then Some(headers["cookie"]) else None)
  }

  /** A value of non-`;`, non-blank characters right after the leftmost match, ended by `;` or the header's end, is the identity. */
  lemma ValueAfterMatch(h: string, i: nat, v: string)
    requires LeftmostMatch(h, i)
    requires i + |MATCH_PREFIX| + |v| <= |h| && h[i + |MATCH_PREFIX|..i + |MATCH_PREFIX| + |v|] == v
    requires ';' !in v && forall k :: 0 <= k < |v| ==> !Js.IsWhitespace(v[k])
    requires i + |MATCH_PREFIX| + |v| == |h| || h[i + |MATCH_PREFIX| + |v|] == ';'
    ensures GetAnonymousId(Some(h)) == Some(v)
  {
    RunIs(h, i + |MATCH_PREFIX|, v);
    ValueAtLeftmost(h, i);
  }

  /**
   * The header a browser sends back after the cookie writer of src/app/components/AnonCookie.tsx:13
   * stored `ccp_anon=<id>` first: the identity read back is the identity written, whatever cookies follow.
   */
  lemma ReadsWrittenCookie(id: string, rest: string)
    requires id != "" && ';' !in id
    requires forall i :: 0 <= i < |id| ==> !Js.IsWhitespace(id[i])
    requires rest == "" || rest[0] == ';'
    ensures GetAnonymousId(Some(MATCH_PREFIX + id + rest)) == Some(id)
  {
    var h := MATCH_PREFIX + id + rest;
    assert h[..|MATCH_PREFIX|] == MATCH_PREFIX;
    assert h[|MATCH_PREFIX|] == id[0];
    assert LeftmostMatch(h, 0);
    assert h[|MATCH_PREFIX|..|MATCH_PREFIX| + |id|] == id;
    ValueAfterMatch(h, 0, id);
  }

  /** In `x_ccp_anon=abc` the pattern is first found inside the longer cookie name. */
  lemma ForeignNameMatches(h: string)
    requires h == "x_ccp_anon=abc"
    ensures LeftmostMatch(h, 2) && h[2 + |MATCH_PREFIX|..] == "abc"
  {
    NoMatchAt(h, 0, 0);
    NoMatchAt(h, 1, 0);
    assert h[2..11] == MATCH_PREFIX;
  }

  /** Text appended after a complete leftmost match leaves it the leftmost match. */
  lemma MatchExtends(a: string, b: string, i: nat)
    requires LeftmostMatch(a, i)
    ensures LeftmostMatch(a + b, i)
  {
    var h := a + b;
    var n := |MATCH_PREFIX|;
    assert h[i..i + n] == a[i..i + n];
    forall j | 0 <= j < i ensures !MatchesAt(h, j) {
      assert !MatchesAt(a, j);
      assert h[j..j + n] == a[j..j + n] && h[j + n] == a[j + n];
    }
  }

  /** A complete leftmost match and its value, followed by nothing or by further cookies after `;`, yields that value. */
  lemma FollowedByCookies(a: string, rest: string, i: nat, v: string)
    requires LeftmostMatch(a, i) && a[i + |MATCH_PREFIX|..] == v
    requires ';' !in v && forall k :: 0 <= k < |v| ==> !Js.IsWhitespace(v[k])
    requires rest == "" || rest[0] == ';'
    ensures GetAnonymousId(Some(a + rest)) == Some(v)
  {
    var h := a + rest;
    var j := i + |MATCH_PREFIX|;
    MatchExtends(a, rest, i);
    assert h[j..j + |v|] == v;
    ValueAfterMatch(h, i, v);
  }

  /**
   * The match is not anchored to a cookie boundary, so a foreign cookie whose name ends in
   * `ccp_anon`, sent first, shadows whatever cookies follow it, the real `ccp_anon` cookie
   * included (as in `x_ccp_anon=abc; ccp_anon=def`).
   */
  lemma LongerNameShadowsCookie(rest: string)
    requires rest == "" || rest[0] == ';'
    ensures GetAnonymousId(Some("x_ccp_anon=abc" + rest)) == Some("abc")
  {
    ForeignNameMatches("x_ccp_anon=abc");
    assert ';' !in "abc" && forall k :: 0 <= k < 3 ==> !Js.IsWhitespace("abc"[k]);
    FollowedByCookies("x_ccp_anon=abc", rest, 2, "abc");
  }

  /** The pattern is found inside a longer cookie name: `x_ccp_anon=abc` yields `abc`. */
  lemma MatchesInsideLongerName()
    ensures GetAnonymousId(Some("x_ccp_anon=abc")) == Some("abc")
  {
    LongerNameShadowsCookie("");
    assert "x_ccp_anon=abc" + "" == "x_ccp_anon=abc";
  }

  /** A header whose only `ccp_anon=` is followed by `;` or by nothing has no identity. */
  lemma EmptyValueIsNoMatch()
    ensures GetAnonymousId(None) == None
    ensures GetAnonymousId(Some("ccp_anon=")) == None
    ensures GetAnonymousId(Some("ccp_anon=;")) == None
  {
    assert "ccp_anon=;"[9] == ';';
  }

  /** A header that differs from the pattern at offset `k` of position `i` has no match there. */
  lemma NoMatchAt(h: string, i: nat, k: nat)
    requires k < |MATCH_PREFIX| && i + k < |h| && h[i + k] != MATCH_PREFIX[k]
    ensures !MatchesAt(h, i)
  {
  }

  /** Once the leftmost match is known, the identity is the trimmed run after it. */
  lemma ValueAtLeftmost(h: string, i: nat)
    requires LeftmostMatch(h, i)
    ensures GetAnonymousId(Some(h)) == Some(Js.Trim(Run(h, i + |MATCH_PREFIX|)))
  {
    var r := GetAnonymousId(Some(h));
    assert r.Some?;
    var i' :| LeftmostMatch(h, i') && r.value == Js.Trim(Run(h, i' + |MATCH_PREFIX|));
    assert i' == i;
  }
}
