/** The key the login rate limiter counts requests under
    (login-service/src/middlewares/rateLimiter.js, `keyGenerator`): the
    `for=` value of the `Forwarded` header (RFC 7239, section 5.2), else the
    first address of `X-Forwarded-For`, else the socket address.

    The regular expression `/for=(?:"?\[?)([^;\s,\]]+)/i` is modelled as
    JavaScript runs it: `exec` tries each start position in turn; at a
    position where `for=` matches (ignoring ASCII case), the optional quote
    and bracket are first taken if present and given back one by one
    (bracket first) when the value after them would be empty; the value is
    the longest run of characters other than `;`, `,`, `]` and white space.
    The request counting of the limiter (200 per 15 minutes) is not part of
    this model. */
module RateLimiter {
  import opened Wrappers
  import opened JsText

  /** A character the capture group `[^;\s,\]]` accepts. */
  predicate IsValueChar(c: char)
  {
    c != ';' && c != ',' && c != ']' && !IsSpace(c)
  }

  /** `for=` starts at `i`, the letters in either case. */
  predicate ForAt(s: string, i: nat)
  {
    i + 4 <= |s| && Lower(s[i]) == 'f' && Lower(s[i + 1]) == 'o' && Lower(s[i + 2]) == 'r' && s[i + 3] == '='
  }

  /** The length of the longest run of value characters starting at `j`. */
  function RunLength(s: string, j: nat): (n: nat)
    requires j <= |s|
    decreases |s| - j
    ensures j + n <= |s|
    ensures forall k :: j <= k < j + n ==> IsValueChar(s[k])
    ensures j + n == |s| || !IsValueChar(s[j + n])
  {
    if j < |s| && IsValueChar(s[j]) then 1 + RunLength(s, j + 1) else 0
  }

  /** Where the value may start, in the order the backtracking tries them,
      `p` being just after `for=`: after the quote and then a bracket, after
      the quote alone, after a bracket alone (only possible without a
      quote), and at `p` itself. */
  function Candidates(s: string, p: nat): (cs: seq<nat>)
    requires p <= |s|
    ensures 1 <= |cs| && cs[|cs| - 1] == p
    ensures forall k :: 0 <= k < |cs| ==> p <= cs[k] <= p + 2 && cs[k] <= |s|
  {
    var quote := p < |s| && s[p] == '"';
    var quotedBracket := quote && p + 1 < |s| && s[p + 1] == '[';
    var bracket := p < |s| && s[p] == '[';
    (if quote then (if quotedBracket then [p + 2, p + 1] else [p + 1]) else [])
    + (if bracket then [p + 1, p] else [p])
  }

  /** The first candidate whose value is non-empty. */
  function FirstNonEmpty(s: string, cs: seq<nat>): (r: Option<nat>)
    requires forall k :: 0 <= k < |cs| ==> cs[k] <= |s|
    ensures r.Some? ==> r.value in cs && RunLength(s, r.value) > 0
    ensures r.None? ==> forall k :: 0 <= k < |cs| ==> RunLength(s, cs[k]) == 0
  {
    if cs == [] then None
    else if RunLength(s, cs[0]) > 0 then Some(cs[0])
    else FirstNonEmpty(s, cs[1..])
  }

  /** The regular expression anchored at `i`: the captured value, if the
      match succeeds there. */
  function CaptureAt(s: string, i: nat): Option<string>
    requires ForAt(s, i)
  {
    match FirstNonEmpty(s, Candidates(s, i + 4))
    case None => None
    case Some(c) => Some(s[c..c + RunLength(s, c)])
  }

  /** A match at a `for=` succeeds exactly when the character after `=` is
      a value character (a quote or bracket there counts as one when
      nothing better follows it). */
  lemma CaptureAtSucceedsIff(s: string, i: nat)
    requires ForAt(s, i)
    ensures CaptureAt(s, i).Some? <==> i + 4 < |s| && IsValueChar(s[i + 4])
  {
    var cs := Candidates(s, i + 4);
    if i + 4 < |s| && IsValueChar(s[i + 4]) {
      assert RunLength(s, cs[|cs| - 1]) > 0;
    }
  }

  /** The captured value is a non-empty run of value characters that ends
      where the run ends, and it starts at `c`, right after `for=` once at
      most a quote and a bracket are skipped. */
  lemma CaptureShape(s: string, i: nat) returns (c: nat)
    requires ForAt(s, i) && CaptureAt(s, i).Some?
    ensures var v := CaptureAt(s, i).value;
      && v != []
      && (forall k :: 0 <= k < |v| ==> IsValueChar(v[k]))
      && i + 4 <= c <= i + 6 && c + |v| <= |s| && v == s[c..c + |v|]
      && (c + |v| == |s| || !IsValueChar(s[c + |v|]))
      && (forall k :: i + 4 <= k < c ==> s[k] == '"' || s[k] == '[')
  {
    c := FirstNonEmpty(s, Candidates(s, i + 4)).value;
  }

  /** The regular expression matches at `i`. */
  predicate MatchesAt(s: string, i: nat)
  {
    ForAt(s, i) && CaptureAt(s, i).Some?
  }

  /** `exec` from position `from`: the first position where the whole
      expression matches. */
  function FirstMatch(s: string, from: nat): (r: Option<nat>)
    decreases |s| - from
    ensures r.Some? ==> from <= r.value && MatchesAt(s, r.value)
    ensures r.Some? ==> forall j :: from <= j < r.value ==> !MatchesAt(s, j)
  {
    if from + 4 > |s| then None
    else if MatchesAt(s, from) then Some(from)
    else FirstMatch(s, from + 1)
  }

  /** When `exec` finds nothing, the expression matches at no position
      from `from` on. */
  lemma {:induction false} NoMatchFrom(s: string, from: nat)
    requires FirstMatch(s, from).None?
    ensures forall j :: from <= j ==> !MatchesAt(s, j)
    decreases |s| - from
  {
    if from + 4 <= |s| {
      NoMatchFrom(s, from + 1);
    }
  }

  /** `m?.[1]` for the `Forwarded` header `fwd`. */
  function ForwardedFor(fwd: string): Option<string>
  {
    match FirstMatch(fwd, 0)
    case None => None
    case Some(i) => CaptureAt(fwd, i)
  }

  /** `keyGenerator(req)`: `forwarded` and `xff` are the two headers (absent
      when `None`), `ip` is `req.ip`. */
  function KeyGenerator(forwarded: Option<string>, xff: Option<string>, ip: string): (key: string)
    ensures forwarded.Some? && ForwardedFor(forwarded.value).Some? ==> key == ForwardedFor(forwarded.value).value
    ensures (forwarded.None? || ForwardedFor(forwarded.value).None?) && xff.Some? && xff.value != "" ==>
      key == Trim(BeforeFirst(xff.value, ','))
    ensures (forwarded.None? || ForwardedFor(forwarded.value).None?) && (xff.None? || xff.value == "") ==>
      key == ip
  {
    if forwarded.Some? && forwarded.value != "" && ForwardedFor(forwarded.value).Some? then
      ForwardedFor(forwarded.value).value
    else if xff.Some? && |xff.value| > 0 then
      Trim(BeforeFirst(xff.value, ','))
    else ip
  }

  /** The `Forwarded` value wins over `X-Forwarded-For` and the socket
      address whenever the header has a matching `for=`: the other inputs
      are then irrelevant. */
  lemma ForwardedTakesPrecedence(fwd: string, xff1: Option<string>, xff2: Option<string>, ip1: string, ip2: string)
    requires ForwardedFor(fwd).Some?
    ensures KeyGenerator(Some(fwd), xff1, ip1) == KeyGenerator(Some(fwd), xff2, ip2)
  {
  }

  /** A slice of a prefix is the same slice of the whole. */
  lemma PrefixSlice(a: string, b: string, i: nat, j: nat)
    requires a <= b && i <= j <= |a|
    ensures b[i..j] == a[i..j]
    ensures forall k :: 0 <= k < i ==> b[k] == a[k]
  {
  }

  /** A character absent from a string is absent from its slices. */
  lemma SliceLacks(a: string, i: nat, j: nat, c: char)
    requires i <= j <= |a| && c !in a
    ensures c !in a[i..j]
  {
  }

  /** The first comma-separated entry, trimmed, is a comma-free slice of
      the header with no outer white space, after leading white space. */
  lemma FirstHopSlice(xff: string) returns (lo: nat)
    ensures var key := Trim(BeforeFirst(xff, ','));
      && ',' !in key
      && NoOuterSpace(key)
      && lo + |key| <= |xff| && xff[lo..lo + |key|] == key
      && (forall k :: 0 <= k < lo ==> IsSpace(xff[k]))
  {
    var first := BeforeFirst(xff, ',');
    lo := TrimShape(first);
    var hi := lo + |Trim(first)|;
    PrefixSlice(first, xff, lo, hi);
    SliceLacks(first, lo, hi, ',');
  }

  /** The `X-Forwarded-For` key is the first listed address: it contains
      no comma and no surrounding white space, and the header starts with
      it, apart from leading white space. */
  lemma XffKeyIsFirstHop(xff: string, ip: string) returns (lo: nat)
    requires xff != ""
    ensures var key := KeyGenerator(None, Some(xff), ip);
      && ',' !in key
      && NoOuterSpace(key)
      && lo + |key| <= |xff| && xff[lo..lo + |key|] == key
      && (forall k :: 0 <= k < lo ==> IsSpace(xff[k]))
  {
    assert KeyGenerator(None, Some(xff), ip) == Trim(BeforeFirst(xff, ','));
    lo := FirstHopSlice(xff);
  }

  /** A run of value characters of known length. */
  lemma RunLengthIs(s: string, j: nat, n: nat)
    requires j + n <= |s|
    requires forall k :: j <= k < j + n ==> IsValueChar(s[k])
    requires j + n == |s| || !IsValueChar(s[j + n])
    ensures RunLength(s, j) == n
  {
    var m := RunLength(s, j);
    // Neither a shorter nor a longer run fits both boundaries.
    if m < n {
      assert false;
    } else if m > n {
      assert false;
    }
  }

  /** The characters of the sample values below: digits, dots, colons,
      lower-case hex letters and the quote. */
  predicate IsSampleChar(c: char)
  {
    IsDigit(c) || c == '.' || c == ':' || ('a' <= c <= 'f') || c == '"'
  }

  /** A run made of sample characters. */
  lemma SampleRun(s: string, j: nat, t: string)
    requires j + |t| <= |s| && s[j..j + |t|] == t
    requires forall k :: 0 <= k < |t| ==> IsSampleChar(t[k])
    requires j + |t| == |s| || !IsValueChar(s[j + |t|])
    ensures RunLength(s, j) == |t|
  {
    forall k | j <= k < j + |t|
      ensures IsValueChar(s[k])
    {
      assert s[k] == t[k - j];
    }
    RunLengthIs(s, j, |t|);
  }

  /** A header that starts with a successful `for=` match keys on its
      capture. */
  lemma ForwardedAtStart(s: string, v: string)
    requires ForAt(s, 0) && CaptureAt(s, 0) == Some(v)
    ensures ForwardedFor(s) == Some(v)
  {
    assert MatchesAt(s, 0);
  }

  const PlainHeader := "for=192.0.2.60;proto=http;by=203.0.113.43"

  lemma PlainRun()
    ensures 14 < |PlainHeader| && RunLength(PlainHeader, 4) == 10 && PlainHeader[4..14] == "192.0.2.60"
  {
    var t := "192.0.2.60";
    var s := "for=" + t + ";proto=http;by=203.0.113.43";
    assert s == PlainHeader;
    assert s[4..14] == t && s[14] == ';';
    SampleRun(s, 4, t);
  }

  /** The plain form of section 7.5 of RFC 7239 keys on the address. */
  lemma PlainForExample()
    ensures ForwardedFor(PlainHeader) == Some("192.0.2.60")
  {
    PlainRun();
    assert ForAt(PlainHeader, 0);
    assert Candidates(PlainHeader, 4) == [4];
    ForwardedAtStart(PlainHeader, "192.0.2.60");
  }

  const Ipv6Address := "2001:db8:cafe::17"
  const Ipv6Header := "For=\"[" + Ipv6Address + "]:4711\""

  lemma Ipv6Run()
    ensures 23 < |Ipv6Header| && RunLength(Ipv6Header, 6) == 17 && Ipv6Header[6..23] == "2001:db8:cafe::17"
    ensures Ipv6Header[4] == '"' && Ipv6Header[5] == '['
  {
    var t := Ipv6Address;
    var s := Ipv6Header;
    assert s[6..23] == t && s[23] == ']';
    SampleRun(s, 6, t);
  }

  /** A quoted, bracketed IPv6 address with a port (section 6 of RFC 7239),
      under a capitalised parameter name, keys on the address alone. */
  lemma QuotedIpv6Example()
    ensures ForwardedFor(Ipv6Header) == Some("2001:db8:cafe::17")
  {
    Ipv6Run();
    assert ForAt(Ipv6Header, 0);
    assert Candidates(Ipv6Header, 4) == [6, 5, 4];
    ForwardedAtStart(Ipv6Header, "2001:db8:cafe::17");
  }

  const QuotedPortHeader := "for=\"192.0.2.60:47\""

  lemma QuotedPortRun()
    ensures |QuotedPortHeader| == 19 && RunLength(QuotedPortHeader, 5) == 14
    ensures QuotedPortHeader[5..19] == "192.0.2.60:47\""
    ensures QuotedPortHeader[4] == '"' && QuotedPortHeader[5] == '1'
  {
    var t := "192.0.2.60:47\"";
    var s := "for=\"" + t;
    assert s == QuotedPortHeader;
    assert s[5..19] == t;
    SampleRun(s, 5, t);
  }

  /** The closing quote of a quoted value without brackets stays in the
      key: `for="192.0.2.60:47"` keys on `192.0.2.60:47"`. */
  lemma QuotedPortKeepsQuoteExample()
    ensures ForwardedFor(QuotedPortHeader) == Some("192.0.2.60:47\"")
  {
    QuotedPortRun();
    assert ForAt(QuotedPortHeader, 0);
    assert Candidates(QuotedPortHeader, 4) == [5, 4];
    ForwardedAtStart(QuotedPortHeader, "192.0.2.60:47\"");
  }

  const LoneQuoteHeader := "for=\";by=x"

  lemma LoneQuoteRun()
    ensures |LoneQuoteHeader| == 10 && RunLength(LoneQuoteHeader, 5) == 0 && RunLength(LoneQuoteHeader, 4) == 1
    ensures LoneQuoteHeader[4] == '"' && LoneQuoteHeader[5] == ';'
  {
    var s := LoneQuoteHeader;
    assert s[4] == '"' && s[5] == ';';
    RunLengthIs(s, 5, 0);
    RunLengthIs(s, 4, 1);
  }

  /** A quote followed by a separator is given back to the value:
      `for=";by=x` keys on a lone `"`. */
  lemma LoneQuoteExample()
    ensures ForwardedFor(LoneQuoteHeader) == Some("\"")
  {
    LoneQuoteRun();
    assert ForAt(LoneQuoteHeader, 0);
    assert Candidates(LoneQuoteHeader, 4) == [5, 4];
    assert LoneQuoteHeader[4..5] == "\"";
    ForwardedAtStart(LoneQuoteHeader, "\"");
  }
}
