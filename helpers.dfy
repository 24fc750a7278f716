/** The two helpers of the sync path: the site's base URL and the
    seconds-to-instant conversion used for every stored timestamp. */
module Helpers {
  import opened Billing

  const Localhost: string := "http://localhost:3000/"

  predicate StartsWith(s: string, prefix: string) {
    |prefix| <= |s| && s[..|prefix|] == prefix
  }

  /** `part` occurs in `s` starting at index `i`. */
  ghost predicate OccursAt(s: string, part: string, i: int) {
    0 <= i && i + |part| <= |s| && s[i..i + |part|] == part
  }

  /** The substring test the URL helper uses: `part` occurs somewhere in `s`
      (the empty string occurs everywhere). Computed by trying each suffix. */
  predicate Contains(s: string, part: string): (b: bool)
    decreases |s|
    ensures b <==> exists i :: OccursAt(s, part, i)
  {
    if StartsWith(s, part) then
      assert OccursAt(s, part, 0);
      true
    else if |s| == 0 then
      false
    else
      assert forall i :: OccursAt(s[1..], part, i) ==> OccursAt(s, part, i + 1) by {
        forall i | OccursAt(s[1..], part, i) ensures OccursAt(s, part, i + 1) {
          assert s[1..][i..i + |part|] == s[i + 1..i + 1 + |part|];
        }
      }
      assert forall i :: OccursAt(s, part, i) && i > 0 ==> OccursAt(s[1..], part, i - 1) by {
        forall i | OccursAt(s, part, i) && i > 0 ensures OccursAt(s[1..], part, i - 1) {
          assert s[1..][i - 1..i - 1 + |part|] == s[i..i + |part|];
        }
      }
      Contains(s[1..], part)
  }

  /** The last character is a slash. The empty string has no last character,
      so it does not end with one. */
  predicate EndsWithSlash(s: string): (b: bool)
    ensures b <==> |s| > 0 && s[|s| - 1..] == "/"
  {
    |s| > 0 && s[|s| - 1] == '/'
  }

  lemma {:induction false} ContainsAppend(s: string, t: string, part: string)
    requires Contains(s, part)
    ensures Contains(s + t, part)
    decreases |s|
  {
    if StartsWith(s, part) {
      assert (s + t)[..|part|] == s[..|part|];
    } else {
      ContainsAppend(s[1..], t, part);
      assert (s + t)[1..] == s[1..] + t;
    }
  }

  lemma {:induction false} ContainsPrefixed(prefix: string, s: string, part: string)
    requires StartsWith(prefix, part)
    ensures Contains(prefix + s, part)
  {
    assert (prefix + s)[..|part|] == prefix[..|part|];
  }

  /** The candidate base URL: the first environment value that is present.
      Only an absent value falls through, so an empty string is kept. */
  function Candidate(siteUrl: Option<string>, vercelUrl: Option<string>): (candidate: string)
    ensures siteUrl.Some? ==> candidate == siteUrl.value
    ensures siteUrl.None? && vercelUrl.Some? ==> candidate == vercelUrl.value
    ensures siteUrl.None? && vercelUrl.None? ==> candidate == Localhost
  {
    if siteUrl.Some? then siteUrl.value
    else if vercelUrl.Some? then vercelUrl.value
    else Localhost
  }

  /** The candidate with a scheme: kept as it is when "http" occurs in it,
      prefixed with `https://` otherwise. */
  function WithScheme(candidate: string): (url: string)
    ensures Contains(url, "http")
    ensures Contains(candidate, "http") ==> url == candidate
    ensures !Contains(candidate, "http") ==> url == "https://" + candidate
  {
    if Contains(candidate, "http") then candidate
    else
      ContainsPrefixed("https://", candidate, "http");
      "https://" + candidate
  }

  /** Adds an `https://` scheme unless "http" occurs somewhere in the
      candidate, then a trailing slash unless one is there. */
  function Normalize(candidate: string): (url: string)
    ensures EndsWithSlash(url) && Contains(url, "http")
    ensures Contains(candidate, "http") ==> url == candidate || url == candidate + "/"
    ensures !Contains(candidate, "http") ==>
              url == "https://" + candidate || url == "https://" + candidate + "/"
    ensures !Contains(candidate, "http") && (candidate == "" || EndsWithSlash(candidate)) ==>
              url == "https://" + candidate
    ensures Contains(candidate, "http") && EndsWithSlash(candidate) ==> url == candidate
  {
    var withScheme := WithScheme(candidate);
    if EndsWithSlash(withScheme) then
      withScheme
    else
      ContainsAppend(withScheme, "/", "http");
      withScheme + "/"
  }

  /** `getURL()` for the given values of NEXT_PUBLIC_SITE_URL and NEXT_PUBLIC_VERCEL_URL. */
  function GetURL(siteUrl: Option<string>, vercelUrl: Option<string>): (url: string)
    ensures EndsWithSlash(url) && Contains(url, "http")
  {
    Normalize(Candidate(siteUrl, vercelUrl))
  }

  /** The normalisation is idempotent. */
  lemma NormalizeIdempotent(candidate: string)
    ensures Normalize(Normalize(candidate)) == Normalize(candidate)
  {
  }

  /** Precedence of the candidates: the site URL wins whenever it is set,
      even to "", then the Vercel URL, then the local development address. */
  lemma GetURLPrecedence(siteUrl: Option<string>, vercelUrl: Option<string>)
    ensures siteUrl.Some? ==> GetURL(siteUrl, vercelUrl) == Normalize(siteUrl.value)
    ensures siteUrl.None? && vercelUrl.Some? ==> GetURL(siteUrl, vercelUrl) == Normalize(vercelUrl.value)
    ensures siteUrl.None? && vercelUrl.None? ==> GetURL(siteUrl, vercelUrl) == Localhost
  {
    if siteUrl.None? && vercelUrl.None? {
      assert StartsWith(Localhost, "http");
    }
  }

  /** An empty site URL does not fall through to the Vercel URL: it becomes
      the bare scheme. */
  lemma EmptySiteUrlIsKept(vercelUrl: Option<string>)
    ensures GetURL(Some(""), vercelUrl) == "https://"
  {
  }

  /** `toDateTime(secs)`: the instant `secs` seconds after the epoch, in
      milliseconds. Every instant it yields is a whole second and gives back
      the seconds it came from. */
  function ToDateTime(secs: int): (ms: int)
    ensures ms % 1000 == 0 && ms / 1000 == secs
  {
    secs * 1000
  }

  /** The conversion is strictly order-preserving, hence injective. */
  lemma ToDateTimeStrictlyMonotone(a: int, b: int)
    ensures a < b <==> ToDateTime(a) < ToDateTime(b)
    ensures a == b <==> ToDateTime(a) == ToDateTime(b)
  {
  }
}
