/**
 * The router basename of the single-page app: the build's BASE_URL with one
 * trailing '/' removed, so that the router does not see a doubled separator.
 */
module AppBasename {

  /** JavaScript's `s.endsWith("/")`. */
  predicate EndsWithSlash(s: string)
  {
    |s| > 0 && s[|s| - 1] == '/'
  }

  /**
   * `BASE_URL.endsWith("/") ? BASE_URL.slice(0, -1) : BASE_URL`.
   * The result is a prefix of the input, shorter by exactly one character
   * when the input ends with a slash and equal to it otherwise.
   */
  function Basename(baseUrl: string): (r: string)
    ensures r <= baseUrl
    ensures |r| < |baseUrl| <==> EndsWithSlash(baseUrl)
    ensures |baseUrl| - 1 <= |r|
  {
    if EndsWithSlash(baseUrl) then baseUrl[..|baseUrl| - 1] else baseUrl
  }

  /** A trailing slash is the only thing removed: putting it back gives the input. */
  lemma BasenameRestoresSlash(baseUrl: string)
    requires EndsWithSlash(baseUrl)
    ensures Basename(baseUrl) + "/" == baseUrl
    ensures !(Basename(baseUrl) == baseUrl)
  {
    assert baseUrl == baseUrl[..|baseUrl| - 1] + [baseUrl[|baseUrl| - 1]];
  }

  /** Without a trailing slash the basename is the input itself. */
  lemma BasenameKeepsUnslashed(baseUrl: string)
    requires !EndsWithSlash(baseUrl)
    ensures Basename(baseUrl) == baseUrl
  {
  }

  /** Exactly one slash is removed, however many the input ends with. */
  lemma BasenameStripsOnlyOne(prefix: string)
    ensures Basename(prefix + "/") == prefix
  {
    assert (prefix + "/")[..|prefix|] == prefix;
  }

  /** The two boundary cases: "/" becomes "" and "//" becomes "/". */
  lemma BasenameOfSlashes()
    ensures Basename("/") == ""
    ensures Basename("//") == "/"
  {
    BasenameStripsOnlyOne("");
    BasenameStripsOnlyOne("/");
  }
}
