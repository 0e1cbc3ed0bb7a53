/**
 * Logging in: the connection data every request is built from, with the
 * base URL stripped of its trailing slashes.
 */
module Login {
  /** strings.TrimRight(s, "/"): drop every '/' at the end of s. */
  function TrimRightSlash(s: string): (r: string)
    ensures |r| <= |s| && r == s[..|r|]
    ensures r == [] || r[|r| - 1] != '/'
    ensures forall i :: |r| <= i < |s| ==> s[i] == '/'
  {
    if |s| > 0 && s[|s| - 1] == '/' then TrimRightSlash(s[..|s| - 1]) else s
  }

  /** A string with no trailing '/' is left as it is, so trimming twice trims once. */
  lemma {:induction false} TrimRightSlashIdempotent(s: string)
    ensures TrimRightSlash(TrimRightSlash(s)) == TrimRightSlash(s)
  {
  }

  /**
   * The trimmed URL is the only prefix of the input that does not end in
   * '/' and is followed by nothing but '/'.
   */
  lemma TrimRightSlashUnique(s: string, r: string)
    requires |r| <= |s| && r == s[..|r|]
    requires r == [] || r[|r| - 1] != '/'
    requires forall i :: |r| <= i < |s| ==> s[i] == '/'
    ensures r == TrimRightSlash(s)
  {
  }

  /**
   * Hivedata: the base URL, the API key, and what the HTTP client is built
   * with (certificate checks skipped unless verifying, twenty idle
   * connections per host).
   */
  datatype Hivedata = Hivedata(url: string, apikey: string, insecureSkipVerify: bool, maxIdleConnsPerHost: int)

  /** CreateLogin: the URL trimmed of trailing slashes, the key as given. */
  function CreateLogin(inurl: string, apikey: string, verify: bool): (h: Hivedata)
    ensures h.url == TrimRightSlash(inurl) && h.apikey == apikey
    ensures h.url == [] || h.url[|h.url| - 1] != '/'
    ensures h.insecureSkipVerify == !verify && h.maxIdleConnsPerHost == 20
  {
    Hivedata(TrimRightSlash(inurl), apikey, !verify, 20)
  }
}
