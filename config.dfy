/**
 * Configuration strings derived from the environment (`apiBase` and
 * `listenAddr` in main.go). `os.Getenv` returns "" for an unset variable, so
 * each function takes the variable's value as a plain string.
 */
module Config {

  /** The upstream base URL used when API_BASE_URL is unset or empty. */
  const DefaultApiBase: string := "https://platify.aukespot.com/"

  /** The listen address used when PORT is unset or empty. */
  const DefaultListenAddr: string := ":8080"

  /**
   * `strings.TrimRight(s, "/")`: removes every trailing '/'. The result is a
   * prefix of `s`, what is cut off consists of slashes only, and the result
   * does not end in '/'.
   */
  function TrimRightSlash(s: string): (r: string)
    ensures |r| <= |s| && r == s[..|r|]
    ensures forall i :: |r| <= i < |s| ==> s[i] == '/'
    ensures r == [] || r[|r| - 1] != '/'
    decreases |s|
  {
    if s != [] && s[|s| - 1] == '/' then TrimRightSlash(s[..|s| - 1]) else s
  }

  /**
   * The three properties of TrimRightSlash determine its result: any prefix
   * of `s` that drops only slashes and does not end in '/' is that result.
   */
  lemma TrimRightSlashUnique(s: string, t: string)
    requires |t| <= |s| && t == s[..|t|]
    requires forall i :: |t| <= i < |s| ==> s[i] == '/'
    requires t == [] || t[|t| - 1] != '/'
    ensures t == TrimRightSlash(s)
  {
  }

  /**
   * `apiBase`: a non-empty environment value with its trailing slashes
   * removed, so the result never ends in '/' and only slashes were cut off;
   * otherwise the default, literally, trailing slash included.
   */
  function ApiBase(env: string): (r: string)
    ensures env != "" ==> r == [] || r[|r| - 1] != '/'
    ensures env != "" ==> |r| <= |env| && env == r + env[|r|..]
    ensures env != "" ==> forall i :: |r| <= i < |env| ==> env[i] == '/'
    ensures env == "" ==> r == DefaultApiBase
  {
    if env != "" then TrimRightSlash(env) else DefaultApiBase
  }

  /** As written, the default base is the one value of `apiBase` that ends in '/'. */
  lemma ApiBaseDefaultEndsInSlash(env: string)
    ensures var r := ApiBase(env);
      (r != [] && r[|r| - 1] == '/') <==> env == ""
  {
    assert DefaultApiBase[|DefaultApiBase| - 1] == '/';
  }

  /**
   * The base as evidently intended: the default is trimmed like an
   * environment value, so no base ever ends in '/'. It agrees with ApiBase
   * whenever API_BASE_URL is set.
   */
  function ApiBaseIntended(env: string): (r: string)
    ensures r == [] || r[|r| - 1] != '/'
    ensures env != "" ==> r == ApiBase(env) == TrimRightSlash(env)
    ensures env == "" ==> r == "https://platify.aukespot.com"
  {
    var r := TrimRightSlash(if env != "" then env else DefaultApiBase);
    assert env == "" ==> r == "https://platify.aukespot.com" by {
      if env == "" {
        TrimRightSlashUnique(DefaultApiBase, "https://platify.aukespot.com");
      }
    }
    r
  }

  /** `listenAddr`: ":" followed by PORT when it is non-empty, else ":8080". */
  function ListenAddr(port: string): (r: string)
    ensures |r| >= 1 && r[0] == ':'
    ensures port != "" ==> r[1..] == port
    ensures port == "" ==> r == DefaultListenAddr
  {
    if port != "" then ":" + port else DefaultListenAddr
  }

  /** Inverse of ListenAddr on a set PORT: the port is everything after the colon. */
  function PortOf(addr: string): string
  {
    if addr != [] then addr[1..] else ""
  }

  /** The port is recovered from the listen address; distinct ports give distinct addresses. */
  lemma ListenAddrRoundTrip(port: string, port': string)
    ensures port != "" ==> PortOf(ListenAddr(port)) == port
    ensures port != "" && port' != "" && ListenAddr(port) == ListenAddr(port') ==> port == port'
    ensures PortOf(ListenAddr("")) == "8080"
  {
  }
}
