/** The part of `java.net.URL` the HTTP backend uses: the host and port
    that scope a set of credentials (`new AuthScope(url.getHost(),
    url.getPort())`), or the MalformedURLException the constructor throws. */
module Urls {
  import opened Wrappers
  import opened Text

  /** `AuthScope(host, port)`; the port is -1 when the URL names none. */
  datatype AuthScope = AuthScope(host: string, port: int)

  /** Protocols for which a standard Java runtime has a URL handler. */
  const KnownProtocols: set<string> := {"http", "https", "ftp", "file", "jar"}

  /** Index of the first character of `s` in `stops`, or `|s|`. */
  function FirstOf(s: string, stops: set<char>): (k: nat)
    ensures k <= |s| && (k < |s| ==> s[k] in stops)
    ensures forall j :: 0 <= j < k ==> s[j] !in stops
  {
    if s == [] || s[0] in stops then 0 else 1 + FirstOf(s[1..], stops)
  }

  /** Index of the last '@' of `s` plus one, or 0 when there is none. */
  function AfterLastAt(s: string): (k: nat)
    ensures k <= |s|
  {
    if s == [] then 0
    else if s[|s| - 1] == '@' then |s|
    else AfterLastAt(s[..|s| - 1])
  }

  /** The authority of a URL, `//userinfo@host:port`, or "" when the URL
      has no `//` after its scheme. */
  function Authority(afterScheme: string): string {
    if StartsWith(afterScheme, "//") then
      var rest := afterScheme[2..];
      rest[..FirstOf(rest, {'/', '?', '#'})]
    else ""
  }

  /** The scope of credentials sent to `url`; `None` where `new URL(url)`
      throws MalformedURLException (no scheme, a scheme without a handler,
      or a port that is not a decimal number). */
  function ScopeOf(url: string): (r: Option<AuthScope>)
    ensures r.Some? ==> r.value.port >= -1
  {
    var colon := FirstOf(url, {':', '/', '?', '#'});
    if colon == |url| || url[colon] != ':' || ToLowerAscii(url[..colon]) !in KnownProtocols then None
    else
      var authority := Authority(url[colon + 1..]);
      var hostPort := authority[AfterLastAt(authority)..];
      var portAt := FirstOf(hostPort, {':'});
      if portAt == |hostPort| then Some(AuthScope(hostPort, -1))
      else
        var digits := hostPort[portAt + 1..];
        if digits == [] then Some(AuthScope(hostPort[..portAt], -1))
        else if forall i :: 0 <= i < |digits| ==> IsDigit(digits[i]) then
          Some(AuthScope(hostPort[..portAt], DigitsValue(digits)))
        else None
  }
}
