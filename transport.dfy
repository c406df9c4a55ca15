/**
 * The HTTP side of StandardSlackService: the network as an outcome oracle
 * that records every POST it executes, and the client settings that
 * `getHttpClient` derives from the process-wide proxy configuration.
 */
module Transport {
  import opened Wrappers
  import opened SlackApi

  /**
   * The network. `respond(n, r)` is the outcome of the `n`-th POST executed
   * (counting from 0) when that POST is `r`; any behaviour of the remote
   * side, including different answers to equal requests, is some `respond`.
   * `log` lists the POSTs executed so far, in order.
   */
  class Network {
    const respond: (nat, Request) -> Outcome
    var log: seq<Request>

    constructor (respond: (nat, Request) -> Outcome)
      ensures this.respond == respond
      ensures log == []
    {
      this.respond := respond;
      log := [];
    }

    /** `client.executeMethod(post)` together with reading the response body. */
    method Execute(request: Request) returns (outcome: Outcome)
      modifies this
      ensures log == old(log) + [request]
      ensures outcome == respond(|old(log)|, request)
    {
      outcome := respond(|log|, request);
      log := log + [request];
    }
  }

  // ------------------------------------------------------ proxy settings

  /** The process-wide proxy configuration, when one is declared. */
  datatype ProxyConfiguration = ProxyConfiguration(name: string, port: int, userName: Option<string>, password: Option<string>)

  datatype ProxyCredentials = ProxyCredentials(userName: string, password: Option<string>)

  /** What `getHttpClient` configures on a fresh client. */
  datatype ClientSettings = ClientSettings(proxy: Option<(string, int)>, credentials: Option<ProxyCredentials>)

  /** Java's `String.trim` removes every character up to U+0020 at both ends. */
  predicate IsTrimmed(c: char) {
    c <= ' '
  }

  predicate Blank(s: string) {
    forall k :: 0 <= k < |s| ==> IsTrimmed(s[k])
  }

  /** Number of leading characters `trim` removes. */
  function LeadingBlank(s: string): (n: nat)
    ensures n <= |s|
    ensures Blank(s[..n])
    ensures n < |s| ==> !IsTrimmed(s[n])
  {
    if s == [] || !IsTrimmed(s[0]) then 0
    else
      var m := LeadingBlank(s[1..]);
      assert s[..m + 1] == [s[0]] + s[1..][..m];
      m + 1
  }

  /** Length of `s` without the trailing characters `trim` removes. */
  function WithoutTrailingBlank(s: string): (n: nat)
    ensures n <= |s|
    ensures Blank(s[n..])
    ensures n > 0 ==> !IsTrimmed(s[n - 1])
  {
    if s == [] || !IsTrimmed(s[|s| - 1]) then |s|
    else
      var m := WithoutTrailingBlank(s[..|s| - 1]);
      assert s[m..] == s[..|s| - 1][m..] + [s[|s| - 1]];
      m
  }

  /**
   * `s.trim()`: empty exactly when `s` is blank, and otherwise starting and
   * ending with a character that is kept.
   */
  function Trim(s: string): (r: string)
    ensures r == "" <==> Blank(s)
    ensures r == "" || (!IsTrimmed(r[0]) && !IsTrimmed(r[|r| - 1]))
  {
    var i := LeadingBlank(s);
    var rest := s[i..];
    var n := WithoutTrailingBlank(rest);
    assert i < |s| ==> n > 0 by {
      if i < |s| {
        assert rest[0] == s[i];
        assert !Blank(rest[0..]);
      }
    }
    assert i == |s| ==> s[..i] == s;
    assert i < |s| ==> !Blank(s);
    rest[..n]
  }

  /** What `trim` removes at either end is blank: it keeps a middle part of `s`. */
  lemma TrimKeepsMiddle(s: string)
    ensures var i := LeadingBlank(s);
      && i + |Trim(s)| <= |s|
      && Trim(s) == s[i..i + |Trim(s)|]
      && Blank(s[..i])
      && Blank(s[i + |Trim(s)|..])
  {
  }

  /**
   * `getHttpClient`: a fresh client goes through the proxy when one is
   * configured, and authenticates to it when the proxy user name is present
   * and not blank after trimming.
   */
  function HttpClientSettings(proxy: Option<ProxyConfiguration>): (c: ClientSettings)
    ensures c.proxy.Some? <==> proxy.Some?
    ensures c.proxy.Some? ==> c.proxy.value == (proxy.value.name, proxy.value.port)
    ensures c.credentials.Some? <==> proxy.Some? && proxy.value.userName.Some? && !Blank(proxy.value.userName.value)
    ensures c.credentials.Some? ==> c.credentials.value == ProxyCredentials(proxy.value.userName.value, proxy.value.password)
  {
    match proxy
    case None => ClientSettings(None, None)
    case Some(p) =>
      var useCredentials := p.userName.Some? && Trim(p.userName.value) != "";
      ClientSettings(Some((p.name, p.port)), if useCredentials then Some(ProxyCredentials(p.userName.value, p.password)) else None)
  }
}
