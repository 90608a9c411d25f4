/** The transport arguments derived from a configured url: the host with a
    leading `http://` or `https://` removed, and whether to use TLS. */
module TransportUrl {

  /** `s.startsWith(prefix)`. */
  predicate StartsWith(s: string, prefix: string)
  {
    |prefix| <= |s| && s[..|prefix|] == prefix
  }

  /** A prefix test splits at any point of the prefix. */
  lemma StartsWithConcat(s: string, p: string, q: string)
    ensures StartsWith(s, p + q) <==> StartsWith(s, p) && StartsWith(s[|p|..], q)
  {
    if StartsWith(s, p) && StartsWith(s[|p|..], q) {
      assert s[..|p + q|] == s[..|p|] + s[|p|..][..|q|];
    }
    if StartsWith(s, p + q) {
      assert s[..|p|] == (p + q)[..|p|];
      assert s[|p|..][..|q|] == s[..|p + q|][|p|..];
    }
  }

  /** What the transport factory is asked for. */
  datatype TransportRequest = TransportRequest(host: string, tls: bool)

  /** `url.replace(/^https?:\/\//, "")`: the pattern is anchored at the start
      and replaced at most once, so it is matched piece by piece here. */
  function StripScheme(url: string): (host: string)
    ensures StartsWith(url, "https://") ==> host == url[8..]
    ensures StartsWith(url, "http://") ==> host == url[7..]
    ensures !StartsWith(url, "http://") && !StartsWith(url, "https://") ==> host == url
  {
    StartsWithConcat(url, "http", "://");
    StartsWithConcat(url, "http", "s://");
    assert "http" + "://" == "http://";
    assert "http" + "s://" == "https://";
    if StartsWith(url, "http") then
      StartsWithConcat(url[4..], "s", "://");
      assert "s" + "://" == "s://";
      assert StartsWith(url, "http://") ==> url[4..][0] == ':' && url[4..][3..] == url[7..];
      var afterHttp := url[4..];
      var afterS := if StartsWith(afterHttp, "s") then afterHttp[1..] else afterHttp;
      if StartsWith(afterS, "://") then afterS[3..] else url
    else
      url
  }

  /** `url.startsWith("https")`: the TLS flag, tested on the bare prefix. */
  predicate UseTls(url: string)
  {
    StartsWith(url, "https")
  }

  /** The arguments handed to the transport factory for `url`. */
  function TransportArgs(url: string): TransportRequest
  {
    TransportRequest(StripScheme(url), UseTls(url))
  }

  /** The url a host and TLS flag are written as. */
  function FormatUrl(host: string, tls: bool): string
  {
    (if tls then "https://" else "http://") + host
  }

  /** Writing a host and flag as a url and deriving the transport arguments
      back gives the same host and flag. */
  lemma {:induction false} TransportArgsRoundTrip(host: string, tls: bool)
    ensures TransportArgs(FormatUrl(host, tls)) == TransportRequest(host, tls)
  {
    var url := FormatUrl(host, tls);
    if tls {
      assert url[..8] == "https://";
      assert url[..5] == "https";
      assert url[8..] == host;
    } else {
      assert url[..7] == "http://";
      assert url[7..] == host;
      assert url[4] == ':';
    }
  }

  /** A url that starts with a scheme is recovered from its transport
      arguments. */
  lemma {:induction false} SchemedUrlRecovered(url: string)
    requires StartsWith(url, "http://") || StartsWith(url, "https://")
    ensures FormatUrl(StripScheme(url), UseTls(url)) == url
  {
    if StartsWith(url, "https://") {
      assert url[..5] == "https";
      assert url == url[..8] + url[8..];
    } else {
      assert url[4] == ':';
      assert !UseTls(url) by { assert url[..5][4] == ':'; }
      assert url == url[..7] + url[7..];
    }
  }

  /** The host is always a suffix of the url, and only a scheme is ever
      removed. */
  lemma HostIsSuffix(url: string)
    ensures var host := StripScheme(url);
            |host| <= |url| && url[|url| - |host|..] == host
    ensures var removed := url[..|url| - |StripScheme(url)|];
            removed == "" || removed == "http://" || removed == "https://"
  {
  }

  /** The pattern is applied once: a url written with a doubled scheme
      keeps its second copy, whatever the two schemes are. */
  lemma StripsOnce(host: string, tls1: bool, tls2: bool)
    ensures StripScheme(FormatUrl(FormatUrl(host, tls2), tls1)) == FormatUrl(host, tls2)
  {
    TransportArgsRoundTrip(FormatUrl(host, tls2), tls1);
  }

  /** The TLS test looks only at the first five characters, so a bare host
      name that begins with "https" selects TLS while keeping its name. */
  lemma TlsFromBareHostName(url: string)
    requires StartsWith(url, "https") && !StartsWith(url, "http://") && !StartsWith(url, "https://")
    ensures TransportArgs(url) == TransportRequest(url, true)
  {
  }
}
