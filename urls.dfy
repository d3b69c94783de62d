/**
 * The part of Python's `urllib.parse.urlparse` the handlers rely on: the scheme and
 * the network location, and the `all([scheme, netloc])` validity test built on them.
 * ASCII only; the characters `urlsplit` silently removes (tab, newline) are not modelled.
 */
module Urls {
  import opened Base
  import opened Strings

  predicate IsSchemeChar(c: char) { IsAlpha(c) || IsDigit(c) || c == '+' || c == '-' || c == '.' }

  predicate IsColon(c: char) { c == ':' }

  /** Where the network location ends: at the first `/`, `?` or `#`. */
  predicate IsNetlocEnd(c: char) { c == '/' || c == '?' || c == '#' }

  /** `urlsplit`'s scheme test: text before the first `:` that starts with a letter and consists
      of scheme characters; the scheme is lower-cased and the rest follows the colon. */
  function SplitScheme(url: string): (r: (string, string))
    ensures r.0 != [] ==> |r.0| + 1 + |r.1| == |url| && url[|r.0|] == ':' && r.1 == url[|r.0| + 1..]
    ensures r.0 == [] ==> r.1 == url
  {
    var i := RunLength(url, IsColon);
    if 0 < i < |url| && IsAlpha(url[0]) && (forall j :: 0 <= j < i ==> IsSchemeChar(url[j]))
    then (Lower(url[..i]), url[i + 1..])
    else ([], url)
  }

  function Scheme(url: string): string { SplitScheme(url).0 }

  /** The network location: what follows a leading `//` up to the first `/`, `?` or `#`. */
  function NetlocOfRest(rest: string): (n: string)
    ensures n != [] ==> StartsWith(rest, "//") && |n| + 2 <= |rest| && n == rest[2..2 + |n|]
    ensures forall i :: 0 <= i < |n| ==> !IsNetlocEnd(n[i])
  {
    if StartsWith(rest, "//") then
      var t := rest[2..];
      t[..RunLength(t, IsNetlocEnd)]
    else []
  }

  function Netloc(url: string): string { NetlocOfRest(SplitScheme(url).1) }

  /** `all([parsed.scheme, parsed.netloc])`. */
  predicate IsValidUrl(url: string) { Scheme(url) != [] && Netloc(url) != [] }

  /** A valid URL reads `scheme://netloc...`: the scheme, then `://`, then the host. */
  lemma ValidUrlShape(url: string)
    requires IsValidUrl(url)
    ensures var k := |Scheme(url)|;
            k > 0 && k + 3 + |Netloc(url)| <= |url| && url[k..k + 3] == "://" &&
            url[k + 3..k + 3 + |Netloc(url)|] == Netloc(url)
  {
    var k := |Scheme(url)|;
    var rest := SplitScheme(url).1;
    assert rest == url[k + 1..];
    assert rest[..2] == "//";
    assert url[k..k + 3] == [url[k]] + rest[..2];
  }

  /** Text without `:` is never a URL; neither is the empty string. */
  lemma NoColonNotUrl(s: string)
    requires ':' !in s
    ensures !IsValidUrl(s)
  {
    assert RunLength(s, IsColon) == |s|;
  }

  /** Text that can sit inside a network location: no `/`, `?` or `#`. */
  predicate HostSafe(s: string) { forall i :: 0 <= i < |s| ==> !IsNetlocEnd(s[i]) }

  lemma HostSafeConcat(a: string, b: string)
    requires HostSafe(a) && HostSafe(b)
    ensures HostSafe(a + b)
  {
    forall i | 0 <= i < |a + b| ensures !IsNetlocEnd((a + b)[i]) {
      if i >= |a| {
        assert (a + b)[i] == b[i - |a|];
      }
    }
  }

  /** `"https://" + host + path` with a non-empty host that holds no `/`, `?` or `#` and a path
      that is empty or starts with `/` is a valid URL whose netloc is the host. */
  lemma HttpsUrl(host: string, path: string)
    requires host != [] && HostSafe(host)
    requires path == [] || path[0] == '/'
    ensures Scheme("https://" + host + path) == "https"
    ensures Netloc("https://" + host + path) == host
    ensures IsValidUrl("https://" + host + path)
  {
    var rest := "//" + host + path;
    assert "https://" + host + path == "https:" + rest;
    HttpsScheme(rest);
    NetlocOfHost(host, path);
  }

  lemma HttpsScheme(rest: string)
    ensures SplitScheme("https:" + rest) == ("https", rest)
  {
    var url := "https:" + rest;
    assert url[..5] == "https" && url[5] == ':';
    forall j | 0 <= j < 5 ensures !IsColon(url[j]) && IsSchemeChar(url[j]) {
      assert url[j] == "https"[j];
    }
    RunLengthIs(url, IsColon, 5);
    assert Lower("https") == "https";
  }

  lemma NetlocOfHost(host: string, path: string)
    requires host != [] && HostSafe(host)
    requires path == [] || path[0] == '/'
    ensures NetlocOfRest("//" + host + path) == host
  {
    var rest := "//" + host + path;
    var t := host + path;
    assert rest[..2] == "//" && rest[2..] == t;
    assert t[..|host|] == host;
    forall i | 0 <= i < |host| ensures !IsNetlocEnd(t[i]) {
      assert t[i] == host[i];
    }
    RunLengthIs(t, IsNetlocEnd, |host|);
  }
}
