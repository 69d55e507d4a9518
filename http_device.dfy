// The HTTP network device (octopus_sensing/devices/network_devices/http_device.py):
// every endpoint URL is checked against a regular expression when the device
// is built, and every message taken from the queue is posted, as a dictionary
// of its type and ids, to every endpoint, until TERMINATE.
//
// The regular expression is matched with Python's `re.match`, which anchors
// at the start only. Its four groups are modelled by a greedy scan: every
// group is a maximal run of one character class, and since everything after
// the host is optional, the first match the backtracking engine finds is the
// one the greedy scan finds. `UrlForm` is the grammar of the same language
// written declaratively; the lemmas tie the two together.

module HttpDevice {
  import opened Common
  import opened Messages
  import Endpoints

  // ---------------------------------------------------------------- character classes

  predicate IsLower(c: char) { 'a' <= c <= 'z' }

  /** `[a-z0-9+\-.]`, the scheme after its first letter. */
  predicate IsSchemeChar(c: char) { IsLower(c) || IsDigit(c) || c == '+' || c == '-' || c == '.' }

  /** `[a-z0-9\-._~%]`, a named host. */
  predicate IsNamedHostChar(c: char) { IsLower(c) || IsDigit(c) || c == '-' || c == '.' || c == '_' || c == '~' || c == '%' }

  /** `[a-f0-9]`. */
  predicate IsHexLower(c: char) { IsDigit(c) || 'a' <= c <= 'f' }

  /** `[a-f0-9:.]`, inside the brackets of an IPv6 host. */
  predicate IsIpv6Char(c: char) { IsHexLower(c) || c == ':' || c == '.' }

  /** `[a-z0-9\-._~%!$&'()*+,;=:]`, inside the brackets of an IPvFuture host after its version digit. */
  predicate IsFutureChar(c: char)
  {
    IsNamedHostChar(c) || c == '!' || c == '$' || c == '&' || c == '\'' || c == '(' || c == ')' ||
    c == '*' || c == '+' || c == ',' || c == ';' || c == '=' || c == ':'
  }

  /** `.`, which matches every character but a newline. */
  predicate NotNewline(c: char) { c != '\n' }

  /** The character classes of the expression. */
  datatype CharClass = SchemeClass | NamedHostClass | Ipv6Class | FutureClass | DigitClass | LineClass

  predicate In(cls: CharClass, c: char)
  {
    match cls
    case SchemeClass => IsSchemeChar(c)
    case NamedHostClass => IsNamedHostChar(c)
    case Ipv6Class => IsIpv6Char(c)
    case FutureClass => IsFutureChar(c)
    case DigitClass => IsDigit(c)
    case LineClass => NotNewline(c)
  }

  predicate AllOf(s: string, cls: CharClass)
  {
    forall k :: 0 <= k < |s| ==> In(cls, s[k])
  }

  // ---------------------------------------------------------------- the grammar

  /** `([a-z][a-z0-9+\-.]*://)` */
  predicate SchemeForm(x: string)
  {
    |x| >= 4 && IsLower(x[0]) && AllOf(x[1..|x| - 3], SchemeClass) && x[|x| - 3..] == "://"
  }

  predicate NamedHost(h: string) { h != [] && AllOf(h, NamedHostClass) }

  predicate Ipv6Host(h: string)
  {
    |h| >= 3 && h[0] == '[' && h[|h| - 1] == ']' && AllOf(h[1..|h| - 1], Ipv6Class)
  }

  predicate FutureHost(h: string)
  {
    |h| >= 5 && h[0] == '[' && h[1] == 'v' && IsHexLower(h[2]) && h[|h| - 1] == ']' && AllOf(h[3..|h| - 1], FutureClass)
  }

  /** The host group: a named host, a bracketed IPv6 address or a bracketed IPvFuture address. */
  predicate HostForm(h: string) { NamedHost(h) || Ipv6Host(h) || FutureHost(h) }

  /** `(:[0-9]+)` */
  predicate PortForm(p: string) { |p| >= 2 && p[0] == ':' && AllOf(p[1..], DigitClass) }

  /** `(/.*)` */
  predicate RestForm(r: string) { |r| >= 1 && r[0] == '/' && AllOf(r[1..], LineClass) }

  /** The groups of a match; an optional group that did not take part is None. */
  datatype UrlMatch = UrlMatch(scheme: string, host: string, port: Option<string>, rest: Option<string>)

  function OrEmpty(g: Option<string>): string
  {
    if g.Some? then g.value else ""
  }

  /** The text the match covers. */
  function Render(m: UrlMatch): string
  {
    m.scheme + m.host + OrEmpty(m.port) + OrEmpty(m.rest)
  }

  predicate UrlForm(m: UrlMatch)
  {
    SchemeForm(m.scheme) && HostForm(m.host) &&
    (m.port.Some? ==> PortForm(m.port.value)) && (m.rest.Some? ==> RestForm(m.rest.value))
  }

  // ---------------------------------------------------------------- the greedy scan

  /** The end of the longest run of characters satisfying `p` that starts at `i`. */
  function RunEnd(s: string, i: nat, cls: CharClass): (j: nat)
    requires i <= |s|
    ensures i <= j <= |s|
    ensures forall k :: i <= k < j ==> In(cls, s[k])
    ensures j == |s| || !In(cls, s[j])
    decreases |s| - i
  {
    if i < |s| && In(cls, s[i]) then RunEnd(s, i + 1, cls) else i
  }

  /** A run is determined by where it starts. */
  lemma RunEndAt(s: string, i: nat, cls: CharClass, j: nat)
    requires i <= j <= |s|
    requires forall k :: i <= k < j ==> In(cls, s[k])
    requires j == |s| || !In(cls, s[j])
    ensures RunEnd(s, i, cls) == j
  {
  }

  lemma AllOfSlice(s: string, i: nat, j: nat, cls: CharClass)
    requires i <= j <= |s|
    requires forall k :: i <= k < j ==> In(cls, s[k])
    ensures AllOf(s[i..j], cls)
  {
    forall k | 0 <= k < j - i
      ensures In(cls, s[i..j][k])
    {
      assert s[i..j][k] == s[i + k];
    }
  }

  /** Where the host group ends, trying the three alternatives in order. */
  function HostEnd(s: string, i: nat): (r: Option<nat>)
    requires i <= |s|
    ensures r.Some? ==> i < r.value <= |s| && HostForm(s[i..r.value])
  {
    var j := RunEnd(s, i, NamedHostClass);
    if j > i then
      AllOfSlice(s, i, j, NamedHostClass);
      Some(j)
    else if i < |s| && s[i] == '[' then
      var k := RunEnd(s, i + 1, Ipv6Class);
      if k > i + 1 && k < |s| && s[k] == ']' then
        Ipv6At(s, i, k);
        Some(k + 1)
      else if i + 2 < |s| && s[i + 1] == 'v' && IsHexLower(s[i + 2]) then
        var m := RunEnd(s, i + 3, FutureClass);
        if m > i + 3 && m < |s| && s[m] == ']' then
          FutureAt(s, i, m);
          Some(m + 1)
        else None
      else None
    else None
  }

  /** Brackets at i and k around IPv6 characters make an IPv6 host. */
  lemma Ipv6At(s: string, i: nat, k: nat)
    requires i + 1 < k < |s| && s[i] == '[' && s[k] == ']'
    requires forall j :: i + 1 <= j < k ==> In(Ipv6Class, s[j])
    ensures Ipv6Host(s[i..k + 1])
  {
    var h := s[i..k + 1];
    var inner := h[1..|h| - 1];
    forall j | 0 <= j < |inner|
      ensures In(Ipv6Class, inner[j])
    {
      assert inner[j] == s[i + 1 + j];
    }
  }

  /** Brackets at i and m around "v", a hexadecimal digit and IPvFuture characters make an IPvFuture host. */
  lemma FutureAt(s: string, i: nat, m: nat)
    requires i + 3 < m < |s| && s[i] == '[' && s[i + 1] == 'v' && IsHexLower(s[i + 2]) && s[m] == ']'
    requires forall j :: i + 3 <= j < m ==> In(FutureClass, s[j])
    ensures FutureHost(s[i..m + 1])
  {
    var h := s[i..m + 1];
    var inner := h[3..|h| - 1];
    forall j | 0 <= j < |inner|
      ensures In(FutureClass, inner[j])
    {
      assert inner[j] == s[i + 3 + j];
    }
  }

  /** Where the optional port group ends; `i` itself when it does not take part. */
  function PortEnd(s: string, i: nat): (r: nat)
    requires i <= |s|
    ensures i <= r <= |s|
    ensures r > i ==> PortForm(s[i..r])
  {
    if i < |s| && s[i] == ':' then
      var j := RunEnd(s, i + 1, DigitClass);
      if j > i + 1 then
        AllOfSlice(s, i + 1, j, DigitClass);
        assert s[i..j][1..] == s[i + 1..j];
        j
      else i
    else i
  }

  /** Where the optional rest group ends; `i` itself when it does not take part. */
  function RestEnd(s: string, i: nat): (r: nat)
    requires i <= |s|
    ensures i <= r <= |s|
    ensures r > i ==> RestForm(s[i..r])
  {
    if i < |s| && s[i] == '/' then
      var j := RunEnd(s, i + 1, LineClass);
      AllOfSlice(s, i + 1, j, LineClass);
      assert s[i..j][1..] == s[i + 1..j];
      j
    else i
  }

  /** The scheme group: a lower-case letter, a run of scheme characters ending at j, then "://". */
  lemma SchemeAt(url: string, j: nat)
    requires 1 <= j && j + 3 <= |url| && IsLower(url[0]) && url[j..j + 3] == "://"
    requires forall k :: 1 <= k < j ==> In(SchemeClass, url[k])
    ensures SchemeForm(url[..j + 3])
  {
    AllOfSlice(url, 1, j, SchemeClass);
    assert url[..j + 3][1..j] == url[1..j];
    assert url[..j + 3][j..] == url[j..j + 3];
  }

  /** Four adjacent slices make up the prefix they cover. */
  lemma SlicesJoin(s: string, a: nat, b: nat, c: nat, e: nat)
    requires a <= b <= c <= e <= |s|
    ensures s[..a] + s[a..b] + (if c > b then s[b..c] else "") + (if e > c then s[c..e] else "") == s[..e]
  {
    if c > b {
      assert s[..a] + s[a..b] + s[b..c] == s[..c];
    } else {
      assert s[..a] + s[a..b] + "" == s[..c];
    }
    if e > c {
      assert s[..c] + s[c..e] == s[..e];
    } else {
      assert s[..c] + "" == s[..e];
    }
  }

  /**
   * `_url_regex.match(url)`: None when the URL does not match, otherwise the
   * four groups (`MatchSound` shows they are a prefix of the URL in the grammar).
   */
  function MatchUrl(url: string): Option<UrlMatch>
  {
    if |url| == 0 || !IsLower(url[0]) then None
    else MatchAfterScheme(url, RunEnd(url, 1, SchemeClass))
  }

  /** The match once the scheme's characters run up to `j`: "://" must follow, then a host. */
  function MatchAfterScheme(url: string, j: nat): Option<UrlMatch>
    requires j <= |url|
  {
    if j + 3 > |url| || url[j..j + 3] != "://" then None
    else
      var h := HostEnd(url, j + 3);
      if h.None? then None
      else Some(Groups(url, j + 3, h.value, PortEnd(url, h.value)))
  }

  /** The four groups, given where the scheme, the host and the port end. */
  function Groups(url: string, a: nat, b: nat, c: nat): UrlMatch
    requires a <= b <= c <= |url|
  {
    var e := RestEnd(url, c);
    UrlMatch(url[..a], url[a..b], if c > b then Some(url[b..c]) else None, if e > c then Some(url[c..e]) else None)
  }

  /** What the scan returns is in the grammar, and it is a prefix of the URL. */
  lemma MatchSound(url: string)
    ensures MatchUrl(url).Some? ==> UrlForm(MatchUrl(url).value) && Render(MatchUrl(url).value) <= url
  {
    if MatchUrl(url).Some? {
      var j := RunEnd(url, 1, SchemeClass);
      var h := HostEnd(url, j + 3).value;
      var p := PortEnd(url, h);
      var e := RestEnd(url, p);
      SchemeAt(url, j);
      SlicesJoin(url, j + 3, h, p, e);
    }
  }

  // ---------------------------------------------------------------- match and grammar

  /** A scheme at the start of `s` is what the scan reads as the scheme group. */
  lemma SchemeScan(s: string, scheme: string)
    requires SchemeForm(scheme) && scheme <= s
    ensures IsLower(s[0]) && RunEnd(s, 1, SchemeClass) == |scheme| - 3
    ensures s[|scheme| - 3..|scheme|] == "://" && s[..|scheme|] == scheme
  {
    var n := |scheme|;
    assert s[..n] == scheme;
    assert s[0] == scheme[0];
    forall k | 1 <= k < n - 3
      ensures In(SchemeClass, s[k])
    {
      assert s[k] == scheme[k] == scheme[1..n - 3][k - 1];
    }
    assert s[n - 3..n] == scheme[n - 3..];
    assert s[n - 3] == scheme[n - 3..][0];
    RunEndAt(s, 1, SchemeClass, n - 3);
  }

  /**
   * A host at `a` is found by the scan; it is read back exactly when what
   * follows it cannot continue it.
   */
  lemma HostScan(s: string, a: nat, h: string)
    requires a + |h| <= |s| && s[a..a + |h|] == h && HostForm(h)
    ensures HostEnd(s, a).Some?
    ensures a + |h| == |s| || s[a + |h|] == ':' || s[a + |h|] == '/' ==> HostEnd(s, a) == Some(a + |h|)
  {
    if NamedHost(h) {
      NamedHostScan(s, a, h);
    } else if Ipv6Host(h) {
      Ipv6HostScan(s, a, h);
    } else {
      FutureHostScan(s, a, h);
    }
  }

  lemma NamedHostScan(s: string, a: nat, h: string)
    requires a + |h| <= |s| && s[a..a + |h|] == h && NamedHost(h)
    ensures HostEnd(s, a).Some?
    ensures a + |h| == |s| || s[a + |h|] == ':' || s[a + |h|] == '/' ==> HostEnd(s, a) == Some(a + |h|)
  {
    var b := a + |h|;
    forall k | a <= k < b
      ensures In(NamedHostClass, s[k])
    {
      assert s[k] == s[a..b][k - a];
    }
    if b == |s| || s[b] == ':' || s[b] == '/' {
      RunEndAt(s, a, NamedHostClass, b);
    }
  }

  lemma Ipv6HostScan(s: string, a: nat, h: string)
    requires a + |h| <= |s| && s[a..a + |h|] == h && Ipv6Host(h)
    ensures HostEnd(s, a) == Some(a + |h|)
  {
    var b := a + |h|;
    assert s[a] == s[a..b][0];
    RunEndAt(s, a, NamedHostClass, a);
    forall k | a + 1 <= k < b - 1
      ensures In(Ipv6Class, s[k])
    {
      assert s[k] == s[a..b][k - a] == h[1..|h| - 1][k - a - 1];
    }
    assert s[b - 1] == s[a..b][|h| - 1];
    RunEndAt(s, a + 1, Ipv6Class, b - 1);
  }

  lemma FutureHostScan(s: string, a: nat, h: string)
    requires a + |h| <= |s| && s[a..a + |h|] == h && FutureHost(h)
    ensures HostEnd(s, a) == Some(a + |h|)
  {
    var b := a + |h|;
    assert s[a] == s[a..b][0];
    RunEndAt(s, a, NamedHostClass, a);
    assert s[a + 1] == s[a..b][1] && s[a + 2] == s[a..b][2] && s[b - 1] == s[a..b][|h| - 1];
    RunEndAt(s, a + 1, Ipv6Class, a + 1);
    forall k | a + 3 <= k < b - 1
      ensures In(FutureClass, s[k])
    {
      assert s[k] == s[a..b][k - a] == h[3..|h| - 1][k - a - 3];
    }
    RunEndAt(s, a + 3, FutureClass, b - 1);
  }

  /** A port group at `b`, or none, read back by the scan when a path or the end follows. */
  lemma PortScan(s: string, b: nat, port: Option<string>)
    requires b + |OrEmpty(port)| <= |s| && s[b..b + |OrEmpty(port)|] == OrEmpty(port)
    requires port.Some? ==> PortForm(port.value)
    requires b + |OrEmpty(port)| == |s| || s[b + |OrEmpty(port)|] == '/'
    ensures PortEnd(s, b) == b + |OrEmpty(port)|
  {
    if port.Some? {
      var c := b + |port.value|;
      assert s[b] == s[b..c][0];
      forall k | b + 1 <= k < c
        ensures In(DigitClass, s[k])
      {
        assert s[k] == s[b..c][k - b] == port.value[1..][k - b - 1];
      }
      RunEndAt(s, b + 1, DigitClass, c);
    }
  }

  /** A rest group at `c` running to the end, or none at the end, read back by the scan. */
  lemma RestScan(s: string, c: nat, rest: Option<string>)
    requires c <= |s| && s[c..] == OrEmpty(rest)
    requires rest.Some? ==> RestForm(rest.value)
    ensures RestEnd(s, c) == |s|
  {
    if rest.Some? {
      assert s[c] == s[c..][0];
      forall k | c + 1 <= k < |s|
        ensures In(LineClass, s[k])
      {
        assert s[k] == s[c..][k - c] == rest.value[1..][k - c - 1];
      }
      RunEndAt(s, c + 1, LineClass, |s|);
    }
  }

  /** Where each group sits in the rendered text. */
  lemma RenderSlices(m: UrlMatch)
    ensures var s := Render(m);
      var a := |m.scheme|;
      var b := a + |m.host|;
      var c := b + |OrEmpty(m.port)|;
      c <= |s| && s[..a] == m.scheme && s[a..b] == m.host && s[b..c] == OrEmpty(m.port) && s[c..] == OrEmpty(m.rest)
  {
    var x := m.scheme + m.host;
    var y := x + OrEmpty(m.port);
    assert x[..|m.scheme|] == m.scheme && x[|m.scheme|..] == m.host;
    assert y[..|x|] == x && y[|x|..] == OrEmpty(m.port);
    assert Render(m)[..|y|] == y && Render(m)[|y|..] == OrEmpty(m.rest);
  }

  /** Whatever the grammar produces, the scan reads back into the same groups. */
  lemma MatchRender(m: UrlMatch)
    requires UrlForm(m)
    ensures MatchUrl(Render(m)) == Some(m)
  {
    var s := Render(m);
    var a := |m.scheme|;
    var b := a + |m.host|;
    var c := b + |OrEmpty(m.port)|;
    SchemeOfRender(m);
    EndsOfRender(m);
    MatchOfEnds(s, a, b, c);
    GroupsOfRender(m, s, a, b, c);
  }

  /** Cut where the groups end, the rendered text gives back the groups. */
  lemma GroupsOfRender(m: UrlMatch, s: string, a: nat, b: nat, c: nat)
    requires UrlForm(m)
    requires s == Render(m) && a == |m.scheme| && b == a + |m.host| && c == b + |OrEmpty(m.port)|
    requires c <= |s| && RestEnd(s, c) == |s|
    ensures Groups(s, a, b, c) == m
  {
    RenderSlices(m);
    var port := if c > b then Some(s[b..c]) else None;
    var rest := if |s| > c then Some(s[c..|s|]) else None;
    assert port == m.port by {
      if m.port.Some? {
        assert c > b;
      }
    }
    assert rest == m.rest by {
      assert s[c..|s|] == s[c..];
    }
  }

  /** The scan reads the scheme of a rendered match as that match's scheme. */
  lemma SchemeOfRender(m: UrlMatch)
    requires UrlForm(m)
    ensures var s := Render(m);
      var a := |m.scheme|;
      4 <= a <= |s| && IsLower(s[0]) && RunEnd(s, 1, SchemeClass) == a - 3 && s[a - 3..a] == "://"
  {
    RenderSlices(m);
    SchemeScan(Render(m), m.scheme);
  }

  /** Where the scan's host, port and rest runs end in the rendered text: at the group boundaries. */
  lemma EndsOfRender(m: UrlMatch)
    requires UrlForm(m)
    ensures var s := Render(m);
      var a := |m.scheme|;
      var b := a + |m.host|;
      var c := b + |OrEmpty(m.port)|;
      c <= |s| && HostEnd(s, a) == Some(b) && PortEnd(s, b) == c && RestEnd(s, c) == |s|
  {
    var s := Render(m);
    var port := OrEmpty(m.port);
    var rest := OrEmpty(m.rest);
    var a := |m.scheme|;
    var b := a + |m.host|;
    var c := b + |port|;
    RenderSlices(m);
    if c < |s| {
      assert s[c] == s[c..][0] == rest[0];
    }
    if b < |s| {
      if m.port.Some? {
        assert s[b] == s[b..c][0] == port[0];
      } else {
        assert s[b] == s[c..][0];
      }
    }
    HostScan(s, a, m.host);
    PortScan(s, b, m.port);
    RestScan(s, c, m.rest);
  }

  /** The match, given where the scan's runs end. */
  lemma MatchOfEnds(url: string, a: nat, h: nat, p: nat)
    requires 4 <= a <= |url| && IsLower(url[0])
    requires RunEnd(url, 1, SchemeClass) == a - 3 && url[a - 3..a] == "://"
    requires HostEnd(url, a) == Some(h) && PortEnd(url, h) == p
    ensures MatchUrl(url) == Some(Groups(url, a, h, p))
  {
  }

  /**
   * The match is anchored at the start only: a URL with a scheme and a host
   * at its start always matches, and the scheme group is that scheme,
   * whatever follows.
   */
  lemma MatchFindsPrefix(url: string, scheme: string, host: string)
    requires SchemeForm(scheme) && HostForm(host) && scheme + host <= url
    ensures MatchUrl(url).Some? && MatchUrl(url).value.scheme == scheme
  {
    var a := |scheme|;
    assert scheme <= url;
    SchemeScan(url, scheme);
    assert url[a..a + |host|] == host;
    HostScan(url, a, host);
  }

  /**
   * A colon after a named host that is not followed by a digit starts no
   * port: the match stops at the host and both optional groups are None.
   */
  lemma NonNumericPortIgnored(scheme: string, host: string, tail: string)
    requires SchemeForm(scheme) && NamedHost(host)
    requires |tail| >= 2 && tail[0] == ':' && !IsDigit(tail[1])
    ensures MatchUrl(scheme + host + tail) == Some(UrlMatch(scheme, host, None, None))
  {
    var s := scheme + host + tail;
    var a := |scheme|;
    var b := a + |host|;
    assert scheme <= s;
    SchemeScan(s, scheme);
    assert s[a..b] == host;
    assert s[b] == tail[0] && s[b + 1] == tail[1];
    NamedHostScan(s, a, host);
    NoPortHere(s, b);
    MatchOfEnds(s, a, b, b);
  }

  /** A colon not followed by a digit starts neither a port nor a path. */
  lemma NoPortHere(s: string, b: nat)
    requires b + 1 < |s| && s[b] == ':' && !IsDigit(s[b + 1])
    ensures PortEnd(s, b) == b && RestEnd(s, b) == b
  {
    RunEndAt(s, b + 1, DigitClass, b + 1);
  }

  // ---------------------------------------------------------------- validation

  /** An endpoint `_validate_endpoints` lets through: it matches, with scheme "http://" or "https://". */
  predicate Accepted(url: string)
  {
    MatchUrl(url).Some? && (MatchUrl(url).value.scheme == "http://" || MatchUrl(url).value.scheme == "https://")
  }

  /** `_validate_endpoints`: RuntimeError at the first endpoint that is not accepted. */
  function ValidateEndpoints(endpoints: seq<string>): (r: Result<()>)
    ensures r.Ok? <==> forall i :: 0 <= i < |endpoints| ==> Accepted(endpoints[i])
    ensures r.Err? ==> r.error == "RuntimeError"
  {
    if endpoints == [] then Ok(())
    else if !Accepted(endpoints[0]) then Err("RuntimeError")
    else
      var r := ValidateEndpoints(endpoints[1..]);
      assert forall i :: 1 <= i < |endpoints| ==> endpoints[i] == endpoints[1..][i - 1];
      r
  }

  /** The scheme of an accepted URL is lower-case http or https, and so an upper-case scheme is refused. */
  lemma UpperCaseSchemeRefused(url: string)
    requires url != [] && 'A' <= url[0] <= 'Z'
    ensures !Accepted(url) && MatchUrl(url).None?
  {
  }

  // ---------------------------------------------------------------- the post target

  /** What `_http_post` opens and posts to: a connection target, a port and a path. */
  datatype Target = Target(connectTo: string, port: Option<int>, path: string)

  function PortOf(m: UrlMatch): (port: Option<int>)
    requires m.port.Some? ==> PortForm(m.port.value)
    ensures port.Some? <==> m.port.Some?
    ensures port.Some? ==> PyInt(m.port.value[1..]) == Ok(port.value)
  {
    if m.port.Some? then
      PyIntOfDigits(m.port.value[1..]);
      Some(DigitsValue(m.port.value[1..]) as int)
    else None
  }

  function PathOf(m: UrlMatch): (path: string)
    requires m.rest.Some? ==> RestForm(m.rest.value)
    ensures path != [] && path[0] == '/'
    ensures m.rest.Some? ==> path == m.rest.value
    ensures m.rest.None? ==> path == "/"
  {
    if m.rest.Some? then m.rest.value else "/"
  }

  /** `_http_post` as written: the connection target is "{scheme}:{host}", the scheme included. */
  function PostTargetAsWritten(url: string): (t: Target)
    requires MatchUrl(url).Some?
  {
    MatchSound(url);
    var m := MatchUrl(url).value;
    Target(m.scheme + ":" + m.host, PortOf(m), PathOf(m))
  }

  /** As written, the connection target is never a host of the URL grammar: it holds the scheme's "://". */
  lemma ConnectToIsNoHost(url: string)
    requires MatchUrl(url).Some?
    ensures !HostForm(PostTargetAsWritten(url).connectTo)
  {
    MatchSound(url);
    var m := MatchUrl(url).value;
    SchemeColonNoHost(m.scheme, m.host);
  }

  /** A scheme, a colon and anything after it is no host: it starts with a letter and holds a '/'. */
  lemma SchemeColonNoHost(scheme: string, host: string)
    requires SchemeForm(scheme)
    ensures !HostForm(scheme + ":" + host)
  {
    var c := scheme + ":" + host;
    var n := |scheme|;
    assert c[0] == scheme[0];
    assert c[n - 1] == scheme[n - 3..][2] == '/';
    assert !In(NamedHostClass, c[n - 1]);
  }

  /** The evident intent: connect to the host, on the port of the URL, and post to its path. */
  function PostTarget(url: string): (t: Target)
    requires MatchUrl(url).Some?
    ensures HostForm(t.connectTo) && t.connectTo == MatchUrl(url).value.host
    ensures t.path != [] && t.path[0] == '/'
  {
    MatchSound(url);
    var m := MatchUrl(url).value;
    Target(m.host, PortOf(m), PathOf(m))
  }

  /** For a URL written from its parts, the target gives back the host, the port's number and the path. */
  lemma PostTargetOfParts(m: UrlMatch)
    requires UrlForm(m)
    ensures MatchUrl(Render(m)) == Some(m)
    ensures var t := PostTarget(Render(m));
      t.connectTo == m.host &&
      (m.port.None? ==> t.port.None?) &&
      (m.port.Some? ==> t.port.Some? && PyInt(m.port.value[1..]) == Ok(t.port.value)) &&
      t.path == (if m.rest.Some? then m.rest.value else "/")
  {
    MatchRender(m);
  }

  /** The example "http://localhost:5003/" connects to "http://:localhost" as written, to "localhost" as intended. */
  lemma LocalhostTarget()
    ensures MatchUrl("http://localhost:5003/").Some?
    ensures PostTargetAsWritten("http://localhost:5003/").connectTo == "http://" + ":" + "localhost"
    ensures PostTarget("http://localhost:5003/").connectTo == "localhost"
    ensures PostTarget("http://localhost:5003/").port.Some?
    ensures PostTarget("http://localhost:5003/").path == "/"
  {
    var url := "http://localhost:5003/";
    var m := UrlMatch("http://", "localhost", Some(":5003"), Some("/"));
    LocalhostMatch();
    TargetsOfMatch(url, m);
  }

  /** Both targets, read off the groups of the match. */
  lemma TargetsOfMatch(url: string, m: UrlMatch)
    requires MatchUrl(url) == Some(m)
    ensures UrlForm(m)
    ensures PostTargetAsWritten(url) == Target(m.scheme + ":" + m.host, PortOf(m), PathOf(m))
    ensures PostTarget(url) == Target(m.host, PortOf(m), PathOf(m))
  {
    MatchSound(url);
  }

  lemma LocalhostMatch()
    ensures MatchUrl("http://localhost:5003/") == Some(UrlMatch("http://", "localhost", Some(":5003"), Some("/")))
  {
    var m := UrlMatch("http://", "localhost", Some(":5003"), Some("/"));
    SchemeLiterals();
    HostLiterals();
    PortLiterals();
    RestLiterals();
    RenderLocalhostPort5003();
    MatchRender(m);
  }

  lemma RenderLocalhostPort5003()
    ensures Render(UrlMatch("http://", "localhost", Some(":5003"), Some("/"))) == "http://localhost:5003/"
  {
  }

  // ---------------------------------------------------------------- the URLs of the device's test

  lemma Bracketed(inner: string)
    requires inner != [] && AllOf(inner, Ipv6Class)
    ensures Ipv6Host("[" + inner + "]")
  {
    var h := "[" + inner + "]";
    assert h[1..|h| - 1] == inner;
  }

  lemma LiteralForms()
    ensures SchemeForm("http://") && SchemeForm("https://") && SchemeForm("ftp://")
    ensures NamedHost("localhost") && NamedHost("192.168.1.1")
    ensures Ipv6Host("[::1]") && Ipv6Host("[2345:425:2ca1:0000:0000:567:5673:23b5]")
    ensures PortForm(":80") && PortForm(":5003") && PortForm(":8080") && PortForm(":9090")
    ensures RestForm("/") && RestForm("/abc/def") && RestForm("/data?q=123")
  {
    SchemeLiterals();
    HostLiterals();
    PortLiterals();
    RestLiterals();
  }

  lemma SchemeLiterals()
    ensures SchemeForm("http://") && SchemeForm("https://") && SchemeForm("ftp://")
  {
    assert "http://"[1..4] == "ttp" && "https://"[1..5] == "ttps" && "ftp://"[1..3] == "tp";
  }

  lemma HostLiterals()
    ensures NamedHost("localhost") && NamedHost("192.168.1.1")
    ensures Ipv6Host("[::1]") && Ipv6Host("[2345:425:2ca1:0000:0000:567:5673:23b5]")
  {
    Ipv6Literals();
  }

  lemma Ipv6Literals()
    ensures Ipv6Host("[::1]") && Ipv6Host("[2345:425:2ca1:0000:0000:567:5673:23b5]")
  {
    LoopbackLiteral();
    LongIpv6Literal();
  }

  lemma LoopbackLiteral()
    ensures Ipv6Host("[::1]")
  {
    assert "[::1]"[1..4] == "::1";
  }

  lemma LongIpv6Literal()
    ensures Ipv6Host("[2345:425:2ca1:0000:0000:567:5673:23b5]")
  {
    var h := "[2345:425:2ca1:0000:0000:567:5673:23b5]";
    var inner := h[1..|h| - 1];
    forall j | 0 <= j < |inner|
      ensures In(Ipv6Class, inner[j])
    {
      assert inner[j] == h[j + 1];
    }
  }

  lemma PortLiterals()
    ensures PortForm(":80") && PortForm(":5003") && PortForm(":8080") && PortForm(":9090")
  {
    assert ":80"[1..] == "80" && ":5003"[1..] == "5003" && ":8080"[1..] == "8080" && ":9090"[1..] == "9090";
  }

  lemma RestLiterals()
    ensures RestForm("/") && RestForm("/abc/def") && RestForm("/data?q=123")
  {
    assert "/"[1..] == "" && "/abc/def"[1..] == "abc/def" && "/data?q=123"[1..] == "data?q=123";
  }

  /** Without "://" right after the scheme characters there is no match. */
  lemma NoSchemeSeparator(url: string, j: nat)
    requires 1 <= j < |url| && IsLower(url[0])
    requires forall k :: 1 <= k < j ==> In(SchemeClass, url[k])
    requires !In(SchemeClass, url[j]) && !(j + 3 <= |url| && url[j..j + 3] == "://")
    ensures MatchUrl(url).None?
  {
    RunEndAt(url, 1, SchemeClass, j);
  }

  /** The URLs the device's test expects to be refused. */
  lemma RefusedTestUrls()
    ensures !Accepted("localhost:5003") && !Accepted("127.0.0.1") && !Accepted("ftp://localhost:5003")
    ensures !Accepted("http:/192.168.1.1/") && !Accepted("http//192.168.1.1/")
  {
    RefusedWithoutSeparator();
    RefusedFtp();
  }

  lemma RefusedWithoutSeparator()
    ensures MatchUrl("localhost:5003").None? && MatchUrl("127.0.0.1").None?
    ensures MatchUrl("http:/192.168.1.1/").None? && MatchUrl("http//192.168.1.1/").None?
  {
    NoSchemeInLocalhost();
    SingleSlashRefused();
    NoColonRefused();
  }

  lemma NoSchemeInLocalhost()
    ensures MatchUrl("localhost:5003").None?
  {
    assert "localhost:5003"[9..12] == ":50";
    NoSchemeSeparator("localhost:5003", 9);
  }

  lemma SingleSlashRefused()
    ensures MatchUrl("http:/192.168.1.1/").None?
  {
    assert "http:/192.168.1.1/"[4..7] == ":/1";
    NoSchemeSeparator("http:/192.168.1.1/", 4);
  }

  lemma NoColonRefused()
    ensures MatchUrl("http//192.168.1.1/").None?
  {
    assert "http//192.168.1.1/"[4..7] == "//1";
    NoSchemeSeparator("http//192.168.1.1/", 4);
  }

  lemma RefusedFtp()
    ensures MatchUrl("ftp://localhost:5003").Some? && MatchUrl("ftp://localhost:5003").value.scheme == "ftp://"
  {
    LiteralForms();
    assert "ftp://" + "localhost" <= "ftp://localhost:5003";
    MatchFindsPrefix("ftp://localhost:5003", "ftp://", "localhost");
  }

  /** "http://192.168.1.1:abc/" is accepted; its port is ignored and the post goes to "/". */
  lemma NonNumericPortTestUrl()
    ensures Accepted("http://192.168.1.1:abc/")
    ensures PostTarget("http://192.168.1.1:abc/") == Target("192.168.1.1", None, "/")
  {
    LiteralForms();
    assert "http://" + "192.168.1.1" + ":abc/" == "http://192.168.1.1:abc/";
    NonNumericPortIgnored("http://", "192.168.1.1", ":abc/");
  }

  /** A URL written from well-formed parts with an http or https scheme is accepted. */
  lemma AcceptedParts(m: UrlMatch)
    requires UrlForm(m) && (m.scheme == "http://" || m.scheme == "https://")
    ensures Accepted(Render(m))
  {
    MatchRender(m);
  }

  /** The URLs the device's test expects to be accepted, split into their groups (see `TestUrlGroups`). */
  lemma AcceptedTestUrls()
    ensures Accepted(Render(UrlMatch("http://", "localhost", Some(":80"), None)))
    ensures Accepted(Render(UrlMatch("https://", "localhost", None, Some("/"))))
    ensures Accepted(Render(UrlMatch("http://", "192.168.1.1", None, Some("/"))))
    ensures Accepted(Render(UrlMatch("http://", "192.168.1.1", Some(":8080"), Some("/"))))
    ensures Accepted(Render(UrlMatch("http://", "[::1]", None, Some("/"))))
    ensures Accepted(Render(UrlMatch("http://", "[2345:425:2ca1:0000:0000:567:5673:23b5]", None, Some("/"))))
    ensures Accepted(Render(UrlMatch("http://", "[2345:425:2ca1:0000:0000:567:5673:23b5]", Some(":8080"), Some("/"))))
    ensures Accepted(Render(UrlMatch("https://", "localhost", None, Some("/abc/def"))))
    ensures Accepted(Render(UrlMatch("http://", "localhost", Some(":9090"), Some("/data?q=123"))))
  {
    LiteralForms();
    AcceptedParts(UrlMatch("http://", "localhost", Some(":80"), None));
    AcceptedParts(UrlMatch("https://", "localhost", None, Some("/")));
    AcceptedParts(UrlMatch("http://", "192.168.1.1", None, Some("/")));
    AcceptedParts(UrlMatch("http://", "192.168.1.1", Some(":8080"), Some("/")));
    AcceptedParts(UrlMatch("http://", "[::1]", None, Some("/")));
    AcceptedParts(UrlMatch("http://", "[2345:425:2ca1:0000:0000:567:5673:23b5]", None, Some("/")));
    AcceptedParts(UrlMatch("http://", "[2345:425:2ca1:0000:0000:567:5673:23b5]", Some(":8080"), Some("/")));
    AcceptedParts(UrlMatch("https://", "localhost", None, Some("/abc/def")));
    AcceptedParts(UrlMatch("http://", "localhost", Some(":9090"), Some("/data?q=123")));
  }

  /**
   * The groups of each accepted URL of the device's test write that URL back
   * (the two URLs with the long IPv6 address are stated by their groups only).
   */
  lemma TestUrlGroups()
    ensures Render(UrlMatch("http://", "localhost", Some(":80"), None)) == "http://localhost:80"
    ensures Render(UrlMatch("https://", "localhost", None, Some("/"))) == "https://localhost/"
    ensures Render(UrlMatch("http://", "192.168.1.1", None, Some("/"))) == "http://192.168.1.1/"
    ensures Render(UrlMatch("http://", "192.168.1.1", Some(":8080"), Some("/"))) == "http://192.168.1.1:8080/"
    ensures Render(UrlMatch("https://", "localhost", None, Some("/abc/def"))) == "https://localhost/abc/def"
    ensures Render(UrlMatch("http://", "localhost", Some(":9090"), Some("/data?q=123"))) == "http://localhost:9090/data?q=123"
    ensures Render(UrlMatch("http://", "[::1]", None, Some("/"))) == "http://[::1]/"
  {
    RenderLocalhostPort();
    RenderHttpsLocalhost();
    RenderIpv4();
    RenderIpv4Port();
    RenderHttpsPath();
    RenderQuery();
    RenderLoopback();
  }

  lemma RenderLocalhostPort()
    ensures Render(UrlMatch("http://", "localhost", Some(":80"), None)) == "http://localhost:80"
  {
  }

  lemma RenderHttpsLocalhost()
    ensures Render(UrlMatch("https://", "localhost", None, Some("/"))) == "https://localhost/"
  {
  }

  lemma RenderIpv4()
    ensures Render(UrlMatch("http://", "192.168.1.1", None, Some("/"))) == "http://192.168.1.1/"
  {
  }

  lemma RenderIpv4Port()
    ensures Render(UrlMatch("http://", "192.168.1.1", Some(":8080"), Some("/"))) == "http://192.168.1.1:8080/"
  {
  }

  lemma RenderHttpsPath()
    ensures Render(UrlMatch("https://", "localhost", None, Some("/abc/def"))) == "https://localhost/abc/def"
  {
  }

  lemma RenderQuery()
    ensures Render(UrlMatch("http://", "localhost", Some(":9090"), Some("/data?q=123"))) == "http://localhost:9090/data?q=123"
  {
  }

  lemma RenderLoopback()
    ensures Render(UrlMatch("http://", "[::1]", None, Some("/"))) == "http://[::1]/"
  {
  }



  // ---------------------------------------------------------------- the message body

  /** `_send_message`'s dictionary: the type and the two ids, and nothing else; the payload is not sent. */
  function MessageBody(m: Message): (body: Endpoints.Body)
    ensures body.Keys == {"type", "experiment_id", "stimulus_id"}
    ensures body["type"] == m.msgType && body["experiment_id"] == m.experimentId && body["stimulus_id"] == m.stimulusId
  {
    map["type" := m.msgType, "experiment_id" := m.experimentId, "stimulus_id" := m.stimulusId]
  }

  /**
   * Posted to Octopus Sensing's own message endpoint, the body is dispatched
   * exactly when its type is a string and its ids are None or strings, and
   * then as the same message without its payload.
   */
  lemma BodyReachesEndpoint(m: Message)
    ensures var (_, sent) := Endpoints.PostMessage(MessageBody(m));
      (sent.Some? <==> m.msgType.VStr? && Endpoints.NoneOrStr(m.experimentId) && Endpoints.NoneOrStr(m.stimulusId)) &&
      (sent.Some? ==> sent.value == m.(payload := VNone))
  {
    var body := MessageBody(m);
    assert Endpoints.Get(body, "experiment_id") == m.experimentId;
    assert Endpoints.Get(body, "stimulus_id") == m.stimulusId;
    assert Endpoints.Get(body, "payload") == VNone;
  }

  // ---------------------------------------------------------------- the message loop

  /** One POST: the endpoint and the dictionary it carries. */
  datatype Post = Post(endpoint: string, body: Endpoints.Body)

  predicate IsTerminate(m: Message) { m.msgType == VStr(TERMINATE) }

  /** `_send_message`: the message's body, once to every endpoint, in the order of the endpoints. */
  function Posts(endpoints: seq<string>, m: Message): (r: seq<Post>)
    ensures |r| == |endpoints|
    ensures forall i :: 0 <= i < |endpoints| ==> r[i] == Post(endpoints[i], MessageBody(m))
  {
    seq(|endpoints|, i requires 0 <= i < |endpoints| => Post(endpoints[i], MessageBody(m)))
  }

  /** The loop stops: some message is a TERMINATE. */
  predicate Stops(msgs: seq<Option<Message>>)
  {
    msgs != [] && ((msgs[0].Some? && IsTerminate(msgs[0].value)) || Stops(msgs[1..]))
  }

  /** The messages that are not None. */
  function Present(msgs: seq<Option<Message>>): seq<Message>
  {
    if msgs == [] then [] else (if msgs[0].Some? then [msgs[0].value] else []) + Present(msgs[1..])
  }

  /**
   * `_run`: the messages the loop sends, in queue order: every message that
   * is not None, up to and including the first TERMINATE.
   */
  function Forwarded(msgs: seq<Option<Message>>): (r: seq<Message>)
    ensures forall i :: 0 <= i < |r| - 1 ==> !IsTerminate(r[i])
    ensures Stops(msgs) <==> r != [] && IsTerminate(r[|r| - 1])
    ensures !Stops(msgs) ==> r == Present(msgs)
  {
    if msgs == [] then []
    else if msgs[0].None? then Forwarded(msgs[1..])
    else if IsTerminate(msgs[0].value) then [msgs[0].value]
    else [msgs[0].value] + Forwarded(msgs[1..])
  }

  /** Every forwarded message, once to every endpoint. */
  function PostsOf(endpoints: seq<string>, ms: seq<Message>): seq<Post>
  {
    if ms == [] then [] else Posts(endpoints, ms[0]) + PostsOf(endpoints, ms[1..])
  }

  /** Sending two runs of messages posts the first run's bodies, then the second's. */
  lemma {:induction false} PostsOfAppend(endpoints: seq<string>, a: seq<Message>, b: seq<Message>)
    ensures PostsOf(endpoints, a + b) == PostsOf(endpoints, a) + PostsOf(endpoints, b)
  {
    if a == [] {
      assert a + b == b;
    } else {
      assert (a + b)[0] == a[0] && (a + b)[1..] == a[1..] + b;
      PostsOfAppend(endpoints, a[1..], b);
    }
  }

  /**
   * Each forwarded message is posted once to every endpoint, in queue order:
   * message `j`'s posts come after those of the messages before it and before
   * those of the messages after it.
   */
  lemma PostsOfLayout(endpoints: seq<string>, ms: seq<Message>, j: nat)
    requires j < |ms|
    ensures PostsOf(endpoints, ms) == PostsOf(endpoints, ms[..j]) + Posts(endpoints, ms[j]) + PostsOf(endpoints, ms[j + 1..])
  {
    assert ms == ms[..j] + [ms[j]] + ms[j + 1..];
    PostsOfAppend(endpoints, ms[..j] + [ms[j]], ms[j + 1..]);
    PostsOfAppend(endpoints, ms[..j], [ms[j]]);
    assert PostsOf(endpoints, [ms[j]]) == Posts(endpoints, ms[j]) + PostsOf(endpoints, []);
  }

  lemma {:induction false} PostsOfLength(endpoints: seq<string>, ms: seq<Message>)
    ensures |PostsOf(endpoints, ms)| == |ms| * |endpoints|
  {
    if ms != [] {
      PostsOfLength(endpoints, ms[1..]);
      assert |ms| * |endpoints| == |endpoints| + (|ms| - 1) * |endpoints|;
    }
  }

  /** One turn of the loop, against the messages still in the queue. */
  lemma RunStep(endpoints: seq<string>, queue: seq<Option<Message>>)
    requires queue != []
    ensures queue[0].None? ==>
      PostsOf(endpoints, Forwarded(queue)) == PostsOf(endpoints, Forwarded(queue[1..])) && (Stops(queue) <==> Stops(queue[1..]))
    ensures queue[0].Some? && IsTerminate(queue[0].value) ==>
      PostsOf(endpoints, Forwarded(queue)) == Posts(endpoints, queue[0].value) && Stops(queue)
    ensures queue[0].Some? && !IsTerminate(queue[0].value) ==>
      PostsOf(endpoints, Forwarded(queue)) == Posts(endpoints, queue[0].value) + PostsOf(endpoints, Forwarded(queue[1..])) &&
      (Stops(queue) <==> Stops(queue[1..]))
  {
    if queue[0].Some? {
      var m := queue[0].value;
      var f := Forwarded(queue);
      if IsTerminate(m) {
        assert f == [m];
        assert PostsOf(endpoints, [m]) == Posts(endpoints, m) + PostsOf(endpoints, []);
      } else {
        assert f == [m] + Forwarded(queue[1..]);
        assert f[1..] == Forwarded(queue[1..]);
      }
    }
  }

  /** Messages after the first TERMINATE are never sent. */
  lemma {:induction false} NothingAfterTerminate(msgs: seq<Option<Message>>, more: seq<Option<Message>>)
    requires Stops(msgs)
    ensures Forwarded(msgs + more) == Forwarded(msgs)
  {
    assert (msgs + more)[1..] == msgs[1..] + more;
    if !(msgs[0].Some? && IsTerminate(msgs[0].value)) {
      NothingAfterTerminate(msgs[1..], more);
    }
  }

  /** None messages are skipped and change nothing. */
  lemma {:induction false} NoneSkipped(pre: seq<Option<Message>>, post: seq<Option<Message>>)
    ensures Forwarded(pre + [None] + post) == Forwarded(pre + post)
  {
    if pre == [] {
      assert pre + [None] + post == [None] + post && pre + post == post;
      assert ([None] + post)[1..] == post;
    } else {
      assert (pre + [None] + post)[0] == pre[0] && (pre + [None] + post)[1..] == pre[1..] + [None] + post;
      assert (pre + post)[0] == pre[0] && (pre + post)[1..] == pre[1..] + post;
      NoneSkipped(pre[1..], post);
    }
  }

  /** The device: its endpoints, and a log of the posts its threads make. */
  /**
   * `_run` after `consumed` messages: until TERMINATE, what was posted and
   * what the rest of the queue will post make up what the whole queue posts;
   * once TERMINATE came, everything has been posted.
   */
  ghost predicate Running(endpoints: seq<string>, before: seq<Post>, now: seq<Post>, msgs: seq<Option<Message>>,
                          consumed: nat, stopped: bool)
  {
    consumed <= |msgs| &&
    (!stopped ==>
      before + PostsOf(endpoints, Forwarded(msgs)) == now + PostsOf(endpoints, Forwarded(msgs[consumed..])) &&
      (Stops(msgs) <==> Stops(msgs[consumed..]))) &&
    (stopped ==>
      now == before + PostsOf(endpoints, Forwarded(msgs)) && Stops(msgs) &&
      consumed > 0 && msgs[consumed - 1].Some? && IsTerminate(msgs[consumed - 1].value))
  }

  lemma RunningStart(endpoints: seq<string>, before: seq<Post>, msgs: seq<Option<Message>>)
    ensures Running(endpoints, before, before, msgs, 0, false)
  {
    assert msgs[0..] == msgs;
  }

  /** Taking one more message keeps `Running`: its posts are added, and a TERMINATE stops the loop. */
  lemma RunningStep(endpoints: seq<string>, before: seq<Post>, now: seq<Post>, msgs: seq<Option<Message>>, consumed: nat)
    requires Running(endpoints, before, now, msgs, consumed, false) && consumed < |msgs|
    ensures var m := msgs[consumed];
      Running(endpoints, before, now + (if m.Some? then Posts(endpoints, m.value) else []), msgs, consumed + 1,
              m.Some? && IsTerminate(m.value))
  {
    var queue := msgs[consumed..];
    assert queue[1..] == msgs[consumed + 1..];
    RunStep(endpoints, queue);
    var m := msgs[consumed];
    if m.Some? {
      var rest := PostsOf(endpoints, Forwarded(queue[1..]));
      if IsTerminate(m.value) {
      } else {
        assert now + (Posts(endpoints, m.value) + rest) == (now + Posts(endpoints, m.value)) + rest;
      }
    } else {
      assert now + [] == now;
    }
  }

  /** When the loop ends, every message it forwards has been posted. */
  lemma RunningDone(endpoints: seq<string>, before: seq<Post>, now: seq<Post>, msgs: seq<Option<Message>>,
                    consumed: nat, stopped: bool)
    requires Running(endpoints, before, now, msgs, consumed, stopped) && !(consumed < |msgs| && !stopped)
    ensures now == before + PostsOf(endpoints, Forwarded(msgs)) && stopped == Stops(msgs)
    ensures !stopped ==> consumed == |msgs|
  {
    if !stopped {
      assert msgs[consumed..] == [];
      assert now + [] == now;
    }
  }

  class HttpNetworkDevice {
    const endpoints: seq<string>
    ghost var posts: seq<Post>

    /** The constructor, for endpoints that pass validation. */
    constructor(endpoints: seq<string>)
      requires ValidateEndpoints(endpoints).Ok?
      ensures this.endpoints == endpoints && posts == []
    {
      this.endpoints := endpoints;
      posts := [];
    }

    /** Building a device: None where validation raises. */
    static method Create(endpoints: seq<string>) returns (device: HttpNetworkDevice?)
      ensures device == null <==> ValidateEndpoints(endpoints).Err?
      ensures device != null ==> fresh(device) && device.endpoints == endpoints && device.posts == []
    {
      if ValidateEndpoints(endpoints).Err? {
        return null;
      }
      device := new HttpNetworkDevice(endpoints);
    }

    /** `_send_message`: one post per endpoint. */
    method SendMessage(m: Message)
      modifies this
      ensures posts == old(posts) + Posts(endpoints, m)
    {
      var i := 0;
      while i < |endpoints|
        invariant 0 <= i <= |endpoints|
        invariant posts == old(posts) + Posts(endpoints, m)[..i]
      {
        assert Posts(endpoints, m)[..i + 1] == Posts(endpoints, m)[..i] + [Post(endpoints[i], MessageBody(m))];
        posts := posts + [Post(endpoints[i], MessageBody(m))];
        i := i + 1;
      }
      assert Posts(endpoints, m)[..i] == Posts(endpoints, m);
    }

    /**
     * `_run`: take messages until TERMINATE; `consumed` counts the messages
     * taken from the queue and `stopped` says whether TERMINATE came.
     */
    method Run(msgs: seq<Option<Message>>) returns (consumed: nat, stopped: bool)
      modifies this
      ensures posts == old(posts) + PostsOf(endpoints, Forwarded(msgs))
      ensures stopped == Stops(msgs)
      ensures consumed <= |msgs|
      ensures stopped ==> consumed > 0 && msgs[consumed - 1].Some? && IsTerminate(msgs[consumed - 1].value)
      ensures !stopped ==> consumed == |msgs|
    {
      consumed := 0;
      stopped := false;
      RunningStart(endpoints, posts, msgs);
      while consumed < |msgs| && !stopped
        invariant Running(endpoints, old(posts), posts, msgs, consumed, stopped)
      {
        RunningStep(endpoints, old(posts), posts, msgs, consumed);
        var msg := msgs[consumed];
        consumed := consumed + 1;
        if msg.Some? {
          SendMessage(msg.value);
          if IsTerminate(msg.value) {
            stopped := true;
          }
        }
      }
      RunningDone(endpoints, old(posts), posts, msgs, consumed, stopped);
    }
  }
}
