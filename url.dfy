/** The parts of Python's `urllib.parse` the client uses: splitting off the scheme and
    the network location (`urlparse`), and joining an absolute path onto a base URL
    (`urljoin`). */
module Url {
  import opened Text

  predicate IsAsciiLetter(c: char) {
    'a' <= c <= 'z' || 'A' <= c <= 'Z'
  }

  /** Characters allowed in a URL scheme: letters, digits, `+`, `-` and `.`. */
  predicate IsSchemeChar(c: char) {
    IsAsciiLetter(c) || '0' <= c <= '9' || c == '+' || c == '-' || c == '.'
  }

  /** Characters that end the network location. */
  predicate IsNetlocDelimiter(c: char) {
    c == '/' || c == '?' || c == '#'
  }

  /** `s.find(':')`, with `|s|` standing for "not found". */
  function IndexOfColon(s: string): (i: nat)
    ensures i <= |s|
    ensures i < |s| ==> s[i] == ':'
    ensures forall j :: 0 <= j < i ==> s[j] != ':'
  {
    if s == [] then 0 else if s[0] == ':' then 0 else 1 + IndexOfColon(s[1..])
  }

  lemma {:induction false} IndexOfColonAt(s: string, i: nat)
    requires i < |s| && s[i] == ':' && forall j :: 0 <= j < i ==> s[j] != ':'
    ensures IndexOfColon(s) == i
  {
    if i > 0 {
      IndexOfColonAt(s[1..], i - 1);
    }
  }

  /** Index of the first network-location delimiter in `s`, or `|s|`. */
  function IndexOfDelimiter(s: string): (i: nat)
    ensures i <= |s|
    ensures i < |s| ==> IsNetlocDelimiter(s[i])
    ensures forall j :: 0 <= j < i ==> !IsNetlocDelimiter(s[j])
  {
    if s == [] then 0 else if IsNetlocDelimiter(s[0]) then 0 else 1 + IndexOfDelimiter(s[1..])
  }

  lemma {:induction false} IndexOfDelimiterAt(s: string, i: nat)
    requires i < |s| && IsNetlocDelimiter(s[i]) && forall j :: 0 <= j < i ==> !IsNetlocDelimiter(s[j])
    ensures IndexOfDelimiter(s) == i
  {
    if i > 0 {
      IndexOfDelimiterAt(s[1..], i - 1);
    }
  }

  /** The text before the first `:` is a scheme when it is non-empty, starts with a
      letter and has only scheme characters. */
  predicate HasScheme(u: string) {
    var i := IndexOfColon(u);
    0 < i < |u| && IsAsciiLetter(u[0]) && forall k :: 0 <= k < i ==> IsSchemeChar(u[k])
  }

  /** `urlparse(u).scheme` (lower-cased) and the remainder after `scheme:`. */
  function SplitScheme(u: string): (string, string) {
    if HasScheme(u) then
      var i := IndexOfColon(u);
      (Lower(u[..i]), u[i + 1..])
    else ("", u)
  }

  /** The network location of the remainder: what follows `//` up to the first
      `/`, `?` or `#`; empty when the remainder does not start with `//`. */
  function Netloc(rest: string): string {
    if |rest| >= 2 && rest[..2] == "//" then
      rest[2..2 + IndexOfDelimiter(rest[2..])]
    else ""
  }

  /** `f"{urlparse(u).scheme}://{urlparse(u).netloc}"`: the origin the multi-server
      client keys its servers by. */
  function Normalize(u: string): string {
    var (scheme, rest) := SplitScheme(u);
    scheme + "://" + Netloc(rest)
  }

  lemma LowerKeepsSchemeChars(s: string)
    requires |s| > 0 && IsAsciiLetter(s[0])
    requires forall k :: 0 <= k < |s| ==> IsSchemeChar(s[k])
    ensures IsAsciiLetter(Lower(s)[0])
    ensures forall k :: 0 <= k < |s| ==> IsSchemeChar(Lower(s)[k]) && Lower(s)[k] != ':'
  {
  }

  /** The first `:` after a scheme is the one that ends it. */
  lemma ColonAfterScheme(scheme: string, rest: string)
    requires |scheme| > 0 && IsAsciiLetter(scheme[0])
    requires forall k :: 0 <= k < |scheme| ==> IsSchemeChar(scheme[k])
    ensures IndexOfColon(scheme + (":" + rest)) == |scheme|
    ensures HasScheme(scheme + (":" + rest))
  {
    var u := scheme + (":" + rest);
    forall j | 0 <= j < |scheme| ensures u[j] != ':' && IsSchemeChar(u[j]) {
      assert u[j] == scheme[j];
    }
    assert u[|scheme|] == ':';
    IndexOfColonAt(u, |scheme|);
  }

  /** A lower-case scheme followed by `:` is split off again as it was. */
  lemma SchemeOf(scheme: string, rest: string)
    requires |scheme| > 0 && IsAsciiLetter(scheme[0]) && Lower(scheme) == scheme
    requires forall k :: 0 <= k < |scheme| ==> IsSchemeChar(scheme[k])
    ensures SplitScheme(scheme + (":" + rest)) == (scheme, rest)
  {
    var u := scheme + (":" + rest);
    ColonAfterScheme(scheme, rest);
    AroundSeparator(scheme, ':', rest);
    assert SplitScheme(u) == (Lower(scheme), rest);
  }

  /** After `//`, the network location runs to the end of a host without delimiters. */
  lemma NetlocOf(host: string, path: string)
    requires forall c :: c in host ==> !IsNetlocDelimiter(c)
    requires path == [] || IsNetlocDelimiter(path[0])
    ensures Netloc("//" + (host + path)) == host
  {
    var tail := host + path;
    var rest := "//" + tail;
    assert rest[..2] == "//" && rest[2..] == tail;
    forall j | 0 <= j < |host| ensures !IsNetlocDelimiter(tail[j]) {
      assert tail[j] == host[j] && host[j] in host;
    }
    if path != [] {
      assert tail[|host|] == path[0];
      IndexOfDelimiterAt(tail, |host|);
    }
    assert tail[..|host|] == host;
  }

  /** `scheme://host/path` regrouped as the scheme, the colon and the remainder. */
  lemma OriginShape(scheme: string, host: string, path: string)
    ensures scheme + "://" + host + path == scheme + (":" + ("//" + (host + path)))
  {
    ConcatAssoc(scheme, "://", host);
    ConcatAssoc(scheme, "://" + host, path);
    ConcatAssoc("://", host, path);
    assert "://" == ":" + "//";
    ConcatAssoc(":", "//", host + path);
  }

  /** How a URL built from a lower-case scheme, a host and a path splits: the scheme
      comes back as it was, and the origin is the scheme and the host alone. */
  lemma OriginParts(scheme: string, host: string, path: string)
    requires |scheme| > 0 && IsAsciiLetter(scheme[0]) && Lower(scheme) == scheme
    requires forall k :: 0 <= k < |scheme| ==> IsSchemeChar(scheme[k])
    requires forall c :: c in host ==> !IsNetlocDelimiter(c)
    requires path == [] || IsNetlocDelimiter(path[0])
    ensures SplitScheme(scheme + "://" + host + path).0 == scheme
    ensures Normalize(scheme + "://" + host + path) == scheme + "://" + host
  {
    var rest := "//" + (host + path);
    OriginShape(scheme, host, path);
    SchemeOf(scheme, rest);
    NetlocOf(host, path);
  }

  /** The network location holds no delimiter. */
  lemma NetlocHasNoDelimiter(rest: string)
    ensures forall c :: c in Netloc(rest) ==> !IsNetlocDelimiter(c)
  {
    var n := Netloc(rest);
    if |rest| >= 2 && rest[..2] == "//" {
      var s := rest[2..];
      assert n == s[..IndexOfDelimiter(s)];
      forall c | c in n ensures !IsNetlocDelimiter(c) {
        var j :| 0 <= j < |n| && n[j] == c;
        assert n[j] == s[j];
      }
    }
  }

  /** A normalised URL that has a scheme is its own normalisation, so a server key is
      found again when it is passed back to `remove_server` or `refresh_tools`. */
  lemma NormalizeIdempotent(u: string)
    requires HasScheme(u)
    ensures Normalize(Normalize(u)) == Normalize(u)
  {
    var i := IndexOfColon(u);
    var scheme, rest := Lower(u[..i]), u[i + 1..];
    assert SplitScheme(u) == (scheme, rest);
    var netloc := Netloc(rest);
    NetlocHasNoDelimiter(rest);
    LowerKeepsSchemeChars(u[..i]);
    LowerIdempotent(u[..i]);
    OriginParts(scheme, netloc, []);
    assert scheme + "://" + netloc + [] == scheme + "://" + netloc;
  }

  /** Schemes whose URLs `urljoin` resolves relative references against. */
  const UsesRelative: set<string> :=
    {"", "ftp", "http", "gopher", "nntp", "imap", "wais", "file", "https", "shttp", "mms",
     "prospero", "rtsp", "rtsps", "rtspu", "sftp", "svn", "svn+ssh", "ws", "wss"}

  /** A single absolute path segment such as `/guard` or `/health`. */
  predicate IsPlainAbsolutePath(p: string) {
    |p| >= 2 && p[0] == '/' &&
    forall k :: 1 <= k < |p| ==> IsAsciiLetter(p[k]) || '0' <= p[k] <= '9' || p[k] == '_' || p[k] == '-'
  }

  /** `urljoin(base, path)` for an absolute path: the path replaces the whole path of
      the base, keeping only its scheme and network location. */
  function JoinAbsolutePath(base: string, path: string): string
    requires IsPlainAbsolutePath(path)
  {
    var (scheme, rest) := SplitScheme(base);
    var netloc := Netloc(rest);
    if scheme !in UsesRelative then path
    else if scheme == "" then (if netloc == "" then path else "//" + netloc + path)
    else scheme + "://" + netloc + path
  }

  /** Joining an absolute path onto an http(s) base yields the base's origin followed by
      the path: any path of the base, however long, is dropped. */
  lemma JoinAbsolutePathKeepsOnlyOrigin(base: string, path: string)
    requires IsPlainAbsolutePath(path)
    requires SplitScheme(base).0 in {"http", "https"}
    ensures JoinAbsolutePath(base, path) == Normalize(base) + path
  {
  }
}
