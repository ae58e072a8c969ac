/**
 Canonical object store locations: the string key that decides whether two
 storage claimants write to the same place. `url.Parse` is a parameter; what is
 assumed of its results is stated by `WellFormed`.
 */
module StorageLocation {
  import opened Text

  /** What the key reads from a parsed endpoint: Hostname(), Port() and Path. */
  datatype ParsedUrl = ParsedUrl(hostname: string, port: string, path: string)

  type UrlParser = string -> Option<ParsedUrl>

  datatype Rejection = EmptyEndpoint | NotAUrl | NoHost

  datatype Located = Location(key: string) | Rejected(why: Rejection)

  // ---- The parts of a key ----

  /** Host names are case-insensitive, and the DNS root dot names the same host. */
  function FoldHost(hostname: string): string {
    TrimSuffix(ToLower(hostname), ".")
  }

  /** Folds virtual-host addressing: the bucket label comes off the host once. */
  function StripBucket(host: string, bucket: string): string {
    if bucket != "" then TrimPrefix(host, bucket + ".") else host
  }

  function EffectivePort(port: string): string {
    if port == "80" || port == "443" then "" else port
  }

  /** net.JoinHostPort. */
  function JoinHostPort(host: string, port: string): string {
    if ':' in host then "[" + host + "]" + [':'] + port else host + [':'] + port
  }

  function Authority(host: string, port: string): string {
    if port == "" then host else JoinHostPort(host, port)
  }

  // ---- path.Clean on a rooted path ----

  /** Resolves dot segments and empty segments against the segments kept so far. */
  function Resolve(segments: seq<string>, kept: seq<string>): seq<string> {
    if segments == [] then kept
    else
      var s := segments[0];
      if s == "" || s == "." then Resolve(segments[1..], kept)
      else if s == ".." then Resolve(segments[1..], if kept == [] then [] else kept[..|kept| - 1])
      else Resolve(segments[1..], kept + [s])
  }

  function Segments(path: string): seq<string> {
    Resolve(Split(path, '/'), [])
  }

  function CleanRooted(path: string): string {
    "/" + Join(Segments(path), '/')
  }

  function Prefix(path: string): string {
    var cleaned := CleanRooted("/" + path);
    if cleaned == "/" then "" else cleaned
  }

  // ---- The key ----

  function LocationKey(url: ParsedUrl, bucket: string): string {
    var host := StripBucket(FoldHost(url.hostname), bucket);
    "//" + Authority(host, EffectivePort(url.port)) + Prefix(url.path) + "/" + bucket
  }

  function ToParse(endpoint: string): string {
    if Contains(endpoint, "://") then endpoint else "//" + endpoint
  }

  /** The key of an endpoint that is trimmed already, with a folded bucket. */
  function Locate(parse: UrlParser, endpoint: string, bucket: string): Located {
    if endpoint == "" then Rejected(EmptyEndpoint)
    else match parse(ToParse(endpoint)) {
      case None => Rejected(NotAUrl)
      case Some(url) =>
        if FoldHost(url.hostname) == "" then Rejected(NoHost)
        else Location(LocationKey(url, bucket))
    }
  }

  function FoldBucket(bucket: string): string {
    ToLower(TrimSpace(bucket))
  }

  function CanonicalStorageLocation(parse: UrlParser, endpoint: string, bucket: string): Located {
    Locate(parse, TrimSpace(endpoint), FoldBucket(bucket))
  }

  // ---- The reference: a location as structured data ----

  /** A location with its path prefix as resolved segments rather than text. */
  datatype Address = Address(host: string, port: string, prefix: seq<string>, bucket: string)

  function AddressOf(url: ParsedUrl, bucket: string): Address {
    Address(StripBucket(FoldHost(url.hostname), bucket), EffectivePort(url.port),
            Segments("/" + url.path), bucket)
  }

  predicate ManyColons(h: string) {
    exists i, j :: 0 <= i < j < |h| && h[i] == ':' && h[j] == ':'
  }

  predicate PlainHost(h: string) {
    '/' !in h && '[' !in h && (':' !in h || ManyColons(h))
  }

  predicate Digits(s: string) {
    forall i :: 0 <= i < |s| ==> '0' <= s[i] <= '9'
  }

  /** What url.Parse guarantees: a host that is a name or an unbracketed IPv6
      literal, and a numeric port. */
  predicate WellFormed(url: ParsedUrl) {
    PlainHost(url.hostname) && Digits(url.port)
  }

  // ---- Hosts ----

  lemma FoldedHostIsPlain(h: string)
    requires PlainHost(h)
    ensures PlainHost(FoldHost(h))
  {
    var low := ToLower(h);
    if ':' in h {
      var i, j :| 0 <= i < j < |h| && h[i] == ':' && h[j] == ':';
      assert low[i] == ':' && low[j] == ':';
      assert FoldHost(h)[i] == ':' && FoldHost(h)[j] == ':';
    }
  }

  lemma StrippedHostIsPlain(h: string, bucket: string)
    requires PlainHost(h) && ':' !in bucket
    ensures PlainHost(StripBucket(h, bucket))
  {
    var p := bucket + ".";
    if bucket != "" && p <= h && ':' in h {
      var i, j :| 0 <= i < j < |h| && h[i] == ':' && h[j] == ':';
      assert h == p + h[|p|..];
      assert i >= |p|;
      var r := h[|p|..];
      assert r[i - |p|] == ':' && r[j - |p|] == ':';
    }
  }

  lemma DigitsArePlain(port: string)
    requires Digits(port)
    ensures ':' !in port && '/' !in port
  {
  }

  /** A portless host is never the text of a host with a port. */
  lemma HostIsNotHostPort(h: string, g: string, port: string)
    requires PlainHost(h) && PlainHost(g) && ':' !in port
    ensures h != JoinHostPort(g, port)
  {
    var joined := JoinHostPort(g, port);
    if ':' in g {
      assert joined[0] == '[';
    } else {
      assert joined[|g|] == ':';
      forall i | 0 <= i < |joined| && joined[i] == ':'
        ensures i == |g|
      {
        assert joined == g + ([':'] + port);
      }
    }
  }

  lemma JoinHostPortInjective(h: string, p: string, g: string, q: string)
    requires PlainHost(h) && PlainHost(g) && ':' !in p && ':' !in q
    requires JoinHostPort(h, p) == JoinHostPort(g, q)
    ensures h == g && p == q
  {
    var x := if ':' in h then "[" + h + "]" else h;
    var y := if ':' in g then "[" + g + "]" else g;
    LastCutUnique(x, p, y, q, ':');
    if x != h && y != g {
      assert h == x[1..|x| - 1] && g == y[1..|y| - 1];
    }
  }

  /** The authority text determines host and port. */
  lemma AuthorityInjective(h: string, p: string, g: string, q: string)
    requires PlainHost(h) && PlainHost(g) && ':' !in p && ':' !in q
    ensures Authority(h, p) == Authority(g, q) <==> h == g && p == q
  {
    if p != "" && q != "" {
      if JoinHostPort(h, p) == JoinHostPort(g, q) { JoinHostPortInjective(h, p, g, q); }
    } else if p != "" {
      HostIsNotHostPort(g, h, p);
    } else if q != "" {
      HostIsNotHostPort(h, g, q);
    }
  }

  lemma AuthorityHasNoSlash(h: string, p: string)
    requires '/' !in h && '/' !in p
    ensures '/' !in Authority(h, p)
  {
  }

  // ---- Path prefixes ----

  predicate Ordinary(s: string) {
    s != "" && s != "." && s != ".." && '/' !in s
  }

  predicate AllOrdinary(segments: seq<string>) {
    forall i :: 0 <= i < |segments| ==> Ordinary(segments[i])
  }

  lemma {:induction false} ResolveKeepsOrdinary(segments: seq<string>, kept: seq<string>)
    requires forall i :: 0 <= i < |segments| ==> '/' !in segments[i]
    requires AllOrdinary(kept)
    ensures AllOrdinary(Resolve(segments, kept))
  {
    if segments != [] {
      var s := segments[0];
      if s == "" || s == "." {
        ResolveKeepsOrdinary(segments[1..], kept);
      } else if s == ".." {
        ResolveKeepsOrdinary(segments[1..], if kept == [] then [] else kept[..|kept| - 1]);
      } else {
        ResolveKeepsOrdinary(segments[1..], kept + [s]);
      }
    }
  }

  lemma SegmentsAreOrdinary(path: string)
    ensures AllOrdinary(Segments(path))
  {
    SplitPiecesPlain(path, '/');
    ResolveKeepsOrdinary(Split(path, '/'), []);
  }

  lemma {:induction false} ResolveConcat(a: seq<string>, b: seq<string>, kept: seq<string>)
    ensures Resolve(a + b, kept) == Resolve(b, Resolve(a, kept))
  {
    if a == [] {
      assert a + b == b;
    } else {
      assert (a + b)[0] == a[0] && (a + b)[1..] == a[1..] + b;
      var s := a[0];
      if s == "" || s == "." {
        ResolveConcat(a[1..], b, kept);
      } else if s == ".." {
        ResolveConcat(a[1..], b, if kept == [] then [] else kept[..|kept| - 1]);
      } else {
        ResolveConcat(a[1..], b, kept + [s]);
      }
    }
  }

  lemma {:induction false} ResolveOrdinary(segments: seq<string>, kept: seq<string>)
    requires AllOrdinary(segments)
    ensures Resolve(segments, kept) == kept + segments
  {
    if segments != [] {
      ResolveOrdinary(segments[1..], kept + [segments[0]]);
      assert kept + [segments[0]] + segments[1..] == kept + segments;
    }
  }

  lemma {:induction false} JoinedOrdinary(segments: seq<string>)
    requires AllOrdinary(segments) && segments != []
    ensures Join(segments, '/') != "" && Join(segments, '/')[|Join(segments, '/')| - 1] != '/'
  {
    if |segments| > 1 {
      JoinedOrdinary(segments[1..]);
    }
  }

  /** The prefix text is empty or starts with a slash, and determines its segments. */
  lemma PrefixText(path: string)
    ensures Prefix(path) == "" || Prefix(path)[0] == '/'
    ensures Segments(Prefix(path)) == Segments("/" + path)
  {
    var segments := Segments("/" + path);
    SegmentsAreOrdinary("/" + path);
    if segments == [] {
      assert Join(segments, '/') == "";
      assert "/" + "" == "/";
      assert Split("", '/') == [""];
    } else {
      JoinedOrdinary(segments);
      var text := Join(segments, '/');
      assert Prefix(path) == "/" + text;
      assert "/" + text == "" + ['/'] + text;
      SplitAt("", '/', text);
      SplitJoin(segments, '/');
      ResolveConcat(Split("", '/'), segments, []);
      ResolveOrdinary(segments, []);
      assert [] + segments == segments;
    }
  }

  lemma PrefixesAgree(p: string, q: string)
    ensures Prefix(p) == Prefix(q) <==> Segments("/" + p) == Segments("/" + q)
  {
    PrefixText(p);
    PrefixText(q);
  }

  /** Cleaning a cleaned path changes nothing. */
  lemma CleanIsIdempotent(path: string)
    ensures CleanRooted(CleanRooted(path)) == CleanRooted(path)
  {
    var segments := Segments(path);
    SegmentsAreOrdinary(path);
    var text := Join(segments, '/');
    assert CleanRooted(path) == "" + ['/'] + text;
    SplitAt("", '/', text);
    if segments == [] {
      assert Split("", '/') + Split(text, '/') == ["", ""];
      assert ["", ""][1..] == [""];
      assert Resolve(["", ""], []) == Resolve([""], []) == [];
    } else {
      SplitJoin(segments, '/');
      ResolveConcat(Split("", '/'), segments, []);
      ResolveOrdinary(segments, []);
      assert [] + segments == segments;
    }
  }

  lemma {:induction false} SegmentsAt(a: string, b: string)
    ensures Segments(a + ['/'] + b) == Resolve(Split(b, '/'), Segments(a))
  {
    SplitAt(a, '/', b);
    ResolveConcat(Split(a, '/'), Split(b, '/'), []);
  }

  /** Repeated slashes, "." segments and "x/.." pairs do not reach the prefix. */
  lemma DotSegmentsIgnored(a: string, segment: string, b: string)
    requires Ordinary(segment)
    ensures Prefix(a + "//" + b) == Prefix(a + "/" + b)
    ensures Prefix(a + "/./" + b) == Prefix(a + "/" + b)
    ensures Prefix(a + "/" + segment + "/../" + b) == Prefix(a + "/" + b)
  {
    var root := "/" + a;
    assert "/" + (a + "/" + b) == root + ['/'] + b;
    SegmentsAt(root, b);

    assert "/" + (a + "//" + b) == (root + ['/'] + "") + ['/'] + b;
    SegmentsAt(root + ['/'] + "", b);
    SegmentsAt(root, "");
    PrefixesAgree(a + "//" + b, a + "/" + b);

    assert "/" + (a + "/./" + b) == (root + ['/'] + ".") + ['/'] + b;
    SegmentsAt(root + ['/'] + ".", b);
    SegmentsAt(root, ".");
    SplitPlain(".", '/');
    PrefixesAgree(a + "/./" + b, a + "/" + b);

    UpAndBack(root, segment);
    var detour := (root + ['/'] + segment) + ['/'] + "..";
    assert "/" + (a + "/" + segment + "/../" + b) == detour + ['/'] + b;
    SegmentsAt(detour, b);
    PrefixesAgree(a + "/" + segment + "/../" + b, a + "/" + b);
  }

  lemma UpAndBack(root: string, segment: string)
    requires Ordinary(segment)
    ensures Segments((root + ['/'] + segment) + ['/'] + "..") == Segments(root)
  {
    SegmentsAt(root + ['/'] + segment, "..");
    SegmentsAt(root, segment);
    SplitPlain(segment, '/');
    SplitPlain("..", '/');
    var kept := Segments(root);
    assert Resolve([segment], kept) == kept + [segment];
    assert (kept + [segment])[..|kept + [segment]| - 1] == kept;
  }

  // ---- Faithfulness of the key ----

  /** A key splits into authority and the text behind it in one way only. */
  lemma KeyTextUnique(h: string, s: string, g: string, t: string)
    requires '/' !in h && '/' !in g && s != "" && t != "" && s[0] == '/' && t[0] == '/'
    ensures "//" + (h + s) == "//" + (g + t) <==> h == g && s == t
  {
    if "//" + (h + s) == "//" + (g + t) {
      assert h + s == ("//" + (h + s))[2..] == ("//" + (g + t))[2..] == g + t;
      FirstCutUnique(h, s, g, t, '/');
    }
  }

  lemma AddressHostIsPlain(u: ParsedUrl, b: string)
    requires WellFormed(u) && ':' !in b
    ensures PlainHost(AddressOf(u, b).host)
    ensures ':' !in AddressOf(u, b).port && '/' !in AddressOf(u, b).port
  {
    FoldedHostIsPlain(u.hostname);
    StrippedHostIsPlain(FoldHost(u.hostname), b);
    DigitsArePlain(u.port);
  }

  function Tail(path: string, bucket: string): string {
    Prefix(path) + "/" + bucket
  }

  lemma KeyText(u: ParsedUrl, b: string)
    ensures LocationKey(u, b) == "//" + (Authority(AddressOf(u, b).host, AddressOf(u, b).port) + Tail(u.path, b))
    ensures Tail(u.path, b) != "" && Tail(u.path, b)[0] == '/'
  {
    PrefixText(u.path);
    var a := Authority(AddressOf(u, b).host, AddressOf(u, b).port);
    assert "//" + a + Prefix(u.path) + "/" + b == "//" + (a + (Prefix(u.path) + "/" + b));
  }

  /** For every bucket, slashes included: the key determines host and port, and the
      text of prefix and bucket together. */
  lemma KeysDetermineAuthority(u: ParsedUrl, b: string, v: ParsedUrl, c: string)
    requires WellFormed(u) && WellFormed(v) && ':' !in b && ':' !in c
    ensures LocationKey(u, b) == LocationKey(v, c) <==>
            && AddressOf(u, b).host == AddressOf(v, c).host
            && AddressOf(u, b).port == AddressOf(v, c).port
            && Tail(u.path, b) == Tail(v.path, c)
  {
    var x, y := AddressOf(u, b), AddressOf(v, c);
    AddressHostIsPlain(u, b);
    AddressHostIsPlain(v, c);
    AuthorityInjective(x.host, x.port, y.host, y.port);
    AuthorityHasNoSlash(x.host, x.port);
    AuthorityHasNoSlash(y.host, y.port);
    KeyText(u, b);
    KeyText(v, c);
    KeyTextUnique(Authority(x.host, x.port), Tail(u.path, b), Authority(y.host, y.port), Tail(v.path, c));
  }

  /** Keys are equal exactly when the structured addresses are. */
  lemma KeysAreFaithful(u: ParsedUrl, b: string, v: ParsedUrl, c: string)
    requires WellFormed(u) && WellFormed(v)
    requires ':' !in b && ':' !in c && '/' !in b && '/' !in c
    ensures LocationKey(u, b) == LocationKey(v, c) <==> AddressOf(u, b) == AddressOf(v, c)
  {
    KeysDetermineAuthority(u, b, v, c);
    PrefixesAgree(u.path, v.path);
    if Tail(u.path, b) == Tail(v.path, c) {
      LastCutUnique(Prefix(u.path), b, Prefix(v.path), c, '/');
    }
  }

  /** The same for endpoint and bucket as written: two accepted pairs share a key
      exactly when host, port, prefix segments and folded bucket agree. */
  lemma CanonicalLocationsAreFaithful(parse: UrlParser, e: string, b: string, f: string, c: string)
    requires Accepted(parse, e, b) && Accepted(parse, f, c)
    requires WellFormed(UrlOf(parse, e)) && WellFormed(UrlOf(parse, f))
    requires ':' !in FoldBucket(b) && '/' !in FoldBucket(b) && ':' !in FoldBucket(c) && '/' !in FoldBucket(c)
    ensures CanonicalStorageLocation(parse, e, b) == CanonicalStorageLocation(parse, f, c)
       <==> AddressOf(UrlOf(parse, e), FoldBucket(b)) == AddressOf(UrlOf(parse, f), FoldBucket(c))
  {
    AcceptedKey(parse, e, b);
    AcceptedKey(parse, f, c);
    KeysAreFaithful(UrlOf(parse, e), FoldBucket(b), UrlOf(parse, f), FoldBucket(c));
  }

  predicate Accepted(parse: UrlParser, endpoint: string, bucket: string) {
    CanonicalStorageLocation(parse, endpoint, bucket).Location?
  }

  /** The parsed form of an endpoint as written; the empty record when it does not parse. */
  function UrlOf(parse: UrlParser, endpoint: string): ParsedUrl {
    match parse(ToParse(TrimSpace(endpoint)))
    case None => ParsedUrl("", "", "")
    case Some(url) => url
  }

  lemma AcceptedKey(parse: UrlParser, endpoint: string, bucket: string)
    requires Accepted(parse, endpoint, bucket)
    ensures CanonicalStorageLocation(parse, endpoint, bucket)
         == Location(LocationKey(UrlOf(parse, endpoint), FoldBucket(bucket)))
  {
  }

  /** The restriction on slashes is needed: a bucket that contains one shares its
      key with another bucket under a path prefix. */
  lemma SlashInBucketMerges()
    ensures var u, v := ParsedUrl("s3", "", ""), ParsedUrl("s3", "", "a");
            LocationKey(u, "a/b") == LocationKey(v, "b") && AddressOf(u, "a/b") != AddressOf(v, "b")
  {
    PrefixOfNothing();
    PrefixOfOne("a");
  }

  lemma PrefixOfNothing()
    ensures Prefix("") == ""
  {
    assert "/" + "" == "" + ['/'] + "";
    SplitAt("", '/', "");
    assert Split("/" + "", '/') == ["", ""];
    assert ["", ""][1..] == [""];
    assert Resolve(["", ""], []) == Resolve([""], []) == [];
  }

  lemma PrefixOfOne(segment: string)
    requires Ordinary(segment)
    ensures Prefix(segment) == "/" + segment
  {
    assert "/" + segment == "" + ['/'] + segment;
    SplitAt("", '/', segment);
    SplitPlain(segment, '/');
    assert Split("/" + segment, '/') == ["", segment];
    assert ["", segment][1..] == [segment];
    assert Resolve(["", segment], []) == Resolve([segment], []) == [segment];
  }

  // ---- Spellings that do not change the key ----

  /** Whitespace around endpoint and bucket is ignored, whatever the parser. */
  lemma WhitespaceIgnored(parse: UrlParser, before: string, endpoint: string, after: string,
                          left: string, bucket: string, right: string)
    requires AllSpace(before) && AllSpace(after) && AllSpace(left) && AllSpace(right)
    ensures CanonicalStorageLocation(parse, before + endpoint + after, left + bucket + right)
         == CanonicalStorageLocation(parse, endpoint, bucket)
  {
    TrimSpaceAround(before, endpoint, after);
    TrimSpaceAround(left, bucket, right);
  }

  lemma {:induction false} ContainsAfter(a: string, sub: string, b: string)
    ensures Contains(a + sub + b, sub)
  {
    if a == "" {
      assert a + sub + b == sub + b;
    } else {
      assert (a + sub + b)[1..] == a[1..] + sub + b;
      ContainsAfter(a[1..], sub, b);
    }
  }

  ghost predicate NamesNoHost(parsed: Option<ParsedUrl>) {
    parsed.None? || parsed.value.hostname == ""
  }

  /** An authority reads the same with and without the scheme in front of it; with nothing
      or a slash in its place, neither spelling names a host. */
  ghost predicate SchemeBlind(parse: UrlParser, scheme: string) {
    && (forall rest :: rest != "" && rest[0] != '/' ==> parse(scheme + "://" + rest) == parse("//" + rest))
    && (forall rest :: rest == "" || rest[0] == '/' ==> NamesNoHost(parse(scheme + "://" + rest)) && NamesNoHost(parse("//" + rest)))
  }

  /** A scheme in front of an endpoint written bare leaves the location unchanged; where
      the endpoint has no authority both spellings are rejected. */
  lemma SchemeIgnored(parse: UrlParser, scheme: string, rest: string, bucket: string)
    requires SchemeBlind(parse, scheme) && scheme != "" && !IsSpace(scheme[0])
    requires TrimSpace(rest) == rest && !Contains(rest, "://")
    ensures var full, bare := CanonicalStorageLocation(parse, scheme + "://" + rest, bucket),
                              CanonicalStorageLocation(parse, rest, bucket);
            if rest == "" || rest[0] == '/' then full.Rejected? && bare.Rejected? else full == bare
  {
    hide Contains;
    var full := scheme + "://" + rest;
    if rest == "" {
      assert full == scheme + "://";
    } else {
      TrimmedEnds(rest);
      assert full[|full| - 1] == rest[|rest| - 1];
    }
    assert full[0] == scheme[0];
    NothingToTrim(full);
    ContainsAfter(scheme, "://", rest);
    if rest != "" && rest[0] != '/' {
      SameParse(parse, full, rest, FoldBucket(bucket));
    } else {
      NoHostRejected(parse, full, FoldBucket(bucket));
      NoHostRejected(parse, rest, FoldBucket(bucket));
    }
  }

  lemma NoHostRejected(parse: UrlParser, endpoint: string, bucket: string)
    requires endpoint != "" ==> NamesNoHost(parse(ToParse(endpoint)))
    ensures Locate(parse, endpoint, bucket).Rejected?
  {
  }

  lemma SameParse(parse: UrlParser, e: string, f: string, bucket: string)
    requires e != "" && f != "" && parse(ToParse(e)) == parse(ToParse(f))
    ensures Locate(parse, e, bucket) == Locate(parse, f, bucket)
  {
  }

  lemma TrimmedEnds(s: string)
    requires TrimSpace(s) == s && s != ""
    ensures !IsSpace(s[|s| - 1])
  {
    TrimRightEnd(TrimLeft(s));
  }

  lemma NothingToTrim(s: string)
    requires s != "" && !IsSpace(s[0]) && !IsSpace(s[|s| - 1])
    ensures TrimSpace(s) == s
  {
    assert TrimLeft(s) == s;
  }

  /** Host case is ignored on every port, and no port, 80 and 443 are the same. */
  lemma HostCaseAndDefaultPortIgnored(u: ParsedUrl, v: ParsedUrl, bucket: string)
    requires ToLower(u.hostname) == ToLower(v.hostname) && u.path == v.path
    requires EffectivePort(u.port) == EffectivePort(v.port)
    ensures LocationKey(u, bucket) == LocationKey(v, bucket)
  {
  }

  /** No port, 80 and 443 give one key; every other port gives a key of its own. */
  lemma PortsFoldExactly(u: ParsedUrl, p: string, q: string, bucket: string)
    requires PlainHost(u.hostname) && Digits(p) && Digits(q) && ':' !in bucket
    ensures LocationKey(u.(port := p), bucket) == LocationKey(u.(port := q), bucket) <==>
            p == q || (p in {"", "80", "443"} && q in {"", "80", "443"})
  {
    hide LocationKey;
    KeysDetermineAuthority(u.(port := p), bucket, u.(port := q), bucket);
  }

  /** The key of plain parts, spelled out: a lower-case host that neither ends in a dot nor
      begins with the bucket label, a port that is no default, a path of ordinary segments. */
  lemma PlainKey(host: string, port: string, segments: seq<string>, bucket: string)
    requires (forall i :: 0 <= i < |host| ==> !('A' <= host[i] <= 'Z')) && ':' !in host
    requires host != "" && host[|host| - 1] != '.' && !(bucket + "." <= host)
    requires port !in {"", "80", "443"} && segments != [] && AllOrdinary(segments)
    ensures LocationKey(ParsedUrl(host, port, Join(segments, '/')), bucket) ==
            "//" + (host + [':'] + port) + ("/" + Join(segments, '/')) + "/" + bucket
  {
    hide ToLower;
    LowerStays(host);
    PrefixOfOrdinary(segments);
  }

  lemma PrefixOfOrdinary(segments: seq<string>)
    requires segments != [] && AllOrdinary(segments)
    ensures Prefix(Join(segments, '/')) == "/" + Join(segments, '/')
  {
    var text := Join(segments, '/');
    assert "/" + text == "" + ['/'] + text;
    SplitAt("", '/', text);
    SplitJoin(segments, '/');
    ResolveConcat(Split("", '/'), segments, []);
    ResolveOrdinary(segments, []);
    assert [] + segments == segments;
    JoinedOrdinary(segments);
    assert CleanRooted("/" + text) == "/" + text;
  }

  /** Bucket case and surrounding whitespace are ignored. */
  lemma BucketSpellingIgnored(parse: UrlParser, endpoint: string, b: string, before: string, c: string, after: string)
    requires ToLower(b) == ToLower(c) && AllSpace(before) && AllSpace(after)
    ensures CanonicalStorageLocation(parse, endpoint, b) == CanonicalStorageLocation(parse, endpoint, before + c + after)
  {
    hide TrimSpace;
    hide Locate;
    TrimSpaceAround(before, c, after);
    LowerTrimSpace(b);
    LowerTrimSpace(c);
  }

  /** With port, path and bucket fixed, the key is decided by the stripped host. */
  lemma KeyFollowsHost(h: string, g: string, port: string, path: string, bucket: string)
    requires PlainHost(h) && PlainHost(g) && Digits(port) && ':' !in bucket
    ensures LocationKey(ParsedUrl(h, port, path), bucket) == LocationKey(ParsedUrl(g, port, path), bucket)
       <==> StripBucket(FoldHost(h), bucket) == StripBucket(FoldHost(g), bucket)
  {
    KeysDetermineAuthority(ParsedUrl(h, port, path), bucket, ParsedUrl(g, port, path), bucket);
  }

  lemma PlainHostAround(before: string, h: string, after: string)
    requires PlainHost(h)
    requires forall c :: c in {'/', '[', ':'} ==> c !in before && c !in after
    ensures PlainHost(before + h + after)
  {
    var r := before + h + after;
    if ':' in h {
      var i, j :| 0 <= i < j < |h| && h[i] == ':' && h[j] == ':';
      assert r[|before| + i] == ':' && r[|before| + j] == ':';
    }
  }

  lemma FoldDotted(h: string)
    ensures FoldHost(h + ".") == ToLower(h)
  {
    ToLowerConcat(h, ".");
    assert ToLower(".") == ".";
    assert ToLower(h + ".")[..|h|] == ToLower(h);
  }

  /** A trailing root dot is ignored exactly when the host does not already end in one. */
  lemma RootDotIgnoredExactly(h: string, port: string, path: string, bucket: string)
    requires PlainHost(h) && Digits(port) && ':' !in bucket
    ensures LocationKey(ParsedUrl(h + ".", port, path), bucket) == LocationKey(ParsedUrl(h, port, path), bucket)
       <==> !HasSuffix(h, ".")
  {
    hide LocationKey;
    hide FoldHost;
    hide HasSuffix;
    FoldDotted(h);
    PlainHostAround("", h, ".");
    assert "" + h + "." == h + ".";
    KeyFollowsHost(h + ".", h, port, path, bucket);
    FoldDropsRootDot(h);
    StripKeepsDot(FoldHost(h), bucket);
  }

  /** Two spellings that differ in a root dot and in their keys. */
  lemma SecondRootDotExample()
    ensures LocationKey(ParsedUrl("minio..", "", ""), "logs") != LocationKey(ParsedUrl("minio.", "", ""), "logs")
  {
    hide LocationKey;
    assert "minio." + "." == "minio..";
    RootDotIgnoredExactly("minio.", "", "", "logs");
  }

  lemma FoldDropsRootDot(h: string)
    ensures ToLower(h) == if HasSuffix(h, ".") then FoldHost(h) + "." else FoldHost(h)
  {
    assert h != "" ==> ToLower(h)[|h| - 1] == LowerChar(h[|h| - 1]);
  }

  /** A dot at the end tells two hosts apart, with or without the bucket label in front. */
  lemma StripKeepsDot(host: string, bucket: string)
    ensures StripBucket(host + ".", bucket) != StripBucket(host, bucket)
  {
    var tag := bucket + ".";
    if bucket != "" && tag <= host + "." {
      assert host + "." == tag + (host + ".")[|tag|..];
      if |tag| == |host + "."| {
        assert (host + ".")[..|bucket|] == bucket == host;
      } else {
        assert (host + ".")[..|tag|] == host[..|tag|];
      }
    }
  }

  lemma FoldTagged(tag: string, base: string)
    requires ToLower(tag) == tag && base != ""
    ensures FoldHost(tag + base) == tag + FoldHost(base)
  {
    hide TrimSuffix;
    ToLowerConcat(tag, base);
    TrimTagged(tag, ToLower(base));
  }

  lemma TrimTagged(tag: string, low: string)
    requires low != ""
    ensures TrimSuffix(tag + low, ".") == tag + TrimSuffix(low, ".")
  {
    assert (tag + low)[|tag + low| - 1] == low[|low| - 1];
    assert (tag + low)[..|tag + low| - 1] == tag + low[..|low| - 1];
  }

  /** The virtual-host spelling of a bucket shares its key with the path-style one
      exactly when the base host does not itself begin with the bucket label. */
  lemma VirtualHostFoldsExactly(base: string, port: string, path: string, bucket: string)
    requires WellFormed(ParsedUrl(base, port, path)) && FoldHost(base) != ""
    requires bucket != "" && ToLower(bucket) == bucket && ':' !in bucket && '/' !in bucket && '[' !in bucket
    ensures LocationKey(ParsedUrl(bucket + "." + base, port, path), bucket)
         == LocationKey(ParsedUrl(base, port, path), bucket)
       <==> !(bucket + "." <= FoldHost(base))
  {
    var tag := bucket + ".";
    ToLowerConcat(bucket, ".");
    assert ToLower(".") == ".";
    FoldTagged(tag, base);
    PlainHostAround(tag, base, "");
    assert tag + base + "" == tag + base;
    KeyFollowsHost(tag + base, base, port, path, bucket);
    assert StripBucket(tag + FoldHost(base), bucket) == FoldHost(base);
  }

  /** A virtual-host spelling whose key differs from the path style's. */
  lemma RepeatedLabelExample()
    ensures LocationKey(ParsedUrl("logs.logs.s3", "", ""), "logs") != LocationKey(ParsedUrl("logs.s3", "", ""), "logs")
  {
    hide LocationKey;
    hide ToLower;
    var base := "logs.s3";
    LowerStays(base);
    LowerStays("logs");
    assert base[|base| - 1] == '3';
    assert FoldHost(base) == base;
    assert "logs" + "." == "logs." == base[..5];
    assert "logs" + "." + base == "logs.logs.s3";
    VirtualHostFoldsExactly(base, "", "", "logs");
  }

  lemma LowerStays(s: string)
    requires forall i :: 0 <= i < |s| ==> !('A' <= s[i] <= 'Z')
    ensures ToLower(s) == s
  {
  }

  /** An accepted endpoint keeps a non-empty host in its key, except when the host is
      nothing but the bucket label and its dot: there the fold empties it. */
  lemma HostSurvivesExactly(url: ParsedUrl, bucket: string)
    requires FoldHost(url.hostname) != ""
    ensures AddressOf(url, bucket).host == "" <==> bucket != "" && FoldHost(url.hostname) == bucket + "."
  {
    var h := FoldHost(url.hostname);
    if bucket != "" && bucket + "." <= h {
      assert h == (bucket + ".") + h[|bucket| + 1..];
    }
  }

  /** Such an endpoint: accepted, with a key that names no host. */
  lemma EmptiedHostExample()
    ensures var url := ParsedUrl("logs..", "", "");
            FoldHost(url.hostname) != "" && LocationKey(url, "logs") == "///logs"
  {
    FoldDotted("logs.");
    assert "logs." + "." == "logs..";
    assert ToLower("logs.") == "logs.";
    assert "logs" + "." == "logs.";
    assert StripBucket("logs.", "logs") == "";
    PrefixOfNothing();
  }
}
