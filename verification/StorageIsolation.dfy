/**
 The storage isolation check on Secrets: which object store locations a LokiStack
 storage Secret resolves to, and the verdict on a list of claims.
 */
module StorageIsolation {
  import opened Text
  import opened StorageLocation
  import opened Isolation

  /** One API read: the object, a NotFound, or any other failure. */
  datatype Read<+T> = Present(value: T) | Absent | Unreadable

  datatype Secret = Secret(endpoint: string, bucketnames: string)

  type SecretReader = string -> Read<Secret>

  datatype Claim = Claim(description: string, secretName: string)

  // ---- Locating a list of names ----

  /** The locations of a list of names, unless one of them does not locate. */
  function LocateAll<F, L>(names: seq<F>, locate: F -> Option<L>): Option<seq<L>> {
    if names == [] then Some([])
    else match locate(names[0]) {
      case None => None
      case Some(l) => Prepend([l], LocateAll(names[1..], locate))
    }
  }

  function Prepend<L>(front: seq<L>, rest: Option<seq<L>>): Option<seq<L>> {
    match rest
    case None => None
    case Some(r) => Some(front + r)
  }

  lemma PrependOne<L>(front: seq<L>, l: L, rest: Option<seq<L>>)
    ensures Prepend(front, Prepend([l], rest)) == Prepend(front + [l], rest)
  {
    if rest.Some? {
      assert front + ([l] + rest.value) == front + [l] + rest.value;
    }
  }

  lemma PrependNothing<L>(rest: Option<seq<L>>)
    ensures Prepend([], rest) == rest
  {
    if rest.Some? { assert [] + rest.value == rest.value; }
  }

  ghost predicate SameMembers<T(!new)>(a: seq<T>, b: seq<T>) {
    forall x :: x in a <==> x in b
  }

  lemma {:induction false} LocatedExactly<F(!new), L(!new)>(names: seq<F>, locate: F -> Option<L>)
    ensures LocateAll(names, locate).None? <==> exists f :: f in names && locate(f).None?
    ensures LocateAll(names, locate).Some? ==>
              forall l :: l in LocateAll(names, locate).value <==> exists f :: f in names && locate(f) == Some(l)
  {
    if names != [] {
      LocatedExactly(names[1..], locate);
      assert forall f :: f in names <==> f == names[0] || f in names[1..];
    }
  }

  lemma LocatedAlike<F(!new), L(!new)>(a: seq<F>, b: seq<F>, locate: F -> Option<L>)
    requires SameMembers(a, b)
    ensures SameLocations(Settle(LocateAll(a, locate)), Settle(LocateAll(b, locate)))
  {
    LocatedExactly(a, locate);
    LocatedExactly(b, locate);
    var x, y := LocateAll(a, locate), LocateAll(b, locate);
    assert x.None? <==> y.None?;
    if x.Some? {
      forall l
        ensures l in x.value <==> l in y.value
      {
      }
      if x.value != [] { assert x.value[0] in y.value; }
      if y.value != [] { assert y.value[0] in x.value; }
    }
  }

  // ---- Resolving one Secret ----

  function KeyOf(located: Located): Option<string> {
    match located
    case Rejected(_) => None
    case Location(key) => Some(key)
  }

  /** Locating a folded bucket name on a trimmed endpoint. */
  function Locator(parse: UrlParser, endpoint: string): string -> Option<string> {
    name => KeyOf(Locate(parse, endpoint, name))
  }

  /** The folded names of the entries of a list that are not blank. */
  function FoldedBuckets(entries: seq<string>): seq<string> {
    if entries == [] then []
    else if TrimSpace(entries[0]) == "" then FoldedBuckets(entries[1..])
    else [FoldBucket(entries[0])] + FoldedBuckets(entries[1..])
  }

  function ResolveBuckets(parse: UrlParser, endpoint: string, entries: seq<string>): Resolution<string> {
    Settle(LocateAll(FoldedBuckets(entries), Locator(parse, endpoint)))
  }

  /** No location at all is as invalid as one that cannot be named. */
  function Settle<L>(collected: Option<seq<L>>): Resolution<L> {
    match collected
    case None => Unresolved(SecretInvalid)
    case Some(locs) => if locs == [] then Unresolved(SecretInvalid) else Locations(locs)
  }

  function ResolveSecret(parse: UrlParser, secretName: string, read: Read<Secret>): Resolution<string> {
    if secretName == "" then Unresolved(SecretInvalid)
    else match read {
      case Absent => Unresolved(SecretMissing)
      case Unreadable => Unresolved(CheckFailed)
      case Present(secret) =>
        var endpoint := TrimSpace(secret.endpoint);
        if endpoint == "" then Unresolved(SecretInvalid)
        else ResolveBuckets(parse, endpoint, Split(secret.bucketnames, ','))
    }
  }

  lemma {:induction false} FoldedMembers(entries: seq<string>, name: string)
    ensures name in FoldedBuckets(entries) <==>
            exists i :: 0 <= i < |entries| && TrimSpace(entries[i]) != "" && FoldBucket(entries[i]) == name
  {
    hide FoldBucket;
    hide TrimSpace;
    if entries != [] {
      FoldedMembers(entries[1..], name);
      assert forall i :: 0 < i < |entries| ==> entries[i] == entries[1..][i - 1];
      if i :| 0 <= i < |entries[1..]| && TrimSpace(entries[1..][i]) != "" && FoldBucket(entries[1..][i]) == name {
        assert entries[i + 1] == entries[1..][i];
      }
    }
  }

  predicate IsEntry(parts: seq<string>, i: int) {
    0 <= i < |parts| && TrimSpace(parts[i]) != ""
  }

  /** What a Secret resolves to. Without a name, an endpoint or a bucket, or with a bucket
      that has no location, it is invalid; missing and unreadable Secrets are told apart;
      otherwise the locations are exactly those of the non-blank entries of the list. */
  lemma SecretResolves(parse: UrlParser, name: string, read: Read<Secret>, parts: seq<string>)
    requires parts != [] && forall i :: 0 <= i < |parts| ==> ',' !in parts[i]
    requires read.Present? ==> read.value.bucketnames == Join(parts, ',')
    ensures var r := ResolveSecret(parse, name, read);
            if name == "" then r == Unresolved(SecretInvalid)
            else if read.Absent? then r == Unresolved(SecretMissing)
            else if read.Unreadable? then r == Unresolved(CheckFailed)
            else
              var at := i requires 0 <= i < |parts| => CanonicalStorageLocation(parse, read.value.endpoint, parts[i]);
              if (exists i :: IsEntry(parts, i)) && (forall i :: IsEntry(parts, i) ==> at(i).Location?)
              then r.Locations? && forall key :: key in r.locs <==> exists i :: IsEntry(parts, i) && at(i) == Location(key)
              else r == Unresolved(SecretInvalid)
  {
    if name != "" && read.Present? {
      SplitJoin(parts, ',');
      PresentResolves(parse, name, read.value, parts);
    }
  }

  lemma PresentResolves(parse: UrlParser, name: string, secret: Secret, parts: seq<string>)
    requires name != "" && Split(secret.bucketnames, ',') == parts
    ensures var r := ResolveSecret(parse, name, Present(secret));
            var at := i requires 0 <= i < |parts| => CanonicalStorageLocation(parse, secret.endpoint, parts[i]);
            if (exists i :: IsEntry(parts, i)) && (forall i :: IsEntry(parts, i) ==> at(i).Location?)
            then r.Locations? && forall key :: key in r.locs <==> exists i :: IsEntry(parts, i) && at(i) == Location(key)
            else r == Unresolved(SecretInvalid)
  {
    hide TrimSpace;
    hide FoldBucket;
    hide LocateAll;
    hide FoldedBuckets;
    hide Split;
    var endpoint := TrimSpace(secret.endpoint);
    if endpoint != "" {
      var names, locate := FoldedBuckets(parts), Locator(parse, endpoint);
      LocatedExactly(names, locate);
      forall name
        ensures name in names <==> exists i :: IsEntry(parts, i) && FoldBucket(parts[i]) == name
      {
        FoldedMembers(parts, name);
        if i :| 0 <= i < |parts| && TrimSpace(parts[i]) != "" && FoldBucket(parts[i]) == name { assert IsEntry(parts, i); }
        if i :| IsEntry(parts, i) && FoldBucket(parts[i]) == name { assert TrimSpace(parts[i]) != ""; }
      }
      EntriesResolve(parse, secret.endpoint, parts, names, LocateAll(names, locate));
    } else if i :| IsEntry(parts, i) {
      assert CanonicalStorageLocation(parse, secret.endpoint, parts[i]).Rejected?;
    }
  }

  lemma EntriesResolve(parse: UrlParser, endpoint: string, parts: seq<string>, names: seq<string>, located: Option<seq<string>>)
    requires TrimSpace(endpoint) != ""
    requires forall name :: name in names <==> exists i :: IsEntry(parts, i) && FoldBucket(parts[i]) == name
    requires located.None? <==> exists f :: f in names && KeyOf(Locate(parse, TrimSpace(endpoint), f)).None?
    requires located.Some? ==>
               forall l :: l in located.value <==> exists f :: f in names && KeyOf(Locate(parse, TrimSpace(endpoint), f)) == Some(l)
    ensures var r := Settle(located);
            var at := i requires 0 <= i < |parts| => CanonicalStorageLocation(parse, endpoint, parts[i]);
            if (exists i :: IsEntry(parts, i)) && (forall i :: IsEntry(parts, i) ==> at(i).Location?)
            then r.Locations? && forall key :: key in r.locs <==> exists i :: IsEntry(parts, i) && at(i) == Location(key)
            else r == Unresolved(SecretInvalid)
  {
    hide TrimSpace;
    hide FoldBucket;
    hide Locate;
    forall i | IsEntry(parts, i)
      ensures FoldBucket(parts[i]) in names
      ensures CanonicalStorageLocation(parse, endpoint, parts[i]) == Locate(parse, TrimSpace(endpoint), FoldBucket(parts[i]))
    {
    }
    if located.Some? {
      forall key
        ensures key in located.value <==>
                exists i :: IsEntry(parts, i) && CanonicalStorageLocation(parse, endpoint, parts[i]) == Location(key)
      {
        if key in located.value {
          var f :| f in names && KeyOf(Locate(parse, TrimSpace(endpoint), f)) == Some(key);
          var i :| IsEntry(parts, i) && FoldBucket(parts[i]) == f;
        }
      }
      if located.value != [] {
        assert located.value[0] in located.value;
        var i :| IsEntry(parts, i) && CanonicalStorageLocation(parse, endpoint, parts[i]) == Location(located.value[0]);
      }
      forall i | IsEntry(parts, i)
        ensures CanonicalStorageLocation(parse, endpoint, parts[i]).Location?
        ensures CanonicalStorageLocation(parse, endpoint, parts[i]).key in located.value
      {
        assert FoldBucket(parts[i]) in names;
        assert KeyOf(Locate(parse, TrimSpace(endpoint), FoldBucket(parts[i]))).Some?;
      }
    } else {
      var f :| f in names && KeyOf(Locate(parse, TrimSpace(endpoint), f)).None?;
      var i :| IsEntry(parts, i) && FoldBucket(parts[i]) == f;
      assert !CanonicalStorageLocation(parse, endpoint, parts[i]).Location?;
    }
  }

  method LokiStorageLocations(parse: UrlParser, secretName: string, read: Read<Secret>) returns (r: Resolution<string>)
    ensures r == ResolveSecret(parse, secretName, read)
  {
    if secretName == "" { return Unresolved(SecretInvalid); }
    if read.Absent? { return Unresolved(SecretMissing); }
    if read.Unreadable? { return Unresolved(CheckFailed); }
    var endpoint := TrimSpace(read.value.endpoint);
    if endpoint == "" { return Unresolved(SecretInvalid); }
    TrimSpaceIdempotent(read.value.endpoint);
    r := BucketLocations(parse, endpoint, Split(read.value.bucketnames, ','));
  }

  method BucketLocations(parse: UrlParser, endpoint: string, entries: seq<string>) returns (r: Resolution<string>)
    requires TrimSpace(endpoint) == endpoint
    ensures r == ResolveBuckets(parse, endpoint, entries)
  {
    ghost var locate := Locator(parse, endpoint);
    var locations: seq<string> := [];
    assert entries[0..] == entries;
    PrependNothing(LocateAll(FoldedBuckets(entries), locate));
    for i := 0 to |entries|
      invariant LocateAll(FoldedBuckets(entries), locate) ==
                Prepend(locations, LocateAll(FoldedBuckets(entries[i..]), locate))
    {
      var bucket := entries[i];
      ghost var rest := FoldedBuckets(entries[i + 1..]);
      assert entries[i..][0] == bucket && entries[i..][1..] == entries[i + 1..];
      if TrimSpace(bucket) == "" { continue; }
      assert FoldedBuckets(entries[i..]) == [FoldBucket(bucket)] + rest;
      assert ([FoldBucket(bucket)] + rest)[1..] == rest;
      var location := CanonicalStorageLocation(parse, endpoint, bucket);
      assert locate(FoldBucket(bucket)) == KeyOf(location);
      if location.Rejected? { return Unresolved(SecretInvalid); }
      PrependOne(locations, location.key, LocateAll(rest, locate));
      locations := locations + [location.key];
    }
    assert entries[|entries|..] == [];
    assert locations + [] == locations;
    return Settle(Some(locations));
  }

  function Resolver(parse: UrlParser, read: SecretReader): Claim -> Resolution<string> {
    (c: Claim) => ResolveSecret(parse, c.secretName, read(c.secretName))
  }

  /** The verdict of the gate on a list of claims. */
  ghost function GateVerdict(parse: UrlParser, read: SecretReader, claims: seq<Claim>): Gate {
    GateOf(Resolutions(Resolver(parse, read), claims))
  }

  method CheckStorageIsolation(parse: UrlParser, read: SecretReader, claims: seq<Claim>)
    returns (v: Verdict<string, string>)
    ensures Classify(v) == GateVerdict(parse, read, claims)
    ensures Accurate(v, Descriptions(Describe, claims), Resolutions(Resolver(parse, read), claims))
  {
    v := CheckIsolation(claims, Resolver(parse, read), Describe);
  }

  function Describe(c: Claim): string {
    c.description
  }

  // ---- Spelling ----

  /** Two lists name the same buckets once blanks, case, repetition and order are dropped. */
  ghost predicate SameBuckets(a: string, b: string) {
    SameMembers(FoldedBuckets(Split(a, ',')), FoldedBuckets(Split(b, ',')))
  }

  ghost predicate SameStorage(a: Read<Secret>, b: Read<Secret>) {
    match (a, b)
    case (Present(s), Present(t)) =>
      TrimSpace(s.endpoint) == TrimSpace(t.endpoint) && SameBuckets(s.bucketnames, t.bucketnames)
    case _ => a == b
  }

  lemma RespellingKeepsBuckets(parse: UrlParser, endpoint: string, xs: seq<string>, ys: seq<string>)
    requires SameMembers(FoldedBuckets(xs), FoldedBuckets(ys))
    ensures SameLocations(ResolveBuckets(parse, endpoint, xs), ResolveBuckets(parse, endpoint, ys))
  {
    LocatedAlike(FoldedBuckets(xs), FoldedBuckets(ys), Locator(parse, endpoint));
  }

  /** Repeating, reordering or re-spelling buckets inside one Secret changes nothing. */
  lemma RespellingKeepsLocations(parse: UrlParser, name: string, a: Secret, b: Secret)
    requires TrimSpace(a.endpoint) == TrimSpace(b.endpoint) && SameBuckets(a.bucketnames, b.bucketnames)
    ensures SameLocations(ResolveSecret(parse, name, Present(a)), ResolveSecret(parse, name, Present(b)))
  {
    RespellingKeepsBuckets(parse, TrimSpace(a.endpoint), Split(a.bucketnames, ','), Split(b.bucketnames, ','));
  }

  /** Reading Secrets that spell the same buckets differently gives the same verdict
      and the same shared locations. */
  lemma VerdictIgnoresBucketSpelling(parse: UrlParser, read: SecretReader, read': SecretReader, claims: seq<Claim>)
    requires forall i :: 0 <= i < |claims| ==> SameStorage(read(claims[i].secretName), read'(claims[i].secretName))
    ensures GateVerdict(parse, read, claims) == GateVerdict(parse, read', claims)
    ensures forall l :: Shared(Resolutions(Resolver(parse, read), claims), l) <==>
                        Shared(Resolutions(Resolver(parse, read'), claims), l)
  {
    var rs, ss := Resolutions(Resolver(parse, read), claims), Resolutions(Resolver(parse, read'), claims);
    forall i | 0 <= i < |claims|
      ensures SameLocations(rs[i], ss[i])
    {
      var name := claims[i].secretName;
      assert SameStorage(read(name), read'(name));
      if read(name).Present? {
        RespellingKeepsLocations(parse, name, read(name).value, read'(name).value);
      }
    }
    VerdictIgnoresListing(rs, ss);
  }
}
