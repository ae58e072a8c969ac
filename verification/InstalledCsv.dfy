/** Which installed version of the Cluster Observability Operator is current. */
module InstalledCsv {
  import opened Text

  /** A string field of an unstructured object. */
  datatype Field = Missing | Malformed | Value(text: string)

  datatype Csv = Csv(name: string, namespace: string, copiedFrom: string, phase: Field, supersedes: Field)

  datatype Listing = NoMatch | ListFailed | Items(csvs: seq<Csv>)

  /** The ClusterExtension lookup; an unknown API counts as finding none. */
  datatype Extension = Found(version: Option<string>) | LookupFailed

  datatype Answer = Ok(version: Option<string>) | Failed

  const NAME_PREFIX := "cluster-observability-operator."

  predicate IsCandidate(c: Csv) {
    NAME_PREFIX <= c.name && c.copiedFrom == ""
  }

  predicate IsInstalled(c: Csv) {
    IsCandidate(c) && c.phase == Value("Succeeded")
  }

  /** A candidate whose fields cannot be read. */
  predicate IsBroken(c: Csv) {
    IsCandidate(c) && (c.phase.Malformed? || (c.phase == Value("Succeeded") && c.supersedes.Malformed?))
  }

  function KeyOf(namespace: string, name: string): string {
    namespace + "/" + name
  }

  /** An installed b names a as the one it replaces. */
  predicate Retires(b: Csv, a: Csv) {
    IsInstalled(b) && b.supersedes.Value? && KeyOf(b.namespace, b.supersedes.text) == KeyOf(a.namespace, a.name)
  }

  predicate IsRetired(csvs: seq<Csv>, a: Csv) {
    exists b :: b in csvs && Retires(b, a)
  }

  predicate IsCurrent(csvs: seq<Csv>, a: Csv) {
    IsInstalled(a) && !IsRetired(csvs, a)
  }

  function Filter<T>(xs: seq<T>, keep: T -> bool): seq<T> {
    if xs == [] then []
    else
      var last := xs[|xs| - 1];
      Filter(xs[..|xs| - 1], keep) + (if keep(last) then [last] else [])
  }

  function Current(csvs: seq<Csv>): seq<Csv> {
    Filter(csvs, c => IsCurrent(csvs, c))
  }

  function Version(c: Csv): string {
    TrimPrefix(c.name, NAME_PREFIX)
  }

  predicate AnyBroken(csvs: seq<Csv>) {
    exists c :: c in csvs && IsBroken(c)
  }

  /** Exactly one current CSV decides; otherwise the ClusterExtension does. */
  function Resolve(listing: Listing, fallback: Option<string>, extension: Extension): Answer {
    match listing
    case NoMatch => Ok(fallback)
    case ListFailed => Failed
    case Items(csvs) =>
      if AnyBroken(csvs) then Failed
      else if |Current(csvs)| == 1 then Ok(Some(Version(Current(csvs)[0])))
      else match extension {
        case LookupFailed => Failed
        case Found(None) => Ok(Some(""))
        case Found(Some(version)) => Ok(Some(version))
      }
  }

  // ---- The resolver ----

  method CooInstalledCSVVersion(listing: Listing, fallback: Option<string>, extension: Extension) returns (r: Answer)
    ensures r == Resolve(listing, fallback, extension)
  {
    if listing.NoMatch? { return Ok(fallback); }
    if listing.ListFailed? { return Failed; }
    var csvs := listing.csvs;
    var ok, installed, replaced := Collect(csvs);
    if !ok { return Failed; }
    var current: seq<Csv> := [];
    for i := 0 to |installed|
      invariant current == Filter(installed[..i], c => IsCurrent(csvs, c))
    {
      var c := installed[i];
      FilterStep(installed, i, c => IsCurrent(csvs, c));
      assert IsInstalled(c) by { FilterMembers(csvs, IsInstalled, c); }
      if KeyOf(c.namespace, c.name) !in replaced { current := current + [c]; }
    }
    assert installed[..|installed|] == installed;
    FilterTwice(csvs, IsInstalled, c => IsCurrent(csvs, c));
    assert current == Current(csvs);
    if |current| != 1 {
      if extension.LookupFailed? { return Failed; }
      return Ok(Some(if extension.version.Some? then extension.version.value else ""));
    }
    return Ok(Some(Version(current[0])));
  }

  /** The first pass: the installed CSVs in list order, and the keys they replace. */
  method Collect(csvs: seq<Csv>) returns (ok: bool, installed: seq<Csv>, replaced: set<string>)
    ensures ok <==> !AnyBroken(csvs)
    ensures ok ==>
              && installed == Filter(csvs, IsInstalled)
              && forall a :: IsRetired(csvs, a) <==> KeyOf(a.namespace, a.name) in replaced
  {
    installed, replaced := [], {};
    for i := 0 to |csvs|
      invariant !AnyBroken(csvs[..i])
      invariant installed == Filter(csvs[..i], IsInstalled)
      invariant forall key :: key in replaced <==> Replaced(csvs[..i], key)
    {
      var c := csvs[i];
      assert csvs[..i + 1] == csvs[..i] + [c];
      FilterStep(csvs, i, IsInstalled);
      if !(NAME_PREFIX <= c.name) { continue; }
      if c.copiedFrom != "" { continue; }
      if c.phase.Malformed? {
        assert IsBroken(c) && c in csvs;
        return false, [], {};
      }
      if c.phase.Missing? || c.phase.text != "Succeeded" { continue; }
      installed := installed + [c];
      if c.supersedes.Malformed? {
        assert IsBroken(c) && c in csvs;
        return false, [], {};
      }
      if c.supersedes.Value? { replaced := replaced + {KeyOf(c.namespace, c.supersedes.text)}; }
    }
    assert csvs[..|csvs|] == csvs;
    ok := true;
  }

  predicate Replaced(csvs: seq<Csv>, key: string) {
    exists b :: b in csvs && IsInstalled(b) && b.supersedes.Value? && KeyOf(b.namespace, b.supersedes.text) == key
  }

  lemma FilterStep<T>(xs: seq<T>, i: nat, keep: T -> bool)
    requires i < |xs|
    ensures Filter(xs[..i + 1], keep) == Filter(xs[..i], keep) + (if keep(xs[i]) then [xs[i]] else [])
  {
    assert xs[..i + 1][..i] == xs[..i];
  }

  lemma {:induction false} FilterMembers<T>(xs: seq<T>, keep: T -> bool, x: T)
    ensures x in Filter(xs, keep) <==> x in xs && keep(x)
  {
    if xs != [] {
      var n := |xs| - 1;
      FilterMembers(xs[..n], keep, x);
      assert xs == xs[..n] + [xs[n]];
    }
  }

  lemma {:induction false} FilterTwice<T(!new)>(xs: seq<T>, first: T -> bool, second: T -> bool)
    requires forall x :: second(x) ==> first(x)
    ensures Filter(Filter(xs, first), second) == Filter(xs, second)
  {
    if xs != [] {
      var n := |xs| - 1;
      FilterTwice(xs[..n], first, second);
      if first(xs[n]) {
        var ys := Filter(xs, first);
        assert ys[..|ys| - 1] == Filter(xs[..n], first);
      } else {
        assert Filter(xs, first) == Filter(xs[..n], first);
      }
    }
  }

  // ---- List order is ignored ----

  lemma {:induction false} FilterCounts<T>(xs: seq<T>, keep: T -> bool, x: T)
    ensures multiset(Filter(xs, keep))[x] == if keep(x) then multiset(xs)[x] else 0
  {
    if xs != [] {
      var n := |xs| - 1;
      FilterCounts(xs[..n], keep, x);
      assert xs == xs[..n] + [xs[n]];
    }
  }

  lemma SameMembers<T>(xs: seq<T>, ys: seq<T>, x: T)
    requires multiset(xs) == multiset(ys)
    ensures x in xs <==> x in ys
  {
    assert x in xs <==> x in multiset(xs);
    assert x in ys <==> x in multiset(ys);
  }

  lemma SameCurrent(xs: seq<Csv>, ys: seq<Csv>, a: Csv)
    requires multiset(xs) == multiset(ys)
    ensures IsCurrent(xs, a) <==> IsCurrent(ys, a)
  {
    forall b: Csv
      ensures b in xs <==> b in ys
    {
      SameMembers(xs, ys, b);
    }
  }

  lemma CurrentPermutes(xs: seq<Csv>, ys: seq<Csv>)
    requires multiset(xs) == multiset(ys)
    ensures multiset(Current(xs)) == multiset(Current(ys))
  {
    hide IsCurrent;
    forall a: Csv
      ensures multiset(Current(xs))[a] == multiset(Current(ys))[a]
    {
      FilterCounts(xs, c => IsCurrent(xs, c), a);
      FilterCounts(ys, c => IsCurrent(ys, c), a);
      SameCurrent(xs, ys, a);
    }
  }

  lemma SingletonsAgree<T>(xs: seq<T>, ys: seq<T>)
    requires multiset(xs) == multiset(ys)
    ensures |xs| == |ys| && (|xs| == 1 ==> xs[0] == ys[0])
  {
    assert |xs| == |multiset(xs)| && |ys| == |multiset(ys)|;
    if |xs| == 1 {
      assert xs == [xs[0]] && ys == [ys[0]];
      assert xs[0] in multiset(ys);
    }
  }

  /** The answer does not depend on the order of the list. */
  lemma ListOrderIgnored(xs: seq<Csv>, ys: seq<Csv>, fallback: Option<string>, extension: Extension)
    requires multiset(xs) == multiset(ys)
    ensures Resolve(Items(xs), fallback, extension) == Resolve(Items(ys), fallback, extension)
  {
    hide Current;
    hide IsBroken;
    forall c: Csv
      ensures c in xs <==> c in ys
    {
      SameMembers(xs, ys, c);
    }
    CurrentPermutes(xs, ys);
    SingletonsAgree(Current(xs), Current(ys));
  }

  // ---- Replacement chains ----

  /** Installed in one namespace under distinct names, each replacing the one before it;
      what the first one replaces is not in the chain. */
  ghost predicate IsChain(chain: seq<Csv>) {
    && chain != []
    && (forall i :: 0 <= i < |chain| ==> IsInstalled(chain[i]) && chain[i].namespace == chain[0].namespace)
    && (forall i, j :: 0 <= i < j < |chain| ==> chain[i].name != chain[j].name)
    && (forall i :: 0 < i < |chain| ==> chain[i].supersedes == Value(chain[i - 1].name))
    && (forall i :: 0 <= i < |chain| ==> chain[0].supersedes != Value(chain[i].name))
  }

  lemma KeysAgree(namespace: string, a: string, b: string)
    ensures KeyOf(namespace, a) == KeyOf(namespace, b) <==> a == b
  {
    if KeyOf(namespace, a) == KeyOf(namespace, b) {
      assert KeyOf(namespace, a)[|namespace| + 1..] == a;
      assert KeyOf(namespace, b)[|namespace| + 1..] == b;
    }
  }

  lemma ChainRetires(chain: seq<Csv>, i: nat, j: nat)
    requires IsChain(chain) && i < |chain| && j < |chain|
    ensures Retires(chain[j], chain[i]) <==> j == i + 1
  {
    hide IsInstalled;
    if chain[j].supersedes.Value? {
      KeysAgree(chain[0].namespace, chain[j].supersedes.text, chain[i].name);
    }
    if j > 0 {
      assert chain[j].supersedes == Value(chain[j - 1].name);
      assert chain[j - 1].name == chain[i].name <==> j - 1 == i;
    } else {
      assert chain[0].supersedes != Value(chain[i].name);
    }
  }

  lemma {:induction false} OnlyHeadIsCurrent(csvs: seq<Csv>, chain: seq<Csv>, i: nat)
    requires IsChain(chain) && i < |chain|
    requires multiset(Filter(csvs, IsInstalled)) == multiset(chain)
    ensures IsCurrent(csvs, chain[i]) <==> i == |chain| - 1
  {
    forall b | b in csvs && Retires(b, chain[i])
      ensures i + 1 < |chain| && b == chain[i + 1]
    {
      FilterMembers(csvs, IsInstalled, b);
      SameMembers(Filter(csvs, IsInstalled), chain, b);
      var j :| 0 <= j < |chain| && chain[j] == b;
      ChainRetires(chain, i, j);
    }
    if i + 1 < |chain| {
      var b := chain[i + 1];
      ChainRetires(chain, i, i + 1);
      SameMembers(Filter(csvs, IsInstalled), chain, b);
      FilterMembers(csvs, IsInstalled, b);
      assert b in csvs && Retires(b, chain[i]);
    }
  }

  lemma {:induction false} ChainCounts(chain: seq<Csv>, a: Csv)
    requires IsChain(chain)
    ensures multiset(chain)[a] <= 1
  {
    if multiset(chain)[a] > 1 {
      TwoPlaces(chain, a);
    }
  }

  lemma {:induction false} TwoPlaces<T>(xs: seq<T>, a: T)
    requires multiset(xs)[a] > 1
    ensures exists i, j :: 0 <= i < j < |xs| && xs[i] == a && xs[j] == a
  {
    var n := |xs| - 1;
    assert xs == xs[..n] + [xs[n]];
    if xs[n] == a {
      assert a in multiset(xs[..n]);
      var i :| 0 <= i < n && xs[i] == a;
    } else {
      TwoPlaces(xs[..n], a);
      var i, j :| 0 <= i < j < |xs[..n]| && xs[..n][i] == a && xs[..n][j] == a;
      assert xs[i] == a && xs[j] == a;
    }
  }

  lemma ChainLeavesHead(csvs: seq<Csv>, chain: seq<Csv>, a: Csv)
    requires IsChain(chain) && multiset(Filter(csvs, IsInstalled)) == multiset(chain)
    ensures multiset(Current(csvs))[a] == multiset([chain[|chain| - 1]])[a]
  {
    var head := chain[|chain| - 1];
    FilterCounts(csvs, c => IsCurrent(csvs, c), a);
    FilterCounts(csvs, IsInstalled, a);
    if a in multiset(chain) {
      var i :| 0 <= i < |chain| && chain[i] == a;
      OnlyHeadIsCurrent(csvs, chain, i);
      ChainCounts(chain, a);
    } else {
      assert a != head by { assert head in chain; }
    }
  }

  /** The head of a replacement chain of any length is found, wherever its members stand in
      the list and whatever else is listed that is not installed. */
  lemma ChainHeadIsFound(csvs: seq<Csv>, chain: seq<Csv>, fallback: Option<string>, extension: Extension)
    requires IsChain(chain) && multiset(Filter(csvs, IsInstalled)) == multiset(chain) && !AnyBroken(csvs)
    ensures Resolve(Items(csvs), fallback, extension) == Ok(Some(Version(chain[|chain| - 1])))
  {
    hide IsChain;
    hide Current;
    hide IsBroken;
    assert chain != [] by { NonEmptyChain(chain); }
    var head := chain[|chain| - 1];
    forall a: Csv
      ensures multiset(Current(csvs))[a] == multiset([head])[a]
    {
      ChainLeavesHead(csvs, chain, a);
    }
    SingletonsAgree(Current(csvs), [head]);
  }

  lemma NonEmptyChain(chain: seq<Csv>)
    requires IsChain(chain)
    ensures chain != []
  {
  }

  // ---- Without cycles something is current ----

  /** Installed CSVs, each replaced by the next. */
  ghost predicate IsWalk(csvs: seq<Csv>, walk: seq<Csv>) {
    && (forall i :: 0 <= i < |walk| ==> walk[i] in csvs && IsInstalled(walk[i]))
    && (forall i :: 0 < i < |walk| ==> Retires(walk[i], walk[i - 1]))
  }

  ghost predicate IsAcyclic(csvs: seq<Csv>) {
    forall walk :: IsWalk(csvs, walk) && |walk| > 1 ==> walk[0] != walk[|walk| - 1]
  }

  lemma WalkExtends(csvs: seq<Csv>, walk: seq<Csv>, b: Csv)
    requires IsWalk(csvs, walk) && walk != [] && b in csvs && Retires(b, walk[|walk| - 1])
    ensures IsWalk(csvs, walk + [b])
  {
    assert IsInstalled(b);
    hide IsInstalled;
    hide Retires;
  }

  lemma WalkPart(csvs: seq<Csv>, walk: seq<Csv>, i: nat, j: nat)
    requires IsWalk(csvs, walk) && i < j < |walk|
    ensures IsWalk(csvs, walk[i..j + 1])
  {
    hide IsInstalled;
    hide Retires;
  }

  lemma {:induction false} WalksGrow(csvs: seq<Csv>, a: Csv, n: nat)
    requires a in csvs && IsInstalled(a)
    requires forall c :: c in csvs && IsInstalled(c) ==> IsRetired(csvs, c)
    ensures exists walk :: IsWalk(csvs, walk) && |walk| == n + 1
  {
    hide IsInstalled;
    hide Retires;
    if n == 0 {
      assert IsWalk(csvs, [a]);
    } else {
      WalksGrow(csvs, a, n - 1);
      var walk :| IsWalk(csvs, walk) && |walk| == n;
      assert IsRetired(csvs, walk[n - 1]);
      var b :| b in csvs && Retires(b, walk[n - 1]);
      WalkExtends(csvs, walk, b);
    }
  }

  lemma {:induction false} Pigeonhole<T>(xs: seq<T>, holes: set<T>)
    requires forall i :: 0 <= i < |xs| ==> xs[i] in holes
    requires |xs| > |holes|
    ensures exists i, j :: 0 <= i < j < |xs| && xs[i] == xs[j]
  {
    var n := |xs| - 1;
    var last, rest := xs[n], xs[..n];
    if i :| 0 <= i < n && xs[i] == last {
    } else {
      Pigeonhole(rest, holes - {last});
      var i, j :| 0 <= i < j < n && rest[i] == rest[j];
      assert xs[i] == xs[j];
    }
  }

  lemma NoCurrentMeansCycle(csvs: seq<Csv>, a: Csv)
    requires a in csvs && IsInstalled(a)
    requires forall c :: c in csvs && IsInstalled(c) ==> IsRetired(csvs, c)
    ensures !IsAcyclic(csvs)
  {
    hide IsInstalled;
    hide IsRetired;
    hide Retires;
    var holes := set c | c in csvs;
    WalksGrow(csvs, a, |holes|);
    var walk :| IsWalk(csvs, walk) && |walk| == |holes| + 1;
    Pigeonhole(walk, holes);
    var i, j :| 0 <= i < j < |walk| && walk[i] == walk[j];
    WalkPart(csvs, walk, i, j);
    var cycle := walk[i..j + 1];
    assert cycle[0] == cycle[|cycle| - 1];
  }

  /** A non-empty, acyclic replacement relation always leaves a current CSV. */
  lemma AcyclicLeavesCurrent(csvs: seq<Csv>, a: Csv)
    requires a in csvs && IsInstalled(a) && IsAcyclic(csvs)
    ensures Current(csvs) != []
  {
    hide IsInstalled;
    hide IsRetired;
    if forall c :: c in csvs && IsInstalled(c) ==> IsRetired(csvs, c) {
      NoCurrentMeansCycle(csvs, a);
    } else {
      var c :| c in csvs && IsInstalled(c) && !IsRetired(csvs, c);
      FilterMembers(csvs, c => IsCurrent(csvs, c), c);
    }
  }

  // ---- What does not count ----

  /** Another operator's CSV, a copy, or one that has not succeeded. */
  predicate IsIrrelevant(c: Csv) {
    || !("cluster-observability-operator." <= c.name)
    || c.copiedFrom != ""
    || c.phase.Missing? || (c.phase.Value? && c.phase.text != "Succeeded")
  }

  lemma IrrelevantKeepsCurrent(csvs: seq<Csv>, c: Csv)
    requires IsIrrelevant(c)
    ensures Current(csvs + [c]) == Current(csvs)
  {
    hide IsInstalled;
    var more := csvs + [c];
    assert !IsInstalled(c) by { NotInstalled(c); }
    forall a: Csv
      ensures IsCurrent(more, a) <==> IsCurrent(csvs, a)
    {
      assert forall b :: b in more <==> b in csvs || b == c;
    }
    FilterAlike(csvs, a => IsCurrent(more, a), a => IsCurrent(csvs, a));
    FilterStep(more, |csvs|, a => IsCurrent(more, a));
    assert more[..|csvs|] == csvs && more[..|csvs| + 1] == more;
  }

  lemma NotInstalled(c: Csv)
    requires IsIrrelevant(c)
    ensures !IsInstalled(c) && !IsBroken(c)
  {
  }

  lemma {:induction false} FilterAlike<T(!new)>(xs: seq<T>, p: T -> bool, q: T -> bool)
    requires forall x :: p(x) <==> q(x)
    ensures Filter(xs, p) == Filter(xs, q)
  {
    if xs != [] { FilterAlike(xs[..|xs| - 1], p, q); }
  }

  /** Such a CSV does not change the answer, whatever it says it replaces. */
  lemma IrrelevantIgnored(csvs: seq<Csv>, c: Csv, fallback: Option<string>, extension: Extension)
    requires IsIrrelevant(c)
    ensures Resolve(Items(csvs + [c]), fallback, extension) == Resolve(Items(csvs), fallback, extension)
  {
    hide IsBroken;
    hide Current;
    IrrelevantKeepsCurrent(csvs, c);
    NotInstalled(c);
    assert forall b :: b in csvs + [c] <==> b in csvs || b == c;
  }

  /** Alone and succeeded, a CSV gives the version its name carries. */
  lemma LoneVersion(namespace: string, version: string, supersedes: Field, fallback: Option<string>, extension: Extension)
    requires !supersedes.Malformed? && supersedes != Value("cluster-observability-operator." + version)
    ensures var c := Csv("cluster-observability-operator." + version, namespace, "", Value("Succeeded"), supersedes);
            Resolve(Items([c]), fallback, extension) == Ok(Some(version))
  {
    var c := Csv("cluster-observability-operator." + version, namespace, "", Value("Succeeded"), supersedes);
    assert IsInstalled(c) && !IsBroken(c);
    assert TrimPrefix(c.name, NAME_PREFIX) == version;
    assert [c][..0] == [];
    assert Filter([c], IsInstalled) == [c];
    assert IsChain([c]);
    ChainHeadIsFound([c], [c], fallback, extension);
  }

  /** Without a relevant CSV the ClusterExtension decides; without the CSV API the fallback
      does; a list that fails for another reason is an error. */
  lemma {:induction false} NothingInstalled(csvs: seq<Csv>, fallback: Option<string>, extension: Extension)
    requires forall c :: c in csvs ==> IsIrrelevant(c)
    ensures Resolve(Items(csvs), fallback, extension) ==
            match extension
            case LookupFailed => Failed
            case Found(version) => Ok(Some(if version.Some? then version.value else ""))
    ensures Resolve(NoMatch, fallback, extension) == Ok(fallback)
    ensures Resolve(ListFailed, fallback, extension) == Failed
  {
    if csvs != [] {
      var n := |csvs| - 1;
      NothingInstalled(csvs[..n], fallback, extension);
      IrrelevantIgnored(csvs[..n], csvs[n], fallback, extension);
      assert csvs[..n] + [csvs[n]] == csvs;
    }
  }

  /** Two current CSVs are as good as none. */
  lemma TwoCurrent(csvs: seq<Csv>, a: Csv, b: Csv, fallback: Option<string>, extension: Extension)
    requires a in csvs && b in csvs && a != b && IsCurrent(csvs, a) && IsCurrent(csvs, b) && !AnyBroken(csvs)
    ensures Resolve(Items(csvs), fallback, extension) == Resolve(Items([]), fallback, extension)
  {
    hide IsCurrent;
    FilterMembers(csvs, c => IsCurrent(csvs, c), a);
    FilterMembers(csvs, c => IsCurrent(csvs, c), b);
    assert |Current(csvs)| != 1;
  }
}
