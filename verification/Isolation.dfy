/**
 Comparing the locations that claimants resolve to, whatever a location is. The
 check keeps a map from location to claimants; the reference compares the claims
 pairwise.
 */
module Isolation {
  import opened Text

  /** Why the isolation question could not be answered, as the condition reason names it. */
  datatype Cause = SecretMissing | SecretInvalid | CheckFailed

  datatype Resolution<+L> = Locations(locs: seq<L>) | Unresolved(cause: Cause)

  datatype Verdict<+D, +L> =
    | Isolated
    | Conflict(claimants: seq<D>, shared: seq<L>)
    | Unanswered(cause: Cause)

  // ---- The pairwise reference ----

  function Resolutions<C, L>(resolve: C -> Resolution<L>, claims: seq<C>): (rs: seq<Resolution<L>>)
    ensures |rs| == |claims|
    ensures forall i :: 0 <= i < |claims| ==> rs[i] == resolve(claims[i])
  {
    seq(|claims|, i requires 0 <= i < |claims| => resolve(claims[i]))
  }

  function Descriptions<C, D>(describe: C -> D, claims: seq<C>): (names: seq<D>)
    ensures |names| == |claims|
    ensures forall i :: 0 <= i < |claims| ==> names[i] == describe(claims[i])
  {
    seq(|claims|, i requires 0 <= i < |claims| => describe(claims[i]))
  }

  predicate Holds<L(==)>(rs: seq<Resolution<L>>, i: int, l: L) {
    0 <= i < |rs| && rs[i].Locations? && l in rs[i].locs
  }

  /** Two distinct claims resolve to the location. */
  ghost predicate Shared<L>(rs: seq<Resolution<L>>, l: L) {
    exists i, j :: i < j && Holds(rs, i, l) && Holds(rs, j, l)
  }

  ghost predicate PairwiseDisjoint<L(!new)>(rs: seq<Resolution<L>>) {
    forall l :: !Shared(rs, l)
  }

  /** The cause of the unresolved claim with the lowest index. */
  function FirstUnresolved<L>(rs: seq<Resolution<L>>): Option<Cause> {
    if rs == [] then None
    else match rs[0] {
      case Unresolved(cause) => Some(cause)
      case Locations(_) => FirstUnresolved(rs[1..])
    }
  }

  lemma {:induction false} AllResolved<L>(rs: seq<Resolution<L>>)
    ensures FirstUnresolved(rs).None? <==> forall i :: 0 <= i < |rs| ==> rs[i].Locations?
  {
    if rs != [] && rs[0].Locations? {
      AllResolved(rs[1..]);
      assert forall i :: 0 < i < |rs| ==> rs[i] == rs[1..][i - 1];
    }
  }

  lemma {:induction false} FirstUnresolvedAt<L>(rs: seq<Resolution<L>>, n: nat)
    requires n < |rs| && rs[n].Unresolved? && forall i :: 0 <= i < n ==> rs[i].Locations?
    ensures FirstUnresolved(rs) == Some(rs[n].cause)
  {
    if n > 0 {
      FirstUnresolvedAt(rs[1..], n - 1);
    }
  }

  /** The verdict without its lists. */
  datatype Gate = Clean | Clash | Unclear(cause: Cause)

  ghost function GateOf<L(!new)>(rs: seq<Resolution<L>>): Gate {
    if |rs| < 2 then Clean
    else match FirstUnresolved(rs) {
      case Some(cause) => Unclear(cause)
      case None => if PairwiseDisjoint(rs) then Clean else Clash
    }
  }

  function Classify<D, L>(v: Verdict<D, L>): Gate {
    match v
    case Isolated => Clean
    case Conflict(_, _) => Clash
    case Unanswered(cause) => Unclear(cause)
  }

  predicate NoRepeats<T(==)>(s: seq<T>) {
    forall i, j :: 0 <= i < j < |s| ==> s[i] != s[j]
  }

  /** What a conflict reports: exactly the locations two distinct claims hold, and
      exactly the descriptions of the claims that hold one of them, each once. */
  ghost predicate Accurate<D(!new), L(!new)>(v: Verdict<D, L>, names: seq<D>, rs: seq<Resolution<L>>)
    requires |names| == |rs|
  {
    v.Conflict? ==>
      && NoRepeats(v.shared) && NoRepeats(v.claimants)
      && (forall l :: l in v.shared <==> Shared(rs, l))
      && (forall d {:trigger Involved(names, rs, d)} :: d in v.claimants <==> Involved(names, rs, d))
  }

  ghost predicate Involved<D, L(!new)>(names: seq<D>, rs: seq<Resolution<L>>, d: D)
    requires |names| == |rs|
  {
    exists i, l :: Shared(rs, l) && Holds(rs, i, l) && names[i] == d
  }

  // ---- What the map of claimants holds ----

  /** Descriptions of the first n claims that resolve to a location, in claim order. */
  ghost function Holders<D, L>(names: seq<D>, rs: seq<Resolution<L>>, n: nat, l: L): seq<D>
    requires n <= |names| == |rs|
  {
    if n == 0 then []
    else Holders(names, rs, n - 1, l) + (if Holds(rs, n - 1, l) then [names[n - 1]] else [])
  }

  lemma {:induction false} SomeHolder<D, L>(names: seq<D>, rs: seq<Resolution<L>>, n: nat, l: L)
    requires n <= |names| == |rs|
    ensures |Holders(names, rs, n, l)| >= 1 <==> exists i :: i < n && Holds(rs, i, l)
  {
    if n > 0 {
      SomeHolder(names, rs, n - 1, l);
    }
  }

  lemma {:induction false} TwoHolders<D, L>(names: seq<D>, rs: seq<Resolution<L>>, n: nat, l: L)
    requires n <= |names| == |rs|
    ensures |Holders(names, rs, n, l)| >= 2 <==> exists i, j :: i < j < n && Holds(rs, i, l) && Holds(rs, j, l)
  {
    if n > 0 {
      TwoHolders(names, rs, n - 1, l);
      SomeHolder(names, rs, n - 1, l);
    }
  }

  lemma {:induction false} HoldersMembers<D, L>(names: seq<D>, rs: seq<Resolution<L>>, n: nat, l: L, d: D)
    requires n <= |names| == |rs|
    ensures d in Holders(names, rs, n, l) <==> exists i :: i < n && Holds(rs, i, l) && names[i] == d
  {
    if n > 0 {
      HoldersMembers(names, rs, n - 1, l, d);
    }
  }

  function Lookup<D, L(==)>(claimedBy: map<L, seq<D>>, l: L): seq<D> {
    if l in claimedBy then claimedBy[l] else []
  }

  /** claimedBy and order after the first n claims, and after the given locations of
      the claim that follows them. */
  ghost predicate Booked<D, L(!new)>(claimedBy: map<L, seq<D>>, order: seq<L>,
                                     names: seq<D>, rs: seq<Resolution<L>>, n: nat, current: set<L>)
    requires n <= |names| == |rs|
    requires current != {} ==> n < |names|
  {
    && NoRepeats(order)
    && (forall l :: l in order <==> Lookup(claimedBy, l) != [])
    && (forall l :: Lookup(claimedBy, l) ==
                    Holders(names, rs, n, l) + (if l in current then [names[n]] else []))
  }

  // ---- The check ----

  method CheckIsolation<C, D(==, !new), L(==, !new)>(claims: seq<C>, resolve: C -> Resolution<L>, describe: C -> D)
    returns (v: Verdict<D, L>)
    ensures Classify(v) == GateOf(Resolutions(resolve, claims))
    ensures Accurate(v, Descriptions(describe, claims), Resolutions(resolve, claims))
  {
    if |claims| < 2 { return Isolated; }
    var claimedBy, order, failure := BookAll(claims, resolve, describe);
    if failure.Some? { return Unanswered(failure.value); }
    ghost var names, rs := Descriptions(describe, claims), Resolutions(resolve, claims);
    BookedDescribes(claimedBy, order, names, rs);
    v := Report(claimedBy, order, names, rs);
  }

  lemma NothingBooked<D(!new), L(!new)>(names: seq<D>, rs: seq<Resolution<L>>)
    requires |names| == |rs|
    ensures Booked(map[], [], names, rs, 0, {})
  {
  }

  /** Enters the claims in order, up to the first one that does not resolve. */
  method BookAll<C, D(!new), L(==, !new)>(claims: seq<C>, resolve: C -> Resolution<L>, describe: C -> D)
    returns (claimedBy: map<L, seq<D>>, order: seq<L>, failure: Option<Cause>)
    ensures failure == FirstUnresolved(Resolutions(resolve, claims))
    ensures failure.None? ==>
              && Booked(claimedBy, order, Descriptions(describe, claims), Resolutions(resolve, claims), |claims|, {})
              && forall i :: 0 <= i < |claims| ==> Resolutions(resolve, claims)[i].Locations?
  {
    hide Booked;
    hide FirstUnresolved;
    ghost var names, rs := Descriptions(describe, claims), Resolutions(resolve, claims);
    claimedBy, order := map[], [];
    NothingBooked(names, rs);
    for n := 0 to |claims|
      invariant Booked(claimedBy, order, names, rs, n, {})
      invariant forall i :: 0 <= i < n ==> rs[i].Locations?
    {
      var resolution := resolve(claims[n]);
      if resolution.Unresolved? {
        FirstUnresolvedAt(rs, n);
        return claimedBy, order, Some(resolution.cause);
      }
      claimedBy, order := Book(claimedBy, order, describe(claims[n]), resolution.locs, names, rs, n);
    }
    AllResolved(rs);
    failure := None;
  }

  /** Enters one claim: every distinct location it resolves to, once. */
  method Book<D, L(==, !new)>(claimedBy: map<L, seq<D>>, order: seq<L>, name: D, locations: seq<L>,
                              ghost names: seq<D>, ghost rs: seq<Resolution<L>>, ghost n: nat)
    returns (claimedBy': map<L, seq<D>>, order': seq<L>)
    requires n < |names| == |rs| && rs[n] == Locations(locations) && names[n] == name
    requires Booked(claimedBy, order, names, rs, n, {})
    ensures Booked(claimedBy', order', names, rs, n + 1, {})
  {
    claimedBy', order' := claimedBy, order;
    var claimed: set<L> := {};
    for j := 0 to |locations|
      invariant forall l :: l in claimed <==> l in locations[..j]
      invariant Booked(claimedBy', order', names, rs, n, claimed)
    {
      var location := locations[j];
      assert locations[..j + 1] == locations[..j] + [location];
      if location in claimed { continue; }
      claimedBy', order' := Enter(claimedBy', order', name, location, names, rs, n, claimed);
      claimed := claimed + {location};
    }
    assert locations[..|locations|] == locations;
    forall l
      ensures Lookup(claimedBy', l) == Holders(names, rs, n + 1, l) + []
    {
      assert l in claimed <==> Holds(rs, n, l);
    }
  }

  method Enter<D, L(==, !new)>(claimedBy: map<L, seq<D>>, order: seq<L>, name: D, location: L,
                               ghost names: seq<D>, ghost rs: seq<Resolution<L>>, ghost n: nat, ghost claimed: set<L>)
    returns (claimedBy': map<L, seq<D>>, order': seq<L>)
    requires n < |names| == |rs| && names[n] == name && location !in claimed
    requires Booked(claimedBy, order, names, rs, n, claimed)
    ensures Booked(claimedBy', order', names, rs, n, claimed + {location})
  {
    var known := Lookup(claimedBy, location);
    order' := if |known| == 0 then order + [location] else order;
    claimedBy' := claimedBy[location := known + [name]];
    assert known == Holders(names, rs, n, location);
    forall l
      ensures l in order' <==> Lookup(claimedBy', l) != []
      ensures Lookup(claimedBy', l) ==
              Holders(names, rs, n, l) + (if l in claimed + {location} then [names[n]] else [])
    {
      if l != location {
        assert Lookup(claimedBy', l) == Lookup(claimedBy, l);
      }
    }
  }

  /** Reads the shared locations and their claimants off the map. */
  method Report<D(==, !new), L(==, !new)>(claimedBy: map<L, seq<D>>, order: seq<L>,
                                          ghost names: seq<D>, ghost rs: seq<Resolution<L>>)
    returns (v: Verdict<D, L>)
    requires |names| == |rs| >= 2 && NoRepeats(order)
    requires forall l :: l in order ==> Describes(names, rs, l, Lookup(claimedBy, l))
    requires forall l :: Shared(rs, l) ==> l in order
    requires forall i :: 0 <= i < |rs| ==> rs[i].Locations?
    ensures Classify(v) == GateOf(rs)
    ensures Accurate(v, names, rs)
  {
    var shared: seq<L> := [];
    var claimants: seq<D> := [];
    for k := 0 to |order|
      invariant NoRepeats(shared) && NoRepeats(claimants)
      invariant forall l :: l in shared <==> l in order[..k] && Shared(rs, l)
      invariant forall d {:trigger Involved(names, rs, d)} :: d in claimants ==> Involved(names, rs, d)
      invariant forall l {:trigger Named(names, rs, l, claimants)} :: l in shared ==> Named(names, rs, l, claimants)
    {
      var location := order[k];
      assert order[..k + 1] == order[..k] + [location];
      var holders := Lookup(claimedBy, location);
      assert Describes(names, rs, location, holders);
      if |holders| < 2 { continue; }
      assert location !in shared by {
        assert forall i :: 0 <= i < k ==> order[..k][i] == order[i] != location;
      }
      shared := shared + [location];
      ghost var before := claimants;
      claimants := AddNew(claimants, holders);
      forall l | l in shared
        ensures Named(names, rs, l, claimants)
      {
        assert if l == location then Named(names, rs, l, holders) else Named(names, rs, l, before);
      }
    }
    assert order[..|order|] == order;
    assert forall l :: l in shared <==> Shared(rs, l);
    Concludes(names, rs, claimants, shared);
    return if |shared| == 0 then Isolated else Conflict(claimants, shared);
  }

  lemma Concludes<D(!new), L(!new)>(names: seq<D>, rs: seq<Resolution<L>>, claimants: seq<D>, shared: seq<L>)
    requires |names| == |rs| >= 2 && NoRepeats(shared) && NoRepeats(claimants)
    requires forall i :: 0 <= i < |rs| ==> rs[i].Locations?
    requires forall l :: l in shared <==> Shared(rs, l)
    requires forall d {:trigger Involved(names, rs, d)} :: d in claimants ==> Involved(names, rs, d)
    requires forall l {:trigger Named(names, rs, l, claimants)} :: l in shared ==> Named(names, rs, l, claimants)
    ensures GateOf(rs) == if shared == [] then Clean else Clash
    ensures Accurate(Conflict(claimants, shared), names, rs)
  {
    AllResolved(rs);
    if shared != [] {
      assert Shared(rs, shared[0]);
    }
    InvolvedAreNamed(names, rs, claimants);
  }

  /** Every claim that holds the location is among the descriptions given. */
  ghost predicate Named<D, L>(names: seq<D>, rs: seq<Resolution<L>>, l: L, given: seq<D>)
    requires |names| == |rs|
  {
    forall i :: Holds(rs, i, l) ==> names[i] in given
  }

  /** What the list of holders of a location says. */
  ghost predicate Describes<D(!new), L(!new)>(names: seq<D>, rs: seq<Resolution<L>>, l: L, holders: seq<D>)
    requires |names| == |rs|
  {
    && (|holders| >= 2 <==> Shared(rs, l))
    && (Shared(rs, l) ==> forall d {:trigger Involved(names, rs, d)} :: d in holders ==> Involved(names, rs, d))
    && Named(names, rs, l, holders)
  }

  lemma BookedDescribes<D(!new), L(!new)>(claimedBy: map<L, seq<D>>, order: seq<L>,
                                          names: seq<D>, rs: seq<Resolution<L>>)
    requires |names| == |rs| && Booked(claimedBy, order, names, rs, |names|, {})
    ensures forall l :: Describes(names, rs, l, Lookup(claimedBy, l))
    ensures forall l :: Shared(rs, l) ==> l in order
  {
    forall l
      ensures Describes(names, rs, l, Lookup(claimedBy, l))
      ensures Shared(rs, l) ==> l in order
    {
      HoldersOf(names, rs, l);
      assert Lookup(claimedBy, l) == Holders(names, rs, |names|, l);
    }
  }

  lemma HoldersOf<D(!new), L(!new)>(names: seq<D>, rs: seq<Resolution<L>>, l: L)
    requires |names| == |rs|
    ensures Describes(names, rs, l, Holders(names, rs, |names|, l))
  {
    var holders := Holders(names, rs, |names|, l);
    TwoHolders(names, rs, |names|, l);
    if Shared(rs, l) {
      forall d | d in holders
        ensures Involved(names, rs, d)
      {
        HoldersMembers(names, rs, |names|, l, d);
        var i :| i < |names| && Holds(rs, i, l) && names[i] == d;
      }
    }
    forall i | Holds(rs, i, l)
      ensures names[i] in holders
    {
      HoldersMembers(names, rs, |names|, l, names[i]);
    }
  }

  lemma InvolvedAreNamed<D(!new), L(!new)>(names: seq<D>, rs: seq<Resolution<L>>, given: seq<D>)
    requires |names| == |rs|
    requires forall l :: Shared(rs, l) ==> Named(names, rs, l, given)
    ensures forall d :: Involved(names, rs, d) ==> d in given
  {
    forall d | Involved(names, rs, d)
      ensures d in given
    {
      var i, l :| Shared(rs, l) && Holds(rs, i, l) && names[i] == d;
      assert Named(names, rs, l, given);
    }
  }

  method AddNew<D(==, !new)>(known: seq<D>, more: seq<D>) returns (r: seq<D>)
    requires NoRepeats(known)
    ensures NoRepeats(r)
    ensures forall d :: d in r <==> d in known || d in more
  {
    r := known;
    for i := 0 to |more|
      invariant NoRepeats(r)
      invariant forall d :: d in r <==> d in known || d in more[..i]
    {
      assert more[..i + 1] == more[..i] + [more[i]];
      if more[i] !in r {
        r := r + [more[i]];
      }
    }
    assert more[..|more|] == more;
  }

  // ---- The verdict does not depend on the order of the claims ----

  ghost function HolderCount<L>(rs: seq<Resolution<L>>, l: L): nat {
    if rs == [] then 0 else (if Holds(rs, 0, l) then 1 else 0) + HolderCount(rs[1..], l)
  }

  lemma HoldsInRest<L>(rs: seq<Resolution<L>>, i: int, l: L)
    requires rs != [] && 0 <= i
    ensures Holds(rs, i + 1, l) <==> Holds(rs[1..], i, l)
  {
  }

  lemma {:induction false} OneCounted<L>(rs: seq<Resolution<L>>, l: L)
    ensures HolderCount(rs, l) >= 1 <==> exists i :: Holds(rs, i, l)
  {
    if rs != [] {
      var rest := rs[1..];
      OneCounted(rest, l);
      if exists i :: Holds(rest, i, l) {
        var i :| Holds(rest, i, l);
        HoldsInRest(rs, i, l);
      }
      if exists i :: Holds(rs, i, l) {
        var i :| Holds(rs, i, l);
        if i > 0 { HoldsInRest(rs, i - 1, l); }
      }
    }
  }

  lemma {:induction false} TwoCounted<L>(rs: seq<Resolution<L>>, l: L)
    ensures HolderCount(rs, l) >= 2 <==> Shared(rs, l)
  {
    if rs != [] {
      var rest := rs[1..];
      TwoCounted(rest, l);
      OneCounted(rest, l);
      if Shared(rest, l) {
        var i, j :| i < j && Holds(rest, i, l) && Holds(rest, j, l);
        HoldsInRest(rs, i, l);
        HoldsInRest(rs, j, l);
      }
      if Holds(rs, 0, l) && (exists j :: Holds(rest, j, l)) {
        var j :| Holds(rest, j, l);
        HoldsInRest(rs, j, l);
      }
      if Shared(rs, l) {
        var i, j :| i < j && Holds(rs, i, l) && Holds(rs, j, l);
        HoldsInRest(rs, j - 1, l);
        if i > 0 { HoldsInRest(rs, i - 1, l); }
      }
    }
  }

  lemma {:induction false} CountConcat<L>(a: seq<Resolution<L>>, b: seq<Resolution<L>>, l: L)
    ensures HolderCount(a + b, l) == HolderCount(a, l) + HolderCount(b, l)
  {
    if a == [] {
      assert a + b == b;
    } else {
      assert (a + b)[0] == a[0] && (a + b)[1..] == a[1..] + b;
      CountConcat(a[1..], b, l);
    }
  }

  /** Taking one occurrence out of each of two permutations leaves permutations. */
  lemma TakeOut<T>(a: seq<T>, left: seq<T>, x: T, right: seq<T>)
    requires a != [] && a[0] == x
    requires multiset(a) == multiset(left + [x] + right)
    ensures multiset(a[1..]) == multiset(left + right)
  {
    assert a == [x] + a[1..];
    assert multiset(a) == multiset{x} + multiset(a[1..]);
    assert multiset(left + [x] + right) == multiset(left) + multiset{x} + multiset(right);
    assert multiset(left + right) == multiset(left) + multiset(right);
    assert multiset(a[1..]) == multiset(a) - multiset{x};
    assert multiset(left + right) == multiset(left + [x] + right) - multiset{x};
  }

  lemma {:induction false} CountPermutes<L>(rs: seq<Resolution<L>>, ss: seq<Resolution<L>>, l: L)
    requires multiset(rs) == multiset(ss)
    ensures HolderCount(rs, l) == HolderCount(ss, l)
  {
    if rs == [] {
      assert |multiset(ss)| == 0;
    } else {
      var x := rs[0];
      assert x in multiset(ss);
      var k :| 0 <= k < |ss| && ss[k] == x;
      var left, right := ss[..k], ss[k + 1..];
      assert ss == left + [x] + right;
      TakeOut(rs, left, x, right);
      CountPermutes(rs[1..], left + right, l);
      CountConcat(left + [x], right, l);
      CountConcat(left, [x], l);
      CountConcat(left, right, l);
      assert rs == [x] + rs[1..];
      CountConcat([x], rs[1..], l);
    }
  }

  lemma {:induction false} ResolutionsPermute<C, L>(resolve: C -> Resolution<L>, a: seq<C>, b: seq<C>)
    requires multiset(a) == multiset(b)
    ensures multiset(Resolutions(resolve, a)) == multiset(Resolutions(resolve, b))
  {
    hide Resolutions;
    if a == [] {
      assert |multiset(b)| == 0;
    } else {
      var x := a[0];
      assert x in multiset(b);
      var k :| 0 <= k < |b| && b[k] == x;
      var left, right := b[..k], b[k + 1..];
      assert b == left + [x] + right;
      TakeOut(a, left, x, right);
      ResolutionsPermute(resolve, a[1..], left + right);
      ResolutionsInsert(resolve, left, x, right);
      ResolutionsInsert(resolve, [], x, a[1..]);
      assert a == [] + [x] + a[1..] && [] + a[1..] == a[1..];
    }
  }

  lemma ResolutionsInsert<C, L>(resolve: C -> Resolution<L>, left: seq<C>, x: C, right: seq<C>)
    ensures multiset(Resolutions(resolve, left + [x] + right)) ==
            multiset(Resolutions(resolve, left + right)) + multiset{resolve(x)}
  {
    ResolutionsConcat(resolve, left, right);
    ResolutionsConcat(resolve, left + [x], right);
    ResolutionsConcat(resolve, left, [x]);
    assert Resolutions(resolve, [x]) == [resolve(x)];
  }

  lemma ResolutionsConcat<C, L>(resolve: C -> Resolution<L>, a: seq<C>, b: seq<C>)
    ensures Resolutions(resolve, a + b) == Resolutions(resolve, a) + Resolutions(resolve, b)
  {
  }

  /** Same class of verdict: isolated, conflict, or unanswered for whatever cause. */
  predicate SameClass(g: Gate, h: Gate) {
    g == h || (g.Unclear? && h.Unclear?)
  }

  /** Permuting the claims keeps the class of the verdict and the shared locations. */
  lemma VerdictIgnoresClaimOrder<C, L(!new)>(resolve: C -> Resolution<L>, a: seq<C>, b: seq<C>)
    requires multiset(a) == multiset(b)
    ensures SameClass(GateOf(Resolutions(resolve, a)), GateOf(Resolutions(resolve, b)))
    ensures forall l :: Shared(Resolutions(resolve, a), l) <==> Shared(Resolutions(resolve, b), l)
  {
    var rs, ss := Resolutions(resolve, a), Resolutions(resolve, b);
    ResolutionsPermute(resolve, a, b);
    assert |a| == |multiset(a)| == |multiset(b)| == |b|;
    forall l
      ensures Shared(rs, l) <==> Shared(ss, l)
    {
      CountPermutes(rs, ss, l);
      TwoCounted(rs, l);
      TwoCounted(ss, l);
    }
    UnresolvedPermutes(rs, ss);
    UnresolvedPermutes(ss, rs);
  }

  lemma UnresolvedPermutes<L>(rs: seq<Resolution<L>>, ss: seq<Resolution<L>>)
    requires multiset(rs) == multiset(ss)
    ensures FirstUnresolved(rs).Some? ==> FirstUnresolved(ss).Some?
  {
    AllResolved(rs);
    AllResolved(ss);
    if FirstUnresolved(rs).Some? {
      var i :| 0 <= i < |rs| && rs[i].Unresolved?;
      assert rs[i] in multiset(ss);
      assert rs[i] in ss;
    }
  }

  // ---- ... nor on how a claimant's locations are listed ----

  /** Two resolutions that name the same locations, or fail for the same reason. */
  ghost predicate SameLocations<L(!new)>(r: Resolution<L>, s: Resolution<L>) {
    match (r, s)
    case (Locations(a), Locations(b)) => (forall l :: l in a <==> l in b)
    case (Unresolved(c), Unresolved(d)) => c == d
    case _ => false
  }

  /** Listing each claimant's locations differently keeps verdict and shared locations. */
  lemma VerdictIgnoresListing<L(!new)>(rs: seq<Resolution<L>>, ss: seq<Resolution<L>>)
    requires |rs| == |ss| && forall i :: 0 <= i < |rs| ==> SameLocations(rs[i], ss[i])
    ensures GateOf(rs) == GateOf(ss)
    ensures forall l :: Shared(rs, l) <==> Shared(ss, l)
  {
    forall i, l
      ensures Holds(rs, i, l) <==> Holds(ss, i, l)
    {
      if 0 <= i < |rs| { assert SameLocations(rs[i], ss[i]); }
    }
    forall l
      ensures Shared(rs, l) <==> Shared(ss, l)
    {
    }
    FirstUnresolvedAgrees(rs, ss);
  }

  lemma {:induction false} FirstUnresolvedAgrees<L(!new)>(rs: seq<Resolution<L>>, ss: seq<Resolution<L>>)
    requires |rs| == |ss| && forall i :: 0 <= i < |rs| ==> SameLocations(rs[i], ss[i])
    ensures FirstUnresolved(rs) == FirstUnresolved(ss)
  {
    if rs != [] {
      assert SameLocations(rs[0], ss[0]);
      FirstUnresolvedAgrees(rs[1..], ss[1..]);
    }
  }
}
