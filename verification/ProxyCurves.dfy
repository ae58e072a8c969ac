/** The TLS curve preferences a proxy can use. */
module ProxyCurves {
  import opened Text

  const PROXY_CURVES: set<int> := {23, 24, 25, 29, 4588}
  const FIPS_CURVES: set<int> := {23, 24, 25}

  function CurvesFor(fips: bool): set<int> {
    if fips then FIPS_CURVES else PROXY_CURVES
  }

  // ---- The first entry of each allowed number ----

  /** A preference as written, and the number it spells. */
  datatype Entry<T> = Entry(text: T, id: int)

  predicate HasId<T>(entries: seq<Entry<T>>, id: int) {
    exists i :: 0 <= i < |entries| && entries[i].id == id
  }

  function Firsts<T>(entries: seq<Entry<T>>, allowed: set<int>): seq<Entry<T>> {
    if entries == [] then []
    else
      var n := |entries| - 1;
      var front := Firsts(entries[..n], allowed);
      if entries[n].id in allowed && !HasId(entries[..n], entries[n].id) then front + [entries[n]] else front
  }

  lemma {:induction false} FirstsCover<T>(entries: seq<Entry<T>>, allowed: set<int>, id: int)
    ensures HasId(Firsts(entries, allowed), id) <==> id in allowed && HasId(entries, id)
  {
    if entries != [] {
      var n := |entries| - 1;
      FirstsCover(entries[..n], allowed, id);
      HasIdAppend(entries[..n], entries[n], id);
      HasIdAppend(Firsts(entries[..n], allowed), entries[n], id);
      assert entries == entries[..n] + [entries[n]];
    }
  }

  lemma HasIdAppend<T>(entries: seq<Entry<T>>, e: Entry<T>, id: int)
    ensures HasId(entries + [e], id) <==> HasId(entries, id) || e.id == id
  {
    var longer := entries + [e];
    assert longer[|entries|] == e;
    if i :| 0 <= i < |entries| && entries[i].id == id { assert longer[i].id == id; }
  }

  /** No number is kept twice. */
  lemma {:induction false} FirstsDistinct<T>(entries: seq<Entry<T>>, allowed: set<int>)
    ensures var kept := Firsts(entries, allowed); forall i, j :: 0 <= i < j < |kept| ==> kept[i].id != kept[j].id
  {
    if entries != [] {
      var n := |entries| - 1;
      var e, front := entries[n], Firsts(entries[..n], allowed);
      FirstsDistinct(entries[..n], allowed);
      FirstsCover(entries[..n], allowed, e.id);
      assert HasId(front, e.id) <==> exists i :: 0 <= i < |front| && front[i].id == e.id;
    }
  }

  /** Keeping the firsts of a smaller set among the firsts of a larger one. */
  lemma {:induction false} FirstsCompose<T>(entries: seq<Entry<T>>, allowed: set<int>, fewer: set<int>)
    requires fewer <= allowed
    ensures Firsts(Firsts(entries, allowed), fewer) == Firsts(entries, fewer)
  {
    if entries != [] {
      var n := |entries| - 1;
      var e, front := entries[n], Firsts(entries[..n], allowed);
      FirstsCompose(entries[..n], allowed, fewer);
      FirstsCover(entries[..n], allowed, e.id);
      assert (front + [e])[..|front|] == front;
    }
  }

  // ---- The filter ----

  predicate AllNumbers<T>(pieces: seq<T>, atoi: T -> Option<int>) {
    forall i :: 0 <= i < |pieces| ==> atoi(pieces[i]).Some?
  }

  function Entries<T>(pieces: seq<T>, atoi: T -> Option<int>): (entries: seq<Entry<T>>)
    requires AllNumbers(pieces, atoi)
    ensures |entries| == |pieces|
    ensures forall i :: 0 <= i < |pieces| ==> entries[i] == Entry(pieces[i], atoi(pieces[i]).value)
  {
    if pieces == [] then []
    else
      var n := |pieces| - 1;
      Entries(pieces[..n], atoi) + [Entry(pieces[n], atoi(pieces[n]).value)]
  }

  function Texts<T>(entries: seq<Entry<T>>): (texts: seq<T>)
    ensures |texts| == |entries| && forall i :: 0 <= i < |entries| ==> texts[i] == entries[i].text
  {
    if entries == [] then []
    else Texts(entries[..|entries| - 1]) + [entries[|entries| - 1].text]
  }

  function Usable<T>(pieces: seq<T>, atoi: T -> Option<int>, allowed: set<int>): seq<T>
    requires AllNumbers(pieces, atoi)
  {
    Texts(Firsts(Entries(pieces, atoi), allowed))
  }

  /** None is an error: an entry is no number, or no entry is usable. */
  function Filtered(preferences: string, fips: bool, atoi: string -> Option<int>): Option<string> {
    if preferences == "" then Some("")
    else
      var pieces := Split(preferences, ',');
      if !AllNumbers(pieces, atoi) then None
      else
        var usable := Usable(pieces, atoi, CurvesFor(fips));
        if usable == [] then None else Some(Join(usable, ','))
  }

  method FilterProxyCurvePreferences(preferences: string, fips: bool, atoi: string -> Option<int>) returns (r: Option<string>)
    ensures r == Filtered(preferences, fips, atoi)
  {
    if preferences == "" { return Some(""); }
    var ok, usable := UsablePieces(Split(preferences, ','), fips, atoi);
    if !ok || |usable| == 0 { return None; }
    return Some(Join(usable, ','));
  }

  method UsablePieces<T>(pieces: seq<T>, fips: bool, atoi: T -> Option<int>) returns (ok: bool, usable: seq<T>)
    ensures ok <==> AllNumbers(pieces, atoi)
    ensures ok ==> usable == Usable(pieces, atoi, CurvesFor(fips))
  {
    hide CurvesFor;
    hide Firsts;
    hide Texts;
    hide HasId;
    ghost var allowed := CurvesFor(fips);
    usable := [];
    var seen: set<int> := {};
    ghost var entries: seq<Entry<T>> := [];
    NothingYet<T>(allowed);
    for i := 0 to |pieces|
      invariant |entries| == i
      invariant forall j :: 0 <= j < i ==> atoi(pieces[j]) == Some(entries[j].id) && entries[j].text == pieces[j]
      invariant usable == Texts(Firsts(entries, allowed))
      invariant forall id :: id in seen <==> id in allowed && HasId(entries, id)
    {
      var number := atoi(pieces[i]);
      if number.None? { return false, []; }
      var id := number.value;
      ghost var e := Entry(pieces[i], id);
      Append(entries, e, allowed);
      InCurves(fips, id);
      entries := entries + [e];
      if id !in PROXY_CURVES { continue; }
      if fips && id !in FIPS_CURVES { continue; }
      if id in seen { continue; }
      seen := seen + {id};
      usable := usable + [pieces[i]];
    }
    ok := true;
    assert entries == Entries(pieces, atoi);
  }

  lemma NothingYet<T>(allowed: set<int>)
    ensures Texts(Firsts<T>([], allowed)) == []
    ensures forall id :: !HasId<T>([], id)
  {
  }

  lemma InCurves(fips: bool, id: int)
    ensures id in CurvesFor(fips) <==> id in PROXY_CURVES && (fips ==> id in FIPS_CURVES)
  {
  }

  /** One more entry changes the kept texts and the known numbers like this. */
  lemma Append<T>(entries: seq<Entry<T>>, e: Entry<T>, allowed: set<int>)
    ensures Texts(Firsts(entries + [e], allowed)) ==
            Texts(Firsts(entries, allowed)) + (if e.id in allowed && !HasId(entries, e.id) then [e.text] else [])
    ensures forall id :: HasId(entries + [e], id) <==> HasId(entries, id) || e.id == id
  {
    hide Firsts;
    hide Texts;
    hide HasId;
    FirstsAppend(entries, e, allowed);
    TextsAppend(Firsts(entries, allowed), e);
    assert Texts(Firsts(entries, allowed)) + [] == Texts(Firsts(entries, allowed));
    assert Firsts(entries, allowed) + [] == Firsts(entries, allowed);
    forall id: int
      ensures HasId(entries + [e], id) <==> HasId(entries, id) || e.id == id
    {
      HasIdAppend(entries, e, id);
    }
  }

  lemma FirstsAppend<T>(entries: seq<Entry<T>>, e: Entry<T>, allowed: set<int>)
    ensures Firsts(entries + [e], allowed) ==
            Firsts(entries, allowed) + (if e.id in allowed && !HasId(entries, e.id) then [e] else [])
  {
    assert (entries + [e])[..|entries|] == entries;
  }

  lemma TextsAppend<T>(entries: seq<Entry<T>>, e: Entry<T>)
    ensures Texts(entries + [e]) == Texts(entries) + [e.text]
  {
    assert (entries + [e])[..|entries|] == entries;
  }

  // ---- What the filter guarantees ----

  lemma {:induction false} FirstsAmong<T>(entries: seq<Entry<T>>, allowed: set<int>, i: nat)
    requires i < |Firsts(entries, allowed)|
    ensures Firsts(entries, allowed)[i] in entries && Firsts(entries, allowed)[i].id in allowed
  {
    var n := |entries| - 1;
    var front := Firsts(entries[..n], allowed);
    if i < |front| {
      FirstsAmong(entries[..n], allowed, i);
      assert front[i] in entries[..n];
    }
  }

  /** Usable pieces are pieces, and read back as the entries they came from. */
  lemma UsableReadsBack<T>(pieces: seq<T>, atoi: T -> Option<int>, allowed: set<int>)
    requires AllNumbers(pieces, atoi)
    ensures var usable := Usable(pieces, atoi, allowed);
            && (forall i :: 0 <= i < |usable| ==> usable[i] in pieces)
            && AllNumbers(usable, atoi) && Entries(usable, atoi) == Firsts(Entries(pieces, atoi), allowed)
  {
    var kept := Firsts(Entries(pieces, atoi), allowed);
    var usable := Texts(kept);
    forall i | 0 <= i < |kept|
      ensures usable[i] in pieces && atoi(usable[i]) == Some(kept[i].id)
    {
      FirstsAmong(Entries(pieces, atoi), allowed, i);
    }
  }

  /** The usable pieces again, with a smaller set. */
  lemma UsableOfUsable<T>(pieces: seq<T>, atoi: T -> Option<int>, allowed: set<int>, fewer: set<int>)
    requires AllNumbers(pieces, atoi) && fewer <= allowed
    ensures AllNumbers(Usable(pieces, atoi, allowed), atoi)
    ensures Usable(Usable(pieces, atoi, allowed), atoi, fewer) == Usable(pieces, atoi, fewer)
  {
    UsableReadsBack(pieces, atoi, allowed);
    FirstsCompose(Entries(pieces, atoi), allowed, fewer);
  }

  lemma UsablePiecesSplit(pieces: seq<string>, usable: seq<string>)
    requires usable != [] && forall i :: 0 <= i < |usable| ==> usable[i] in pieces
    requires forall i :: 0 <= i < |pieces| ==> ',' !in pieces[i]
    ensures Split(Join(usable, ','), ',') == usable
  {
    SplitJoin(usable, ',');
  }

  lemma NumbersAreNotEmpty(pieces: seq<string>, atoi: string -> Option<int>)
    requires pieces != [] && AllNumbers(pieces, atoi) && atoi("").None?
    ensures Join(pieces, ',') != ""
  {
    assert atoi(pieces[0]).Some?;
  }

  lemma Refilter(preferences: string, fips: bool, more: bool, atoi: string -> Option<int>)
    requires preferences != "" && AllNumbers(Split(preferences, ','), atoi) && atoi("").None? && (fips ==> more)
    ensures var once := Filtered(preferences, fips, atoi);
            && (once.Some? ==> Filtered(once.value, more, atoi) == Filtered(preferences, more, atoi))
            && (once.None? ==> Filtered(preferences, more, atoi).None?)
  {
    hide Usable;
    hide Split;
    hide Join;
    var pieces := Split(preferences, ',');
    var allowed, fewer := CurvesFor(fips), CurvesFor(more);
    UsableOfUsable(pieces, atoi, allowed, fewer);
    UsableReadsBack(pieces, atoi, allowed);
    var usable := Usable(pieces, atoi, allowed);
    if |usable| > 0 {
      SplitPiecesPlain(preferences, ',');
      UsablePiecesSplit(pieces, usable);
      NumbersAreNotEmpty(usable, atoi);
    } else {
      NothingUsable(usable, atoi, fewer);
    }
  }

  lemma NothingUsable<T>(pieces: seq<T>, atoi: T -> Option<int>, allowed: set<int>)
    requires |pieces| == 0 && AllNumbers(pieces, atoi)
    ensures |Usable(pieces, atoi, allowed)| == 0
  {
  }

  /** Filtering twice is filtering once, and filtering in FIPS mode is the FIPS filter of
      what the plain filter leaves, errors included. */
  lemma FiltersCompose(preferences: string, fips: bool, atoi: string -> Option<int>)
    requires atoi("").None?
    ensures var once := Filtered(preferences, fips, atoi);
            && (once.Some? ==> Filtered(once.value, fips, atoi) == once)
            && (once.Some? ==> Filtered(once.value, true, atoi) == Filtered(preferences, true, atoi))
            && (once.None? ==> Filtered(preferences, true, atoi).None?)
  {
    hide Usable;
    hide Split;
    hide Join;
    if preferences != "" && AllNumbers(Split(preferences, ','), atoi) {
      Refilter(preferences, fips, fips, atoi);
      Refilter(preferences, fips, true, atoi);
    }
  }

  /** Which curves are kept, by number: a listed one exactly when proxies know it and, in
      FIPS mode, it is approved; each once, and every kept entry is one that was listed. */
  lemma KeptCurves<T>(pieces: seq<T>, atoi: T -> Option<int>, fips: bool, id: int)
    requires AllNumbers(pieces, atoi)
    ensures var kept := Usable(pieces, atoi, CurvesFor(fips));
            && (forall i :: 0 <= i < |kept| ==> kept[i] in pieces)
            && ((exists i :: 0 <= i < |kept| && atoi(kept[i]) == Some(id)) <==>
                && id in (if fips then {23, 24, 25} else {23, 24, 25, 29, 4588})
                && exists i :: 0 <= i < |pieces| && atoi(pieces[i]) == Some(id))
            && (forall i, j :: 0 <= i < j < |kept| ==> atoi(kept[i]) != atoi(kept[j]))
  {
    hide Firsts;
    var entries := Entries(pieces, atoi);
    var kept := Usable(pieces, atoi, CurvesFor(fips));
    UsableReadsBack(pieces, atoi, CurvesFor(fips));
    FirstsCover(entries, CurvesFor(fips), id);
    FirstsDistinct(entries, CurvesFor(fips));
    assert HasId(entries, id) <==> exists i :: 0 <= i < |pieces| && atoi(pieces[i]) == Some(id);
    assert HasId(Entries(kept, atoi), id) <==> exists i :: 0 <= i < |kept| && atoi(kept[i]) == Some(id);
  }
}
