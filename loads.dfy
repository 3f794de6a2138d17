/** The load search: filtering the load catalog by the request's optional
    filters, ranking the matches and keeping the first three. */
module Loads {
  import opened Wrappers
  import opened Text
  import opened Json
  import opened Ordering
  import opened Ranking

  /** One catalog row. The fields the search reads are named; the other
      columns (load id, rate, weight, notes, ...) travel along unchanged. */
  datatype Load = Load(
    origin: Option<string>,
    destination: Option<string>,
    pickupDatetime: Option<string>,
    equipmentType: Option<string>,
    rest: seq<(string, Json)>)

  /** The query parameters of the search, each optional. */
  datatype LoadQuery = LoadQuery(
    originCity: Option<string>,
    originState: Option<string>,
    destinationCity: Option<string>,
    destinationState: Option<string>,
    pickupDate: Option<string>,
    equipmentType: Option<string>)

  /** `str(r.get("equipment_type"))`: a missing value prints as "None". */
  function EquipmentText(x: Load): string {
    x.equipmentType.UnwrapOr("None")
  }

  /** `_norm(str(r.get("equipment_type")))`, with the normal form of "None"
      written out (EquipmentNormalised proves the two agree). */
  function NormEquipment(x: Load): string {
    match x.equipmentType
    case Some(e) => Norm(Some(e))
    case None => "none"
  }

  /** A missing equipment type normalises to "none", so the filter "none" (in
      any case) selects rows without one. */
  lemma EquipmentNormalised(x: Load)
    ensures NormEquipment(x) == Norm(Some(EquipmentText(x)))
    ensures x.equipmentType.None? ==> NormEquipment(x) == "none"
  {
    if x.equipmentType.None? {
      StripKeepsTrimmed("None");
      assert Lower("None") == "none";
    }
  }

  /** A normalised city or state filter against a normalised place: an empty
      filter lets everything through, otherwise it must occur in the place. */
  predicate PlaceFilter(filter: string, place: string) {
    filter == "" || Contains(place, filter)
  }

  /** The row passes every filter of the query. */
  predicate Matches(x: Load, q: LoadQuery) {
    var ro := Norm(x.origin);
    var rd := Norm(x.destination);
    var et := Norm(q.equipmentType);
    var pd := q.pickupDate.UnwrapOr("");
    && PlaceFilter(Norm(q.originCity), ro)
    && PlaceFilter(Norm(q.originState), ro)
    && PlaceFilter(Norm(q.destinationCity), rd)
    && PlaceFilter(Norm(q.destinationState), rd)
    && (et == "" || et == NormEquipment(x))
    && (pd == "" || Contains(x.pickupDatetime.UnwrapOr(""), pd))
  }

  /** The rows that pass the filters, in catalog order. */
  function Matching(loads: seq<Load>, q: LoadQuery): seq<Load> {
    if loads == [] then []
    else
      var init := loads[..|loads| - 1];
      var last := loads[|loads| - 1];
      Matching(init, q) + (if Matches(last, q) then [last] else [])
  }

  /** Filtering one more row appends it exactly when it passes. */
  lemma MatchingSnoc(s: seq<Load>, x: Load, q: LoadQuery)
    ensures Matching(s + [x], q) == Matching(s, q) + (if Matches(x, q) then [x] else [])
  {
    assert (s + [x])[..|s + [x]| - 1] == s;
  }

  /** Every kept row comes from the catalog and passes the filters, and no row
      is kept more often than it occurs. */
  lemma {:induction false} MatchingSound(loads: seq<Load>, q: LoadQuery)
    ensures |Matching(loads, q)| <= |loads|
    ensures forall x | x in Matching(loads, q) :: x in loads && Matches(x, q)
    ensures multiset(Matching(loads, q)) <= multiset(loads)
  {
    if loads != [] {
      var init := loads[..|loads| - 1];
      var last := loads[|loads| - 1];
      assert loads == init + [last];
      MatchingSound(init, q);
      MatchingSnoc(init, last, q);
    }
  }

  /** A single row matches itself or nothing. */
  lemma MatchingSingleton(x: Load, q: LoadQuery)
    ensures Matching([x], q) == if Matches(x, q) then [x] else []
  {
    MatchingSnoc([], x, q);
    assert [] + [x] == [x];
  }

  /** Filtering a concatenation filters each part and keeps them in order:
      together with MatchingSingleton, Matching is the order-preserving filter
      of the catalog, keeping every passing row as often as it occurs. */
  lemma {:induction false} MatchingAppend(a: seq<Load>, b: seq<Load>, q: LoadQuery)
    ensures Matching(a + b, q) == Matching(a, q) + Matching(b, q)
  {
    if b == [] {
      assert a + b == a;
    } else {
      var init := b[..|b| - 1];
      var last := b[|b| - 1];
      MatchingAppend(a, init, q);
      assert b == init + [last];
      assert a + b == (a + init) + [last];
      MatchingSnoc(a + init, last, q);
      MatchingSnoc(init, last, q);
    }
  }

  /** No row that passes the filters is left out. */
  lemma {:induction false} MatchingComplete(loads: seq<Load>, q: LoadQuery, x: Load)
    requires x in loads && Matches(x, q)
    ensures x in Matching(loads, q)
  {
    var init := loads[..|loads| - 1];
    var last := loads[|loads| - 1];
    assert loads == init + [last];
    MatchingSnoc(init, last, q);
    if x != last {
      MatchingComplete(init, q, x);
    }
  }

  /** The query sets no filter: every normalised text filter and the raw
      pickup date are empty. */
  predicate NoFilters(q: LoadQuery) {
    && Norm(q.originCity) == "" && Norm(q.originState) == ""
    && Norm(q.destinationCity) == "" && Norm(q.destinationState) == ""
    && Norm(q.equipmentType) == "" && q.pickupDate.UnwrapOr("") == ""
  }

  /** Without filters every row matches. */
  lemma NoFiltersMatch(x: Load, q: LoadQuery)
    requires NoFilters(q)
    ensures Matches(x, q)
  {
  }

  /** Without filters the whole catalog matches, in order. */
  lemma {:induction false} NoFiltersMatchAll(loads: seq<Load>, q: LoadQuery)
    requires NoFilters(q)
    ensures Matching(loads, q) == loads
  {
    if loads != [] {
      var init := loads[..|loads| - 1];
      var last := loads[|loads| - 1];
      assert loads == init + [last];
      NoFiltersMatchAll(init, q);
      NoFiltersMatch(last, q);
      MatchingSnoc(init, last, q);
    }
  }

  /** Two queries whose filters normalise alike (city, state and equipment
      filters differing only in case or surrounding whitespace) and that give
      the same pickup date select the same rows. */
  lemma {:induction false} MatchingCaseInsensitive(loads: seq<Load>, q1: LoadQuery, q2: LoadQuery)
    requires Norm(q1.originCity) == Norm(q2.originCity)
    requires Norm(q1.originState) == Norm(q2.originState)
    requires Norm(q1.destinationCity) == Norm(q2.destinationCity)
    requires Norm(q1.destinationState) == Norm(q2.destinationState)
    requires Norm(q1.equipmentType) == Norm(q2.equipmentType)
    requires q1.pickupDate.UnwrapOr("") == q2.pickupDate.UnwrapOr("")
    ensures Matching(loads, q1) == Matching(loads, q2)
  {
    if loads != [] {
      var init := loads[..|loads| - 1];
      MatchingCaseInsensitive(init, q1, q2);
    }
  }

  // ---------------------------------------------------------------------
  // Ranking

  /** The ranking key `(_norm(str(equipment_type)) != et, str(pickup_datetime or ""))`. */
  function Key(x: Load, et: string): RankKey {
    RankKey(NormEquipment(x) != et, x.pickupDatetime.UnwrapOr(""))
  }

  /** The key function the search sorts by once `et` is known. */
  function KeyOf(et: string): Load -> RankKey {
    x => Key(x, et)
  }

  // ---------------------------------------------------------------------
  // The search

  /** The filtering loop of `_filter_loads`: walks the catalog once, testing
      each row against the normalised filters, and keeps the ones that pass in
      catalog order. */
  method CollectMatching(loads: seq<Load>, q: LoadQuery) returns (out: seq<Load>)
    ensures out == Matching(loads, q)
  {
    var oc := Norm(q.originCity);
    var os := Norm(q.originState);
    var dc := Norm(q.destinationCity);
    var ds := Norm(q.destinationState);
    var et := Norm(q.equipmentType);
    out := [];
    var i := 0;
    while i < |loads|
      invariant 0 <= i <= |loads|
      invariant out == Matching(loads[..i], q)
    {
      var x := loads[i];
      var ro := Norm(x.origin);
      var rd := Norm(x.destination);
      var matched := true;
      if oc != "" && !Contains(ro, oc) { matched := false; }
      if os != "" && !Contains(ro, os) { matched := false; }
      if dc != "" && !Contains(rd, dc) { matched := false; }
      if ds != "" && !Contains(rd, ds) { matched := false; }
      if et != "" && et != Norm(Some(EquipmentText(x))) { matched := false; }
      if q.pickupDate.Some? && q.pickupDate.value != "" && !Contains(x.pickupDatetime.UnwrapOr(""), q.pickupDate.value) {
        matched := false;
      }
      EquipmentNormalised(x);
      assert matched == Matches(x, q);
      assert loads[..i + 1] == loads[..i] + [x];
      MatchingSnoc(loads[..i], x, q);
      if matched {
        out := out + [x];
      }
      i := i + 1;
    }
    assert loads[..i] == loads;
  }

  /** `_filter_loads(...)` over the catalog `loads`: keeps the rows that pass
      every filter, ranks them by (equipment mismatch, pickup time) with a
      stable sort, and returns the first three. */
  method FilterLoads(loads: seq<Load>, q: LoadQuery) returns (r: seq<Load>)
    ensures var key := KeyOf(Norm(q.equipmentType));
      r == Top(Matching(loads, q), 3, key)
    ensures |r| == Min(3, |Matching(loads, q)|)
    ensures NoFilters(q) ==> |r| == Min(3, |loads|)
    ensures forall x | x in r :: x in loads && Matches(x, q)
    ensures SortedByKey(r, KeyOf(Norm(q.equipmentType)))
    ensures var key := KeyOf(Norm(q.equipmentType));
      forall x, y | x in Matching(loads, q) && x !in r && y in r :: KeyLe(key(y), key(x))
    ensures var key := KeyOf(Norm(q.equipmentType));
      forall k :: WithKey(r, k, key) <= WithKey(Matching(loads, q), k, key)
  {
    var out := CollectMatching(loads, q);
    var key := KeyOf(Norm(q.equipmentType));
    var sorted := SortByKey(out, key);
    r := sorted[..Min(3, |sorted|)];
    TopSpec(out, 3, key);
    MatchingSound(loads, q);
    if NoFilters(q) {
      NoFiltersMatchAll(loads, q);
    }
  }
}
