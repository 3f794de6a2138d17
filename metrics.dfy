/** The `/metrics` aggregation over the offer log and the call-summary log,
    each given as the sequence of its already-parsed rows. */
module Metrics {
  import opened Wrappers
  import opened Text

  /** One offer-log row; `call_id` is the only column the aggregation reads. */
  datatype OfferRow = OfferRow(callId: Option<string>)

  /** One call-summary row, reduced to the columns the aggregation reads. */
  datatype SummaryRow = SummaryRow(
    callId: Option<string>,
    outcome: Option<string>,
    sentiment: Option<string>)

  datatype Totals = Totals(
    calls: nat,
    offersLogged: nat,
    avgRounds: real,
    accepted: nat,
    rejected: nat,
    notEligible: nat)

  datatype Snapshot = Snapshot(
    totals: Totals,
    outcomes: map<string, nat>,
    sentiments: map<string, nat>)

  // ---------------------------------------------------------------------
  // Counter

  /** `counter.get(v, 0)`. */
  function Count(m: map<string, nat>, v: string): nat {
    if v in m then m[v] else 0
  }

  /** `Counter(labels)`: how often each label occurs. */
  function Tally(labels: seq<string>): map<string, nat> {
    if labels == [] then map[]
    else
      var m := Tally(labels[..|labels| - 1]);
      var v := labels[|labels| - 1];
      m[v := Count(m, v) + 1]
  }

  /** Each label's tally is its number of occurrences, and exactly the labels
      that occur have an entry. */
  lemma {:induction false} TallyCounts(labels: seq<string>, v: string)
    ensures Count(Tally(labels), v) == multiset(labels)[v]
    ensures v in Tally(labels) <==> v in labels
  {
    if labels != [] {
      var init := labels[..|labels| - 1];
      assert labels == init + [labels[|labels| - 1]];
      TallyCounts(init, v);
    }
  }

  /** The sum of a map's values. */
  ghost function MapSum(m: map<string, nat>): nat
    decreases |m|
  {
    if m == map[] then 0
    else
      var k :| k in m;
      m[k] + MapSum(m - {k})
  }

  /** MapSum may take any key out first. */
  lemma MapSumRemove(m: map<string, nat>, k: string)
    requires k in m
    ensures MapSum(m) == m[k] + MapSum(m - {k})
    decreases |m|
  {
    var k0 :| k0 in m && MapSum(m) == m[k0] + MapSum(m - {k0});
    if k0 != k {
      MapSumRemove(m - {k0}, k);
      MapSumRemove(m - {k}, k0);
      assert m - {k0} - {k} == m - {k} - {k0};
    }
  }

  /** Bumping one entry (present or new) by one adds one to the sum. */
  lemma MapSumBump(m: map<string, nat>, v: string)
    ensures MapSum(m[v := Count(m, v) + 1]) == MapSum(m) + 1
  {
    var m' := m[v := Count(m, v) + 1];
    MapSumRemove(m', v);
    assert m' - {v} == m - {v};
    if v in m {
      MapSumRemove(m, v);
    } else {
      assert m - {v} == m;
    }
  }

  /** The tallies add up to the number of labels. */
  lemma {:induction false} TallyTotal(labels: seq<string>)
    ensures MapSum(Tally(labels)) == |labels|
  {
    if labels != [] {
      var init := labels[..|labels| - 1];
      TallyTotal(init);
      MapSumBump(Tally(init), labels[|labels| - 1]);
    }
  }

  /** `value or default` for an optional string: missing and "" are falsy. */
  function OrDefault(v: Option<string>, default: string): (r: string)
    ensures r == default || (v.Some? && r == v.value)
    ensures r == default <==> v.None? || v.value in {"", default}
  {
    if Filled(v) then v.value else default
  }

  /** The `outcome or "Other"` label of each summary, in log order. */
  function OutcomeLabels(summaries: seq<SummaryRow>): (r: seq<string>)
    ensures |r| == |summaries|
  {
    seq(|summaries|, i requires 0 <= i < |summaries| => OrDefault(summaries[i].outcome, "Other"))
  }

  /** The `sentiment or "Neutral"` label of each summary, in log order. */
  function SentimentLabels(summaries: seq<SummaryRow>): (r: seq<string>)
    ensures |r| == |summaries|
  {
    seq(|summaries|, i requires 0 <= i < |summaries| => OrDefault(summaries[i].sentiment, "Neutral"))
  }

  /** Every summary lands in exactly one outcome tally and one sentiment
      tally. */
  lemma TalliesCoverSummaries(summaries: seq<SummaryRow>)
    ensures MapSum(Tally(OutcomeLabels(summaries))) == |summaries|
    ensures MapSum(Tally(SentimentLabels(summaries))) == |summaries|
  {
    TallyTotal(OutcomeLabels(summaries));
    TallyTotal(SentimentLabels(summaries));
  }

  /** A summary without an outcome (or with an empty one) is tallied as
      "Other", and one without a sentiment as "Neutral". */
  lemma MissingLabelsDefault(summaries: seq<SummaryRow>, i: nat)
    requires i < |summaries|
    ensures summaries[i].outcome.UnwrapOr("") == "" ==>
      OutcomeLabels(summaries)[i] == "Other" && Count(Tally(OutcomeLabels(summaries)), "Other") > 0
    ensures summaries[i].sentiment.UnwrapOr("") == "" ==>
      SentimentLabels(summaries)[i] == "Neutral" && Count(Tally(SentimentLabels(summaries)), "Neutral") > 0
  {
    TallyCounts(OutcomeLabels(summaries), "Other");
    TallyCounts(SentimentLabels(summaries), "Neutral");
    assert OutcomeLabels(summaries)[i] in OutcomeLabels(summaries);
    assert SentimentLabels(summaries)[i] in SentimentLabels(summaries);
  }

  // ---------------------------------------------------------------------
  // Distinct calls among the summaries

  /** `{s.get("call_id") for s in summaries}`: a missing call id counts as
      one more value, None. */
  function CallIdsSeen(summaries: seq<SummaryRow>): set<Option<string>> {
    if summaries == [] then {}
    else CallIdsSeen(summaries[..|summaries| - 1]) + {summaries[|summaries| - 1].callId}
  }

  lemma {:induction false} CallIdsSeenMembers(summaries: seq<SummaryRow>, id: Option<string>)
    ensures id in CallIdsSeen(summaries) <==> exists i | 0 <= i < |summaries| :: summaries[i].callId == id
  {
    if summaries != [] {
      var init := summaries[..|summaries| - 1];
      CallIdsSeenMembers(init, id);
      if id in CallIdsSeen(init) {
        var i :| 0 <= i < |init| && init[i].callId == id;
        assert summaries[i] == init[i];
      }
      if exists i | 0 <= i < |summaries| :: summaries[i].callId == id {
        var i :| 0 <= i < |summaries| && summaries[i].callId == id;
        if i < |init| {
          assert init[i] == summaries[i];
        }
      }
    }
  }

  /** There are never more distinct calls than summaries. */
  lemma {:induction false} CallIdsSeenBound(summaries: seq<SummaryRow>)
    ensures |CallIdsSeen(summaries)| <= |summaries|
  {
    if summaries != [] {
      var init := summaries[..|summaries| - 1];
      CallIdsSeenBound(init);
      var last := summaries[|summaries| - 1].callId;
      if last in CallIdsSeen(init) {
        assert CallIdsSeen(init) + {last} == CallIdsSeen(init);
      }
    }
  }

  // ---------------------------------------------------------------------
  // Rounds per call

  /** The call an offer row is grouped under: rows whose call id is missing
      or empty (falsy) are skipped. */
  function CallKey(o: OfferRow): Option<string> {
    if Filled(o.callId) then o.callId else None
  }

  /** The offer rows of call id, in log order. */
  function Group(offers: seq<OfferRow>, id: string): seq<OfferRow> {
    if offers == [] then []
    else
      var x := offers[|offers| - 1];
      Group(offers[..|offers| - 1], id) + (if CallKey(x) == Some(id) then [x] else [])
  }

  /** The call ids in the order they first appear (the key order of the
      `by_call` dict). */
  function CallOrder(offers: seq<OfferRow>): seq<string> {
    if offers == [] then []
    else
      var init := offers[..|offers| - 1];
      var k := CallKey(offers[|offers| - 1]);
      CallOrder(init) + (if k.Some? && k.value !in CallOrder(init) then [k.value] else [])
  }

  /** The `by_call` dict: each call id mapped to its offer rows. */
  function Groups(offers: seq<OfferRow>): map<string, seq<OfferRow>> {
    map id | id in CallOrder(offers) :: Group(offers, id)
  }

  /** The number of offer rows that belong to some call. */
  function KeyedCount(offers: seq<OfferRow>): nat {
    if offers == [] then 0
    else KeyedCount(offers[..|offers| - 1]) + (if CallKey(offers[|offers| - 1]).Some? then 1 else 0)
  }

  predicate Distinct(s: seq<string>) {
    forall i, j | 0 <= i < j < |s| :: s[i] != s[j]
  }

  ghost predicate HasCall(offers: seq<OfferRow>, id: string) {
    exists i | 0 <= i < |offers| :: CallKey(offers[i]) == Some(id)
  }

  /** A call id is listed exactly when some offer row carries it. */
  lemma {:induction false} CallOrderMembers(offers: seq<OfferRow>, id: string)
    ensures id in CallOrder(offers) <==> HasCall(offers, id)
  {
    if offers != [] {
      var init := offers[..|offers| - 1];
      var x := offers[|offers| - 1];
      CallOrderMembers(init, id);
      assert id in CallOrder(offers) <==> id in CallOrder(init) || CallKey(x) == Some(id);
      if HasCall(init, id) {
        var i :| 0 <= i < |init| && CallKey(init[i]) == Some(id);
        assert offers[i] == init[i];
      }
      if HasCall(offers, id) {
        var i :| 0 <= i < |offers| && CallKey(offers[i]) == Some(id);
        if i < |init| {
          assert init[i] == offers[i];
        }
      }
    }
  }

  /** The call order lists each call id once, and a call id that is not
      listed has no rows. */
  lemma {:induction false} CallOrderSpec(offers: seq<OfferRow>)
    ensures Distinct(CallOrder(offers))
    ensures forall id | id !in CallOrder(offers) :: Group(offers, id) == []
  {
    if offers != [] {
      CallOrderSpec(offers[..|offers| - 1]);
    }
  }

  /** The round counts of the listed calls, `[len(v) for v in by_call.values()]`. */
  function Rounds(order: seq<string>, offers: seq<OfferRow>): (r: seq<nat>)
    ensures |r| == |order|
  {
    if order == [] then []
    else Rounds(order[..|order| - 1], offers) + [|Group(offers, order[|order| - 1])|]
  }

  /** `sum(...)`. */
  function Sum(s: seq<nat>): nat {
    if s == [] then 0 else Sum(s[..|s| - 1]) + s[|s| - 1]
  }

  /** A row outside the listed calls changes none of their round counts. */
  lemma {:induction false} RoundsUnchanged(order: seq<string>, init: seq<OfferRow>, x: OfferRow)
    requires CallKey(x).None? || CallKey(x).value !in order
    ensures Rounds(order, init + [x]) == Rounds(order, init)
  {
    if order != [] {
      var offers := init + [x];
      assert offers[..|offers| - 1] == init;
      RoundsUnchanged(order[..|order| - 1], init, x);
    }
  }

  /** A row of one of the listed calls adds exactly one round in total. */
  lemma {:induction false} RoundsBump(order: seq<string>, init: seq<OfferRow>, x: OfferRow)
    requires Distinct(order)
    requires CallKey(x).Some? && CallKey(x).value in order
    ensures Sum(Rounds(order, init + [x])) == Sum(Rounds(order, init)) + 1
  {
    var offers := init + [x];
    assert offers[..|offers| - 1] == init;
    var front := order[..|order| - 1];
    var id := order[|order| - 1];
    assert order == front + [id];
    if CallKey(x) == Some(id) {
      RoundsUnchanged(front, init, x);
    } else {
      RoundsBump(front, init, x);
    }
  }

  /** The round counts add up to the number of offer rows with a call id. */
  lemma {:induction false} RoundsTotal(offers: seq<OfferRow>)
    ensures Sum(Rounds(CallOrder(offers), offers)) == KeyedCount(offers)
  {
    if offers != [] {
      var init := offers[..|offers| - 1];
      var x := offers[|offers| - 1];
      assert offers == init + [x];
      var o := CallOrder(init);
      RoundsTotal(init);
      CallOrderSpec(init);
      var k := CallKey(x);
      if k.None? {
        assert CallOrder(offers) == o;
        assert KeyedCount(offers) == KeyedCount(init);
        RoundsUnchanged(o, init, x);
      } else if k.value !in o {
        var id := k.value;
        assert CallOrder(offers) == o + [id];
        assert KeyedCount(offers) == KeyedCount(init) + 1;
        RoundsUnchanged(o, init, x);
        assert (o + [id])[..|o|] == o;
        assert Rounds(o + [id], offers) == Rounds(o, offers) + [|Group(offers, id)|];
        assert Group(offers, id) == [x];
      } else {
        assert CallOrder(offers) == o;
        assert KeyedCount(offers) == KeyedCount(init) + 1;
        RoundsBump(o, init, x);
      }
    }
  }

  /** One step of the `setdefault(cid, []).append(o)` loop. */
  lemma GroupsStep(init: seq<OfferRow>, x: OfferRow)
    ensures CallKey(x).None? ==>
      Groups(init + [x]) == Groups(init) && CallOrder(init + [x]) == CallOrder(init)
    ensures CallKey(x).Some? ==>
      var id := CallKey(x).value;
      var g := Groups(init);
      && Groups(init + [x]) == g[id := (if id in g then g[id] else []) + [x]]
      && CallOrder(init + [x]) == CallOrder(init) + (if id in g then [] else [id])
  {
    var offers := init + [x];
    assert offers[..|offers| - 1] == init;
    CallOrderSpec(init);
    var g := Groups(init);
    assert forall id :: Group(offers, id) == Group(init, id) + (if CallKey(x) == Some(id) then [x] else []);
    if CallKey(x).Some? {
      var id := CallKey(x).value;
      var g' := g[id := (if id in g then g[id] else []) + [x]];
      assert Groups(offers).Keys == g'.Keys;
      forall k | k in g'
        ensures Groups(offers)[k] == g'[k]
      {
      }
    } else {
      assert Groups(offers).Keys == g.Keys;
      forall k | k in g
        ensures Groups(offers)[k] == g[k]
      {
      }
    }
  }

  // ---------------------------------------------------------------------
  // The aggregation

  /** `avg_rounds`: the mean number of offer rows per call, 0 without calls. */
  function AverageRounds(offers: seq<OfferRow>): real {
    var calls := |CallOrder(offers)|;
    if calls == 0 then 0.0 else KeyedCount(offers) as real / calls as real
  }

  /** One `by_call.setdefault(cid, []).append(o)` step, skipped when the row's
      call id is missing or empty; a new id joins the end of the key order. */
  method AppendToCall(byCall: map<string, seq<OfferRow>>, order: seq<string>, o: OfferRow)
    returns (byCall': map<string, seq<OfferRow>>, order': seq<string>)
    ensures CallKey(o).None? ==> byCall' == byCall && order' == order
    ensures CallKey(o).Some? ==>
      var id := CallKey(o).value;
      && byCall' == byCall[id := (if id in byCall then byCall[id] else []) + [o]]
      && order' == order + (if id in byCall then [] else [id])
  {
    byCall', order' := byCall, order;
    var cid := o.callId;
    if cid.Some? && cid.value != "" {
      var id := cid.value;
      if id !in byCall' {
        byCall' := byCall'[id := []];
        order' := order' + [id];
      }
      byCall' := byCall'[id := byCall'[id] + [o]];
    }
  }

  /** The `by_call` loop: groups the offer rows under their call id, keeping
      the ids in first-seen order. */
  method GroupByCall(offers: seq<OfferRow>) returns (byCall: map<string, seq<OfferRow>>, order: seq<string>)
    ensures byCall == Groups(offers)
    ensures order == CallOrder(offers)
  {
    byCall := map[];
    order := [];
    var i := 0;
    while i < |offers|
      invariant 0 <= i <= |offers|
      invariant byCall == Groups(offers[..i])
      invariant order == CallOrder(offers[..i])
    {
      var o := offers[i];
      assert offers[..i + 1] == offers[..i] + [o];
      GroupsStep(offers[..i], o);
      byCall, order := AppendToCall(byCall, order, o);
      i := i + 1;
    }
    assert offers[..i] == offers;
  }

  /** `[len(v) for v in by_call.values()]`, over the keys in dict order. */
  method RoundCounts(offers: seq<OfferRow>, byCall: map<string, seq<OfferRow>>, order: seq<string>)
    returns (rounds: seq<nat>)
    requires byCall == Groups(offers) && order == CallOrder(offers)
    ensures rounds == Rounds(order, offers)
    ensures |rounds| == |CallOrder(offers)|
    ensures Sum(rounds) == KeyedCount(offers)
  {
    rounds := [];
    var j := 0;
    while j < |order|
      invariant 0 <= j <= |order|
      invariant rounds == Rounds(order[..j], offers)
    {
      assert order[..j + 1][..j] == order[..j];
      rounds := rounds + [|byCall[order[j]]|];
      j := j + 1;
    }
    assert order[..j] == order;
    RoundsTotal(offers);
  }

  /** `metrics()` on the parsed log rows. */
  method Metrics(offers: seq<OfferRow>, summaries: seq<SummaryRow>) returns (snap: Snapshot)
    ensures snap.totals.offersLogged == |offers|
    ensures snap.totals.calls == |CallIdsSeen(summaries)|
    ensures snap.totals.avgRounds == AverageRounds(offers)
    ensures snap.outcomes == Tally(OutcomeLabels(summaries))
    ensures snap.sentiments == Tally(SentimentLabels(summaries))
    ensures snap.totals.accepted == multiset(OutcomeLabels(summaries))["Accepted"]
    ensures snap.totals.rejected == multiset(OutcomeLabels(summaries))["Rejected"]
    ensures snap.totals.notEligible == multiset(OutcomeLabels(summaries))["Not Eligible"]
  {
    var byCall, order := GroupByCall(offers);
    var rounds := RoundCounts(offers, byCall, order);
    var outcomes := Tally(OutcomeLabels(summaries));
    var sentiments := Tally(SentimentLabels(summaries));
    var avg := if |rounds| > 0 then Sum(rounds) as real / |rounds| as real else 0.0;
    TallyCounts(OutcomeLabels(summaries), "Accepted");
    TallyCounts(OutcomeLabels(summaries), "Rejected");
    TallyCounts(OutcomeLabels(summaries), "Not Eligible");
    var totals := Totals(
      |CallIdsSeen(summaries)|,
      |offers|,
      avg,
      Count(outcomes, "Accepted"),
      Count(outcomes, "Rejected"),
      Count(outcomes, "Not Eligible"));
    snap := Snapshot(totals, outcomes, sentiments);
  }
}
