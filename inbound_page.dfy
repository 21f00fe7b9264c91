/**
 * The inbound list page: the traffic totals over all inbounds, the baseline
 * a reset records and the totals shown above it, the search filter, and the
 * switch to the virtual table. Byte formatting, polling and the reality
 * domain checker are outside the model; the browser's stored baseline is a
 * constructor parameter and a field.
 */
module InboundPage {
  import opened Wrappers
  import opened Text
  import opened Inbound

  const VirtualScrollThreshold: nat := 50

  datatype Totals = Totals(upload: int, download: int)

  /** `currentTotals`: upload and download summed over the list, a missing counter as 0. */
  function CurrentTotals(inbounds: seq<Inbound>): (t: Totals)
    ensures inbounds == [] ==> t == Totals(0, 0)
    ensures (forall i :: 0 <= i < |inbounds| ==> CounterOrZero(inbounds[i].up) >= 0) ==> t.upload >= 0
    ensures (forall i :: 0 <= i < |inbounds| ==> CounterOrZero(inbounds[i].down) >= 0) ==> t.download >= 0
    decreases |inbounds|
  {
    if inbounds == [] then Totals(0, 0)
    else
      var acc := CurrentTotals(inbounds[..|inbounds| - 1]);
      var last := inbounds[|inbounds| - 1];
      Totals(acc.upload + CounterOrZero(last.up), acc.download + CounterOrZero(last.down))
  }

  /** The totals of a list are the totals of its parts added together. */
  lemma {:induction false} CurrentTotalsAppend(a: seq<Inbound>, b: seq<Inbound>)
    ensures CurrentTotals(a + b).upload == CurrentTotals(a).upload + CurrentTotals(b).upload
    ensures CurrentTotals(a + b).download == CurrentTotals(a).download + CurrentTotals(b).download
    decreases |b|
  {
    if b == [] {
      assert a + b == a;
    } else {
      var b' := b[..|b| - 1];
      assert (a + b)[..|a + b| - 1] == a + b';
      CurrentTotalsAppend(a, b');
    }
  }

  /** `Math.max(0, x)`. */
  function NonNegative(x: int): (r: int)
    ensures r >= 0 && r >= x
    ensures x >= 0 ==> r == x
  {
    if x > 0 then x else 0
  }

  /** The totals shown: what has accumulated since the baseline, never below 0. */
  function Displayed(current: Totals, baseline: Totals): (shown: Totals)
    ensures shown.upload >= 0 && shown.download >= 0
    ensures current.upload >= baseline.upload ==> shown.upload == current.upload - baseline.upload
    ensures current.download >= baseline.download ==> shown.download == current.download - baseline.download
    ensures current.upload <= baseline.upload ==> shown.upload == 0
    ensures current.download <= baseline.download ==> shown.download == 0
  {
    Totals(NonNegative(current.upload - baseline.upload), NonNegative(current.download - baseline.download))
  }

  /** Traffic that arrives after a reset is what the page shows. */
  lemma TrafficSinceReset(before: seq<Inbound>, newer: seq<Inbound>)
    requires forall i :: 0 <= i < |newer| ==> CounterOrZero(newer[i].up) >= 0 && CounterOrZero(newer[i].down) >= 0
    ensures Displayed(CurrentTotals(before + newer), CurrentTotals(before)) == CurrentTotals(newer)
  {
    CurrentTotalsAppend(before, newer);
  }

  /** The page's traffic baseline and the copy kept in the browser's storage. */
  class TrafficBaseline {
    var baseline: Totals
    var stored: Option<Totals>

    /** The stored baseline when there is one, else zero. */
    constructor(saved: Option<Totals>)
      ensures baseline == saved.GetOr(Totals(0, 0)) && stored == saved
    {
      baseline := saved.GetOr(Totals(0, 0));
      stored := saved;
    }

    function Shown(inbounds: seq<Inbound>): (shown: Totals)
      reads this
      ensures shown.upload >= 0 && shown.download >= 0
    {
      Displayed(CurrentTotals(inbounds), baseline)
    }

    /** `handleResetTrafficStats`: the current totals become the baseline, here and in storage. */
    method ResetTrafficStats(inbounds: seq<Inbound>)
      modifies this
      ensures baseline == CurrentTotals(inbounds) && stored == Some(baseline)
      ensures Shown(inbounds) == Totals(0, 0)
    {
      var current := CurrentTotals(inbounds);
      var newBaseline := Totals(current.upload, current.download);
      baseline := newBaseline;
      stored := Some(newBaseline);
    }
  }

  /** An inbound a lowercased query finds: in its lowercased remark or protocol, or in its port's decimal text. */
  predicate Matches(inbound: Inbound, query: string) {
    Contains(ToLower(inbound.remark), query)
    || Contains(ToLower(inbound.protocol), query)
    || Contains(IntToDecimal(inbound.port), query)
  }

  function MatchingOf(inbounds: seq<Inbound>, query: string): (r: seq<Inbound>)
    ensures |r| <= |inbounds|
    ensures forall i :: 0 <= i < |r| ==> Matches(r[i], query)
    decreases |inbounds|
  {
    if inbounds == [] then []
    else
      var rest := MatchingOf(inbounds[..|inbounds| - 1], query);
      var last := inbounds[|inbounds| - 1];
      if Matches(last, query) then rest + [last] else rest
  }

  /** `filteredInbounds`: the whole list for an empty query, else the matches in list order. */
  function FilteredInbounds(inbounds: seq<Inbound>, query: string): (r: seq<Inbound>)
    ensures query == [] ==> r == inbounds
    ensures query != [] ==> forall i :: 0 <= i < |r| ==> Matches(r[i], ToLower(query))
  {
    if query == [] then inbounds else MatchingOf(inbounds, ToLower(query))
  }

  /** Filtering keeps list order: a list filtered piece by piece is the filtered whole. */
  lemma {:induction false} MatchingOfAppend(a: seq<Inbound>, b: seq<Inbound>, query: string)
    ensures MatchingOf(a + b, query) == MatchingOf(a, query) + MatchingOf(b, query)
    decreases |b|
  {
    if b == [] {
      assert a + b == a;
    } else {
      var b' := b[..|b| - 1];
      assert (a + b)[..|a + b| - 1] == a + b';
      MatchingOfAppend(a, b', query);
    }
  }

  /** Exactly the matching inbounds are kept. */
  lemma {:induction false} MatchingOfMembers(inbounds: seq<Inbound>, query: string, x: Inbound)
    ensures x in MatchingOf(inbounds, query) <==> x in inbounds && Matches(x, query)
    decreases |inbounds|
  {
    if inbounds != [] {
      var init := inbounds[..|inbounds| - 1];
      MatchingOfMembers(init, query, x);
      InitAndLast(inbounds);
    }
  }

  /** A query every inbound matches keeps the whole list. */
  lemma {:induction false} MatchingOfAll(inbounds: seq<Inbound>, query: string)
    requires forall i :: 0 <= i < |inbounds| ==> Matches(inbounds[i], query)
    ensures MatchingOf(inbounds, query) == inbounds
    decreases |inbounds|
  {
    if inbounds != [] {
      var init := inbounds[..|inbounds| - 1];
      var last := inbounds[|inbounds| - 1];
      forall i | 0 <= i < |init| ensures Matches(init[i], query) {
        assert init[i] == inbounds[i];
      }
      MatchingOfAll(init, query);
      InitAndLast(inbounds);
      MatchingOfSnoc(init, last, query);
    }
  }

  lemma InitAndLast(s: seq<Inbound>)
    requires s != []
    ensures s == s[..|s| - 1] + [s[|s| - 1]]
  {
  }

  lemma MatchingOfSnoc(init: seq<Inbound>, last: Inbound, query: string)
    ensures MatchingOf(init + [last], query)
      == if Matches(last, query) then MatchingOf(init, query) + [last] else MatchingOf(init, query)
  {
    var s := init + [last];
    assert s[..|s| - 1] == init;
  }

  /** The search is case-blind: an upper-case query finds what its lower-case form finds. */
  lemma QueryCaseIgnored(inbounds: seq<Inbound>, query: string)
    requires query != []
    ensures FilteredInbounds(inbounds, query) == FilteredInbounds(inbounds, ToLower(query))
  {
    var lower := ToLower(query);
    assert ToLower(lower) == lower by {
      forall i | 0 <= i < |lower| ensures ToLower(lower)[i] == lower[i] {
        assert lower[i] == ToLowerChar(query[i]);
      }
    }
  }

  /** The virtual table takes over above 50 rows. */
  predicate UseVirtualScroll(filtered: seq<Inbound>) { |filtered| > VirtualScrollThreshold }

  lemma VirtualScrollOnlyForLongLists(inbounds: seq<Inbound>, query: string)
    requires UseVirtualScroll(FilteredInbounds(inbounds, query))
    ensures |inbounds| > 50
  {
  }
}
