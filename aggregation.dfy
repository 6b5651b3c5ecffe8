/** The dashboard's category aggregation: the user's expenses are folded into
    an insertion-ordered dictionary from category to running total, which is
    then split into the parallel `labels` and `values` lists fed to the chart.

    The specification is written over prefixes: `n` counts how many expenses
    from the front of `es` have been taken into account, so the whole list is
    `n == |es|` and one turn of the loop is `n` to `n + 1`. */
module Aggregation {
  import opened Records

  // ---------------------------------------------------------------------------
  // Specification

  /** The sum of the first `k` entries of `vs`. */
  function Sum(vs: seq<real>, k: nat): real
    requires k <= |vs|
  {
    if k == 0 then 0.0 else Sum(vs, k - 1) + vs[k - 1]
  }

  /** The sum of the amounts of the first `n` expenses. */
  function Total(es: seq<Expense>, n: nat): real
    requires n <= |es|
  {
    if n == 0 then 0.0 else Total(es, n - 1) + es[n - 1].amount
  }

  /** The sum of the amounts of those of the first `n` expenses that are filed
      under category `c`. */
  function CategoryTotal(es: seq<Expense>, c: string, n: nat): real
    requires n <= |es|
  {
    if n == 0 then 0.0
    else CategoryTotal(es, c, n - 1) + (if es[n - 1].category == c then es[n - 1].amount else 0.0)
  }

  /** The distinct categories of the first `n` expenses, each placed where it
      is first seen. */
  function Labels(es: seq<Expense>, n: nat): seq<string>
    requires n <= |es|
  {
    if n == 0 then []
    else
      var prior := Labels(es, n - 1);
      if es[n - 1].category in prior then prior else prior + [es[n - 1].category]
  }

  /** The totals over the first `n` expenses of the categories in `labels`,
      position by position. */
  function TotalsFor(es: seq<Expense>, n: nat, labels: seq<string>): seq<real>
    requires n <= |es|
  {
    seq(|labels|, i requires 0 <= i < |labels| => CategoryTotal(es, labels[i], n))
  }

  predicate Distinct(s: seq<string>) {
    forall i, j :: 0 <= i < j < |s| ==> s[i] != s[j]
  }

  /** The index of the first of the first `n` expenses that is filed under `c`,
      or `n` when there is none. */
  function FirstSeen(es: seq<Expense>, c: string, n: nat): (k: nat)
    requires n <= |es|
    ensures k <= n
    ensures k < n ==> es[k].category == c
    ensures forall m :: 0 <= m < k ==> es[m].category != c
  {
    if n == 0 then 0
    else
      var k := FirstSeen(es, c, n - 1);
      if k < n - 1 then k
      else if es[n - 1].category == c then n - 1
      else n
  }

  // ---------------------------------------------------------------------------
  // The loop of the handler

  /** The dictionary after folding the first `n` expenses: `keys` is its
      insertion order and `totals` holds each key's running sum. */
  ghost predicate Tallies(es: seq<Expense>, n: nat, keys: seq<string>, totals: map<string, real>)
    requires n <= |es|
  {
    && keys == Labels(es, n)
    && (forall c :: c in totals <==> c in keys)
    && (forall c :: c in totals ==> totals[c] == CategoryTotal(es, c, n))
  }

  /** The grouping loop: folds `expenses` into a dictionary whose keys, in
      insertion order, are `keys` and whose entries are `totals`. */
  method Tally(expenses: seq<Expense>) returns (keys: seq<string>, totals: map<string, real>)
    ensures keys == Labels(expenses, |expenses|)
    ensures totals.Keys == set c | c in keys
    ensures forall j :: 0 <= j < |keys| ==>
              keys[j] in totals && totals[keys[j]] == CategoryTotal(expenses, keys[j], |expenses|)
  {
    keys, totals := [], map[];
    var n := 0;
    while n < |expenses|
      invariant 0 <= n <= |expenses|
      invariant Tallies(expenses, n, keys, totals)
    {
      var e := expenses[n];
      TallyStep(expenses, n, keys, totals);
      // category_totals[c] = category_totals.get(c, 0) + amount
      var running := if e.category in totals then totals[e.category] else 0.0;
      if e.category !in totals {
        keys := keys + [e.category];
      }
      totals := totals[e.category := running + e.amount];
      n := n + 1;
    }
  }

  /** Groups `expenses` by category: `labels` are the dictionary's keys in
      insertion order and `values` its values in the same order. */
  method Aggregate(expenses: seq<Expense>) returns (labels: seq<string>, values: seq<real>)
    ensures labels == Labels(expenses, |expenses|)
    ensures values == TotalsFor(expenses, |expenses|, labels)
  {
    var keys, totals := Tally(expenses);
    // list(category_totals.keys()), list(category_totals.values())
    labels := keys;
    values := [];
    var i := 0;
    while i < |keys|
      invariant 0 <= i <= |keys| && |values| == i
      invariant forall j :: 0 <= j < i ==> values[j] == totals[keys[j]]
    {
      values := values + [totals[keys[i]]];
      i := i + 1;
    }
  }

  /** One turn of the loop keeps the dictionary in step with the specification. */
  lemma TallyStep(es: seq<Expense>, n: nat, keys: seq<string>, totals: map<string, real>)
    requires n < |es| && Tallies(es, n, keys, totals)
    ensures var c := es[n].category;
            Tallies(es, n + 1,
                    if c in totals then keys else keys + [c],
                    totals[c := (if c in totals then totals[c] else 0.0) + es[n].amount])
  {
    var c := es[n].category;
    if c !in totals {
      CategoryTotalAbsent(es, c, n);
    }
  }

  // ---------------------------------------------------------------------------
  // Properties of the specification

  /** A category is a label exactly when some expense among the first `n` is
      filed under it, that is, when it has a first occurrence among them. */
  lemma {:induction false} LabelsCover(es: seq<Expense>, c: string, n: nat)
    requires n <= |es|
    ensures c in Labels(es, n) <==> exists k :: 0 <= k < n && es[k].category == c
    ensures c in Labels(es, n) <==> FirstSeen(es, c, n) < n
  {
    if n > 0 {
      LabelsCover(es, c, n - 1);
      if es[n - 1].category != c && exists k :: 0 <= k < n && es[k].category == c {
        var k :| 0 <= k < n && es[k].category == c;
        assert k < n - 1;
      }
    }
  }

  /** A category no expense is filed under totals 0. */
  lemma {:induction false} CategoryTotalAbsent(es: seq<Expense>, c: string, n: nat)
    requires n <= |es| && c !in Labels(es, n)
    ensures CategoryTotal(es, c, n) == 0.0
  {
    if n > 0 {
      CategoryTotalAbsent(es, c, n - 1);
    }
  }

  /** Each category occurs once among the labels. */
  lemma {:induction false} LabelsDistinct(es: seq<Expense>, n: nat)
    requires n <= |es|
    ensures Distinct(Labels(es, n))
  {
    if n > 0 {
      LabelsDistinct(es, n - 1);
    }
  }

  /** The labels are in the order in which their categories first appear, and
      each of them does appear. */
  lemma {:induction false} LabelsInFirstSeenOrder(es: seq<Expense>, n: nat)
    requires n <= |es|
    ensures forall i :: 0 <= i < |Labels(es, n)| ==> FirstSeen(es, Labels(es, n)[i], n) < n
    ensures forall i, j :: 0 <= i < j < |Labels(es, n)| ==>
              FirstSeen(es, Labels(es, n)[i], n) < FirstSeen(es, Labels(es, n)[j], n)
  {
    if n > 0 {
      LabelsInFirstSeenOrder(es, n - 1);
      var L, c := Labels(es, n - 1), es[n - 1].category;
      if c !in L {
        LabelsCover(es, c, n - 1);
      }
    }
  }

  /** Every expense's category is among the labels. */
  lemma EveryCategoryLabelled(es: seq<Expense>)
    ensures forall k :: 0 <= k < |es| ==> es[k].category in Labels(es, |es|)
  {
    forall k | 0 <= k < |es| ensures es[k].category in Labels(es, |es|) {
      LabelsCover(es, es[k].category, |es|);
    }
  }

  /** No expenses, no labels and no values. */
  lemma EmptyAggregation(es: seq<Expense>)
    requires es == []
    ensures Labels(es, |es|) == [] && TotalsFor(es, |es|, Labels(es, |es|)) == []
  {
  }

  /** Entries that agree position by position have the same sum. */
  lemma {:induction false} SumAgree(vs: seq<real>, ws: seq<real>, k: nat)
    requires k <= |vs| && k <= |ws|
    requires forall i :: 0 <= i < k ==> vs[i] == ws[i]
    ensures Sum(vs, k) == Sum(ws, k)
  {
    if k > 0 {
      SumAgree(vs, ws, k - 1);
    }
  }

  /** Taking one more expense into account raises the sum of the totals of
      distinct labels by its amount exactly when its category is among them. */
  lemma {:induction false} SumStep(es: seq<Expense>, n: nat, labels: seq<string>, k: nat)
    requires n < |es| && k <= |labels| && Distinct(labels)
    ensures Sum(TotalsFor(es, n + 1, labels), k) ==
            Sum(TotalsFor(es, n, labels), k) + (if es[n].category in labels[..k] then es[n].amount else 0.0)
  {
    if k > 0 {
      SumStep(es, n, labels, k - 1);
      assert labels[..k] == labels[..k - 1] + [labels[k - 1]];
      if es[n].category == labels[k - 1] {
        assert es[n].category !in labels[..k - 1];
      }
    }
  }

  /** The chart loses nothing: the values add up to the total of all amounts. */
  lemma {:induction false} ValuesPreserveTotal(es: seq<Expense>, n: nat)
    requires n <= |es|
    ensures Sum(TotalsFor(es, n, Labels(es, n)), |Labels(es, n)|) == Total(es, n)
  {
    if n > 0 {
      ValuesPreserveTotal(es, n - 1);
      var L, c := Labels(es, n - 1), es[n - 1].category;
      LabelsDistinct(es, n - 1);
      SumStep(es, n - 1, L, |L|);
      assert L[..|L|] == L;
      if c !in L {
        CategoryTotalAbsent(es, c, n - 1);
        SumAgree(TotalsFor(es, n, L + [c]), TotalsFor(es, n, L), |L|);
      }
    }
  }

  /** Food 10, Food 5 and Travel 20 chart as Food 15 and Travel 20. */
  lemma ThreeExpenseExample(es: seq<Expense>)
    requires |es| == 3
    requires es[0].category == "Food" && es[0].amount == 10.0
    requires es[1].category == "Food" && es[1].amount == 5.0
    requires es[2].category == "Travel" && es[2].amount == 20.0
    ensures Labels(es, 3) == ["Food", "Travel"]
    ensures TotalsFor(es, 3, Labels(es, 3)) == [15.0, 20.0]
  {
    assert Labels(es, 1) == ["Food"];
    assert Labels(es, 2) == ["Food"];
    assert "Travel" !in ["Food"];
    assert CategoryTotal(es, "Food", 1) == 10.0 && CategoryTotal(es, "Travel", 1) == 0.0;
    assert CategoryTotal(es, "Food", 2) == 15.0 && CategoryTotal(es, "Travel", 2) == 0.0;
  }
}
