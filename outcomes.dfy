/** The data behind the success pie chart, `update_pie`
    (spacex-dash-app.py:61-73): for "ALL" the `groupby('Launch Site')` sum of
    the `class` column, for one site the `value_counts()` of its `class`
    column relabelled "Success"/"Failure". */
module Outcomes {
  import opened StringOrder
  import opened Launches
  import opened SiteCatalog

  /** One row of `groupby('Launch Site')['class'].sum().reset_index()`. */
  datatype SiteTotal = SiteTotal(site: string, successes: nat)

  /** The `Launch Site` column of a grouped table. */
  function Keys(rows: seq<SiteTotal>): seq<string> {
    if rows == [] then [] else [rows[0].site] + Keys(rows[1..])
  }

  /** The `class` sum a grouped table holds for `site`, or 0 when it has no
      row for it. */
  function TotalFor(rows: seq<SiteTotal>, site: string): nat {
    if rows == [] then 0
    else if rows[0].site == site then rows[0].successes
    else TotalFor(rows[1..], site)
  }

  /** The sum of the `class` column of a grouped table. */
  function SumSuccesses(rows: seq<SiteTotal>): nat {
    if rows == [] then 0 else rows[0].successes + SumSuccesses(rows[1..])
  }

  lemma {:induction false} TotalForAbsent(rows: seq<SiteTotal>, site: string)
    requires site !in Keys(rows)
    ensures TotalFor(rows, site) == 0
  {
    if rows != [] {
      TotalForAbsent(rows[1..], site);
    }
  }

  /** Adds one record's outcome `c` to the group of `site`, opening a new
      group at its place in ascending site order when there is none. */
  function AddOutcome(rows: seq<SiteTotal>, site: string, c: nat): (r: seq<SiteTotal>)
    requires StrictlySorted(Keys(rows))
    ensures StrictlySorted(Keys(r))
    ensures forall k :: k in Keys(r) <==> k in Keys(rows) || k == site
    ensures forall k :: TotalFor(r, k) == TotalFor(rows, k) + (if k == site then c else 0)
    ensures SumSuccesses(r) == SumSuccesses(rows) + c
  {
    if rows == [] then [SiteTotal(site, c)]
    else
      var head := rows[0];
      StrictlySortedTail(Keys(rows));
      if head.site == site then
        var r := [SiteTotal(site, head.successes + c)] + rows[1..];
        assert r[1..] == rows[1..];
        r
      else if Less(site, head.site) then
        forall k | k in Keys(rows) ensures Less(site, k) {
          if k != head.site {
            LessTransitive(site, head.site, k);
          }
        }
        StrictlySortedCons(site, Keys(rows));
        LessIrreflexive(site);
        TotalForAbsent(rows, site);
        var r := [SiteTotal(site, c)] + rows;
        assert r[1..] == rows;
        r
      else
        LessTotal(site, head.site);
        var rest := AddOutcome(rows[1..], site, c);
        StrictlySortedCons(head.site, Keys(rest));
        var r := [head] + rest;
        assert r[1..] == rest;
        r
  }

  /** `groupby('Launch Site')['class'].sum().reset_index()`: one row per
      group, in ascending site order. */
  function GroupSuccesses(data: seq<Record>): (r: seq<SiteTotal>)
    ensures StrictlySorted(Keys(r))
    ensures forall k :: k in Keys(r) <==> k in Sites(data)
    ensures forall k :: TotalFor(r, k) == ClassSum(OnSite(data, k))
    ensures SumSuccesses(r) == ClassSum(data)
  {
    if data == [] then []
    else
      var rest := GroupSuccesses(data[1..]);
      forall k ensures ClassSum(OnSite(data, k)) == (if k == data[0].site then data[0].cls else 0) + ClassSum(OnSite(data[1..], k)) {
        OnSiteCons(data, k);
        ClassSumAppend(if data[0].site == k then [data[0]] else [], OnSite(data[1..], k));
      }
      AddOutcome(rest, data[0].site, data[0].cls)
  }

  lemma {:induction false} ClassSumAppend(a: seq<Record>, b: seq<Record>)
    ensures ClassSum(a + b) == ClassSum(a) + ClassSum(b)
  {
    if a != [] {
      ClassSumAppend(a[1..], b);
      assert (a + b)[0] == a[0] && (a + b)[1..] == a[1..] + b;
    } else {
      assert a + b == b;
    }
  }

  lemma {:induction false} KeysAt(rows: seq<SiteTotal>, i: nat)
    requires i < |rows|
    ensures |Keys(rows)| == |rows| && Keys(rows)[i] == rows[i].site
  {
    if i > 0 {
      KeysAt(rows[1..], i - 1);
    } else {
      KeysLength(rows);
    }
  }

  lemma {:induction false} KeysLength(rows: seq<SiteTotal>)
    ensures |Keys(rows)| == |rows|
  {
    if rows != [] {
      KeysLength(rows[1..]);
    }
  }

  /** In a table whose sites are ascending without repeats, each row holds
      the total for its own site. */
  lemma {:induction false} TotalForRow(rows: seq<SiteTotal>, i: nat)
    requires StrictlySorted(Keys(rows))
    requires i < |rows|
    ensures TotalFor(rows, rows[i].site) == rows[i].successes
  {
    if i > 0 {
      KeysAt(rows, 0);
      KeysAt(rows, i);
      LessIrreflexive(rows[i].site);
      StrictlySortedTail(Keys(rows));
      TotalForRow(rows[1..], i - 1);
    }
  }

  /** The "ALL" table has exactly one row per distinct site, in the same
      order as the dropdown, sites without a success included; each row's
      value is the number of successful launches at that site, and the
      values add up to the number of successful launches in the dataset. */
  lemma GroupSuccessesCorrect(data: seq<Record>)
    ensures Keys(GroupSuccesses(data)) == Catalog(data)
    ensures forall i :: 0 <= i < |GroupSuccesses(data)| ==>
      GroupSuccesses(data)[i].successes == |Keep(OnSite(data, GroupSuccesses(data)[i].site), Succeeded)|
    ensures SumSuccesses(GroupSuccesses(data)) == |Keep(data, Succeeded)|
  {
    var rows := GroupSuccesses(data);
    CatalogIsDetermined(data, Keys(rows));
    forall i | 0 <= i < |rows|
      ensures rows[i].successes == |Keep(OnSite(data, rows[i].site), Succeeded)|
    {
      TotalForRow(rows, i);
      ClassSumCountsSuccesses(OnSite(data, rows[i].site));
    }
    ClassSumCountsSuccesses(data);
  }

  /** `Series.value_counts()`: each value that occurs, with its number of
      occurrences; a value that does not occur has no entry. */
  function ValueCounts(cs: seq<Bit>): (m: map<Bit, nat>)
    ensures forall v :: v in m <==> v in multiset(cs)
    ensures forall v :: v in m ==> m[v] == multiset(cs)[v]
  {
    if cs == [] then map[]
    else
      var m := ValueCounts(cs[1..]);
      assert cs == [cs[0]] + cs[1..];
      m[cs[0] := (if cs[0] in m then m[cs[0]] else 0) + 1]
  }

  const SuccessLabel: string := "Success"
  const FailureLabel: string := "Failure"

  /** `.rename(index={1: 'Success', 0: 'Failure'})`: the count of 1 under
      "Success", the count of 0 under "Failure", and no other label. */
  function Relabel(m: map<Bit, nat>): (r: map<string, nat>)
    ensures r.Keys <= {SuccessLabel, FailureLabel}
    ensures SuccessLabel in r <==> 1 in m
    ensures FailureLabel in r <==> 0 in m
    ensures SuccessLabel in r ==> r[SuccessLabel] == m[1]
    ensures FailureLabel in r ==> r[FailureLabel] == m[0]
    ensures CountOf(r, SuccessLabel) == (if 1 in m then m[1] else 0)
    ensures CountOf(r, FailureLabel) == (if 0 in m then m[0] else 0)
  {
    var withSuccess := if 1 in m then map[SuccessLabel := m[1]] else map[];
    var r := if 0 in m then withSuccess[FailureLabel := m[0]] else withSuccess;
    assert SuccessLabel[0] != FailureLabel[0];
    r
  }

  /** The outcome table for one site, as a map from outcome label to count.
      It is empty exactly when the site has no records. */
  function SiteOutcomes(data: seq<Record>, site: string): (r: map<string, nat>)
    ensures r == map[] <==> OnSite(data, site) == []
  {
    Relabel(ValueCounts(Classes(OnSite(data, site))))
  }

  /** A label that is missing from an outcome table counts as 0. */
  function CountOf(table: map<string, nat>, outcome: string): nat {
    if outcome in table then table[outcome] else 0
  }

  /** The one-site table holds only the labels "Success" and "Failure", a
      label only when its count is positive; "Success" counts the successful
      launches at the site, and the two counts add up to the site's number
      of launches. */
  lemma SiteOutcomesCorrect(data: seq<Record>, site: string)
    ensures SiteOutcomes(data, site).Keys <= {SuccessLabel, FailureLabel}
    ensures forall outcome :: outcome in SiteOutcomes(data, site) ==> SiteOutcomes(data, site)[outcome] > 0
    ensures CountOf(SiteOutcomes(data, site), SuccessLabel) == |Keep(OnSite(data, site), Succeeded)|
    ensures CountOf(SiteOutcomes(data, site), SuccessLabel) + CountOf(SiteOutcomes(data, site), FailureLabel)
      == |OnSite(data, site)|
  {
    var recs := OnSite(data, site);
    var counts := ValueCounts(Classes(recs));
    SuccessesAndFailures(recs);
    ClassSumCountsSuccesses(recs);
    forall outcome | outcome in Relabel(counts) ensures Relabel(counts)[outcome] > 0 {
      assert CountOf(Relabel(counts), outcome) == Relabel(counts)[outcome];
    }
  }

  /** Only the records of the selected site are counted: dropping every
      other site's records first changes nothing. */
  lemma SiteOutcomesOnlySite(data: seq<Record>, site: string)
    ensures SiteOutcomes(OnSite(data, site), site) == SiteOutcomes(data, site)
  {
    KeepTwice(data, SiteIs(site), SiteIs(site), SiteIs(site));
  }

  /** Rows of other sites do not count: appending rows none of which is at
      the selected site leaves its table unchanged. */
  lemma SiteOutcomesIgnoreOtherSites(data: seq<Record>, other: seq<Record>, site: string)
    requires site !in Sites(other)
    ensures SiteOutcomes(data + other, site) == SiteOutcomes(data, site)
  {
    KeepAppend(data, other, SiteIs(site));
    OnUnknownSite(other, site);
    assert OnSite(data + other, site) == OnSite(data, site) + [];
    assert OnSite(data, site) + [] == OnSite(data, site);
  }

  /** A site with no records (one not in the dataset) gives an empty table,
      not an error. */
  lemma SiteOutcomesUnknownSite(data: seq<Record>, site: string)
    requires site !in Sites(data)
    ensures SiteOutcomes(data, site) == map[]
  {
    OnUnknownSite(data, site);
  }

  /** The table handed to `px.pie`. */
  datatype PieTable =
    | BySite(rows: seq<SiteTotal>)
    | ByOutcome(counts: map<string, nat>)

  /** The data `update_pie` charts for a dropdown value. */
  function PieData(data: seq<Record>, selected: string): (t: PieTable)
    ensures selected == AllSites ==>
      && t.BySite?
      && Keys(t.rows) == Catalog(data)
      && (forall i :: 0 <= i < |t.rows| ==>
            t.rows[i].successes == |Keep(OnSite(data, t.rows[i].site), Succeeded)|)
      && SumSuccesses(t.rows) == |Keep(data, Succeeded)|
    ensures selected != AllSites ==>
      && t.ByOutcome?
      && t.counts.Keys <= {SuccessLabel, FailureLabel}
      && (forall outcome :: outcome in t.counts ==> t.counts[outcome] > 0)
      && CountOf(t.counts, SuccessLabel) == |Keep(OnSite(data, selected), Succeeded)|
      && CountOf(t.counts, SuccessLabel) + CountOf(t.counts, FailureLabel) == |OnSite(data, selected)|
  {
    if selected == AllSites then
      GroupSuccessesCorrect(data);
      BySite(GroupSuccesses(data))
    else
      SiteOutcomesCorrect(data, selected);
      ByOutcome(SiteOutcomes(data, selected))
  }

  /** The pie chart's title; for one site it ends with the site's name. */
  function PieTitle(selected: string): (r: string)
    ensures selected != AllSites ==> |r| > |selected| && r[|r| - |selected|..] == selected
  {
    if selected == AllSites then "Total Successful Launches by Site"
    else "Success vs Failure for " + selected
  }

  /** Different dropdown values give different pie titles. */
  lemma PieTitleIdentifiesSelection(a: string, b: string)
    requires a != b
    ensures PieTitle(a) != PieTitle(b)
  {
    var prefix := "Success vs Failure for ";
    if a != AllSites && b != AllSites {
      assert (prefix + a)[|prefix|..] != (prefix + b)[|prefix|..];
    } else {
      assert PieTitle(a)[0] != PieTitle(b)[0];
    }
  }
}
