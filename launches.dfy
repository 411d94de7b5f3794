/** The launch records the dashboard reads once from its CSV file, the
    boolean-mask filter it applies to them, and the payload bounds it
    computes for its range slider (spacex-dash-app.py:9-11). */
module Launches {

  /** An outcome in the `class` column: 1 for a successful launch, 0 for a
      failed one. */
  type Bit = c: int | 0 <= c <= 1

  /** One row of the dataset, restricted to the four columns the dashboard
      uses: `Launch Site`, `Payload Mass (kg)`, `class` and
      `Booster Version Category`. */
  datatype Record = Record(site: string, payload: real, cls: Bit, booster: string)

  /** The dropdown value that stands for every launch site. */
  const AllSites: string := "ALL"

  datatype Option<T> = None | Some(value: T)

  /** `a` is `b` with some elements deleted: same relative order, nothing
      repeated, nothing added. */
  predicate IsSubsequence(a: seq<Record>, b: seq<Record>)
    decreases |b|
  {
    a == [] || (b != [] && ((a[0] == b[0] && IsSubsequence(a[1..], b[1..])) || IsSubsequence(a, b[1..])))
  }

  /** `df[mask]` for a row mask `keep`: the rows that satisfy it, in their
      original order. */
  function Keep(data: seq<Record>, keep: Record -> bool): (r: seq<Record>)
    ensures IsSubsequence(r, data)
    ensures forall x :: multiset(r)[x] == if keep(x) then multiset(data)[x] else 0
  {
    if data == [] then []
    else
      var rest := Keep(data[1..], keep);
      assert data == [data[0]] + data[1..];
      if keep(data[0]) then
        assert ([data[0]] + rest)[1..] == rest;
        [data[0]] + rest
      else
        rest
  }

  lemma KeepCons(x: Record, xs: seq<Record>, keep: Record -> bool)
    ensures Keep([x] + xs, keep) == (if keep(x) then [x] else []) + Keep(xs, keep)
  {
    assert ([x] + xs)[0] == x && ([x] + xs)[1..] == xs;
  }

  /** Membership form of `Keep`'s contract: a record is kept iff it is in the
      data and satisfies the mask. */
  lemma KeepMembership(data: seq<Record>, keep: Record -> bool)
    ensures forall x :: x in Keep(data, keep) <==> x in data && keep(x)
  {
    var r := Keep(data, keep);
    forall x ensures x in r <==> x in data && keep(x) {
      assert x in r <==> x in multiset(r);
      assert x in data <==> x in multiset(data);
    }
  }

  /** A mask every record satisfies keeps the whole dataset. */
  lemma {:induction false} KeepEverything(data: seq<Record>, keep: Record -> bool)
    requires forall i :: 0 <= i < |data| ==> keep(data[i])
    ensures Keep(data, keep) == data
  {
    if data != [] {
      KeepEverything(data[1..], keep);
      assert data == [data[0]] + data[1..];
    }
  }

  /** Applying `first` and then `second` is the same as applying their
      conjunction once. */
  lemma {:induction false} KeepTwice(data: seq<Record>, first: Record -> bool, second: Record -> bool, both: Record -> bool)
    requires forall x :: both(x) == (first(x) && second(x))
    ensures Keep(Keep(data, first), second) == Keep(data, both)
  {
    if data != [] {
      KeepTwice(data[1..], first, second, both);
      var rest := Keep(data[1..], first);
      assert data == [data[0]] + data[1..];
      KeepCons(data[0], data[1..], first);
      KeepCons(data[0], data[1..], both);
      if first(data[0]) {
        KeepCons(data[0], rest, second);
      }
    }
  }

  /** Filtering a concatenation filters each part. */
  lemma {:induction false} KeepAppend(a: seq<Record>, b: seq<Record>, keep: Record -> bool)
    ensures Keep(a + b, keep) == Keep(a, keep) + Keep(b, keep)
  {
    if a == [] {
      assert a + b == b;
    } else {
      KeepAppend(a[1..], b, keep);
      KeepAppendHead(a, b, keep);
    }
  }

  lemma KeepAppendHead(a: seq<Record>, b: seq<Record>, keep: Record -> bool)
    requires a != []
    ensures Keep(a + b, keep) == (if keep(a[0]) then [a[0]] else []) + Keep(a[1..] + b, keep)
  {
    assert (a + b)[0] == a[0];
    assert (a + b)[1..] == a[1..] + b;
  }

  /** Two masks that agree on every record select the same rows. */
  lemma {:induction false} KeepSameMask(data: seq<Record>, keep: Record -> bool, same: Record -> bool)
    requires forall x :: keep(x) == same(x)
    ensures Keep(data, keep) == Keep(data, same)
  {
    if data != [] {
      KeepSameMask(data[1..], keep, same);
    }
  }

  /** The mask `df['Launch Site'] == site`. */
  function SiteIs(site: string): Record -> bool {
    (r: Record) => r.site == site
  }

  /** `df[df['Launch Site'] == site]`: the rows of one launch site, each as
      often as it occurs in the data, in dataset order. */
  function OnSite(data: seq<Record>, site: string): (r: seq<Record>)
    ensures IsSubsequence(r, data)
    ensures forall x :: (multiset(r)[x] == if x.site == site then multiset(data)[x] else 0)
  {
    Keep(data, SiteIs(site))
  }

  lemma OnSiteCons(data: seq<Record>, site: string)
    requires data != []
    ensures OnSite(data, site) == (if data[0].site == site then [data[0]] else []) + OnSite(data[1..], site)
  {
  }

  /** The `Launch Site` column. */
  function Sites(data: seq<Record>): seq<string> {
    if data == [] then [] else [data[0].site] + Sites(data[1..])
  }

  /** A site that does not occur in the data has no rows. */
  lemma {:induction false} OnUnknownSite(data: seq<Record>, site: string)
    requires site !in Sites(data)
    ensures OnSite(data, site) == []
  {
    if data != [] {
      OnUnknownSite(data[1..], site);
    }
  }

  /** The `class` column. */
  function Classes(data: seq<Record>): seq<Bit> {
    if data == [] then [] else [data[0].cls] + Classes(data[1..])
  }

  /** The sum of the `class` column. */
  function ClassSum(data: seq<Record>): nat {
    if data == [] then 0 else data[0].cls + ClassSum(data[1..])
  }

  predicate Succeeded(r: Record) {
    r.cls == 1
  }

  /** Summing the 0/1 outcomes counts the successful launches. */
  lemma {:induction false} ClassSumCountsSuccesses(data: seq<Record>)
    ensures ClassSum(data) == |Keep(data, Succeeded)|
  {
    if data != [] {
      ClassSumCountsSuccesses(data[1..]);
    }
  }

  /** Every record is a success or a failure, so successes and failures
      together are all the records. */
  lemma {:induction false} SuccessesAndFailures(data: seq<Record>)
    ensures multiset(Classes(data))[1] == ClassSum(data)
    ensures multiset(Classes(data))[0] + multiset(Classes(data))[1] == |data|
  {
    if data != [] {
      SuccessesAndFailures(data[1..]);
      assert Classes(data) == [data[0].cls] + Classes(data[1..]);
    }
  }

  /** `spacex_df['Payload Mass (kg)'].max()`; None stands for the NaN pandas
      returns on an empty frame. */
  function MaxPayload(data: seq<Record>): (r: Option<real>)
    ensures r.Some? <==> data != []
    ensures r.Some? ==> forall i :: 0 <= i < |data| ==> data[i].payload <= r.value
    ensures r.Some? ==> exists i :: 0 <= i < |data| && data[i].payload == r.value
  {
    if data == [] then None
    else match MaxPayload(data[1..])
      case None => Some(data[0].payload)
      case Some(m) =>
        assert forall i :: 1 <= i < |data| ==> data[i] == data[1..][i - 1];
        if data[0].payload >= m then Some(data[0].payload)
        else
          var k :| 0 <= k < |data[1..]| && data[1..][k].payload == m;
          assert data[k + 1].payload == m;
          Some(m)
  }

  /** `spacex_df['Payload Mass (kg)'].min()`; None stands for the NaN pandas
      returns on an empty frame. */
  function MinPayload(data: seq<Record>): (r: Option<real>)
    ensures r.Some? <==> data != []
    ensures r.Some? ==> forall i :: 0 <= i < |data| ==> r.value <= data[i].payload
    ensures r.Some? ==> exists i :: 0 <= i < |data| && data[i].payload == r.value
  {
    if data == [] then None
    else match MinPayload(data[1..])
      case None => Some(data[0].payload)
      case Some(m) =>
        assert forall i :: 1 <= i < |data| ==> data[i] == data[1..][i - 1];
        if data[0].payload <= m then Some(data[0].payload)
        else
          var k :| 0 <= k < |data[1..]| && data[1..][k].payload == m;
          assert data[k + 1].payload == m;
          Some(m)
  }
}
