/** The options of the launch-site dropdown: the "All Sites" entry followed
    by `sorted(spacex_df['Launch Site'].unique())` (spacex-dash-app.py:24-25). */
module SiteCatalog {
  import opened StringOrder
  import opened Launches

  /** `Series.unique()`: every value once, in order of first appearance. */
  function Unique(xs: seq<string>): (r: seq<string>)
    ensures Distinct(r)
    ensures forall x :: x in r <==> x in xs
  {
    if xs == [] then []
    else
      var init, last := xs[..|xs| - 1], xs[|xs| - 1];
      var u := Unique(init);
      assert xs == init + [last];
      if last in u then u else u + [last]
  }

  /** The distinct launch sites of the dataset in ascending order. */
  function Catalog(data: seq<Record>): (r: seq<string>)
    ensures StrictlySorted(r)
    ensures forall s :: s in r <==> s in Sites(data)
  {
    var u := Unique(Sites(data));
    var r := Sort(u);
    assert forall s :: s in r <==> s in multiset(r);
    assert forall s :: s in u <==> s in multiset(u);
    SortedDistinctIsStrict(r);
    r
  }

  /** The catalog is the only ascending, repeat-free listing of the
      dataset's sites. */
  lemma CatalogIsDetermined(data: seq<Record>, listing: seq<string>)
    requires StrictlySorted(listing)
    requires forall s :: s in listing <==> s in Sites(data)
    ensures listing == Catalog(data)
  {
    StrictlySortedUnique(listing, Catalog(data));
  }

  /** One entry of the dropdown: its `label` (here `caption`, since `label`
      is a Dafny keyword) and its `value`. */
  datatype DropdownOption = DropdownOption(caption: string, value: string)

  /** `{'label': 'All Sites', 'value': 'ALL'}` */
  const AllSitesOption: DropdownOption := DropdownOption("All Sites", AllSites)

  /** `[{'label': s, 'value': s} for s in sites]` */
  function OptionsFor(sites: seq<string>): (r: seq<DropdownOption>)
    ensures |r| == |sites|
    ensures forall i :: 0 <= i < |r| ==> r[i].caption == sites[i] && r[i].value == sites[i]
  {
    if sites == [] then [] else [DropdownOption(sites[0], sites[0])] + OptionsFor(sites[1..])
  }

  /** The dropdown's option list: "All Sites" first, then each site of the
      dataset exactly once, labelled by itself, in strictly ascending order,
      and no site that is not in the dataset. */
  function SiteOptions(data: seq<Record>): (r: seq<DropdownOption>)
    ensures |r| >= 1 && r[0] == AllSitesOption
    ensures forall i :: 1 <= i < |r| ==> r[i].caption == r[i].value
    ensures forall i, j :: 1 <= i < j < |r| ==> Less(r[i].value, r[j].value)
    ensures forall s :: s in Sites(data) <==> exists i :: 1 <= i < |r| && r[i].value == s
  {
    var c := Catalog(data);
    var r := [AllSitesOption] + OptionsFor(c);
    assert forall i :: 1 <= i < |r| ==> r[i] == OptionsFor(c)[i - 1];
    assert forall s :: s in Sites(data) ==> r[IndexOf(c, s) + 1].value == s;
    r
  }

  /** The position of a value in a list that holds it. */
  function IndexOf(xs: seq<string>, x: string): (k: nat)
    requires x in xs
    ensures k < |xs| && xs[k] == x
  {
    if xs[0] == x then 0 else 1 + IndexOf(xs[1..], x)
  }
}
