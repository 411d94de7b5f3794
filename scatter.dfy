/** The data behind the payload/outcome scatter chart, `update_scatter`
    (spacex-dash-app.py:81-98): the rows whose payload lies in the slider's
    range and, unless "ALL" is selected, whose site is the selected one. */
module Scatter {
  import opened Launches

  /** The mask `(payload >= low) & (payload <= high)`. */
  function PayloadWithin(low: real, high: real): Record -> bool {
    (r: Record) => low <= r.payload && r.payload <= high
  }

  /** Whether a row belongs on the chart, decided in one step. */
  predicate Plotted(r: Record, selected: string, low: real, high: real) {
    low <= r.payload <= high && (selected == AllSites || r.site == selected)
  }

  function PlottedMask(selected: string, low: real, high: real): Record -> bool {
    (r: Record) => Plotted(r, selected, low, high)
  }

  /** The rows handed to `px.scatter`: first the payload mask, then, for a
      concrete site, the site mask. They are the rows that satisfy `Plotted`,
      each as often as it occurs in the data, in dataset order. */
  function ScatterData(data: seq<Record>, selected: string, low: real, high: real): (r: seq<Record>)
    ensures IsSubsequence(r, data)
    ensures forall x :: (multiset(r)[x] == if Plotted(x, selected, low, high) then multiset(data)[x] else 0)
    ensures forall x :: x in r <==> x in data && Plotted(x, selected, low, high)
  {
    var inRange := Keep(data, PayloadWithin(low, high));
    KeepMembership(data, PlottedMask(selected, low, high));
    if selected != AllSites then
      KeepTwice(data, PayloadWithin(low, high), SiteIs(selected), PlottedMask(selected, low, high));
      Keep(inRange, SiteIs(selected))
    else
      KeepSameMask(data, PayloadWithin(low, high), PlottedMask(selected, low, high));
      inRange
  }

  /** The two masks applied one after the other are the one-step
      selection by `Plotted`. */
  lemma ScatterIsOnePass(data: seq<Record>, selected: string, low: real, high: real)
    ensures ScatterData(data, selected, low, high) == Keep(data, PlottedMask(selected, low, high))
  {
    if selected != AllSites {
      KeepTwice(data, PayloadWithin(low, high), SiteIs(selected), PlottedMask(selected, low, high));
    } else {
      KeepSameMask(data, PayloadWithin(low, high), PlottedMask(selected, low, high));
    }
  }

  /** Every plotted row has its payload in the selected range. */
  lemma ScatterWithinRange(data: seq<Record>, selected: string, low: real, high: real)
    ensures forall i :: 0 <= i < |ScatterData(data, selected, low, high)| ==>
      low <= ScatterData(data, selected, low, high)[i].payload <= high
  {
    var rows := ScatterData(data, selected, low, high);
    forall i | 0 <= i < |rows| ensures low <= rows[i].payload <= high {
      assert rows[i] in rows;
    }
  }

  /** With `low == high` only rows of exactly that payload are plotted. */
  lemma ScatterSinglePayload(data: seq<Record>, selected: string, payload: real)
    ensures forall i :: 0 <= i < |ScatterData(data, selected, payload, payload)| ==>
      ScatterData(data, selected, payload, payload)[i].payload == payload
  {
    ScatterWithinRange(data, selected, payload, payload);
  }

  lemma {:induction false} KeepNothing(data: seq<Record>, keep: Record -> bool)
    requires forall i :: 0 <= i < |data| ==> !keep(data[i])
    ensures Keep(data, keep) == []
  {
    if data != [] {
      KeepNothing(data[1..], keep);
    }
  }

  /** Bounds given in the wrong order are neither rejected nor swapped: the
      chart is simply empty. */
  lemma ScatterInvertedRange(data: seq<Record>, selected: string, low: real, high: real)
    requires low > high
    ensures ScatterData(data, selected, low, high) == []
  {
    KeepNothing(data, PayloadWithin(low, high));
  }

  /** A range that covers every payload drops no row: "ALL" plots the whole
      dataset, a site all of its rows. */
  lemma ScatterFullRange(data: seq<Record>, selected: string, low: real, high: real)
    requires forall i :: 0 <= i < |data| ==> low <= data[i].payload <= high
    ensures ScatterData(data, selected, low, high) == if selected == AllSites then data else OnSite(data, selected)
  {
    KeepEverything(data, PayloadWithin(low, high));
  }

  /** The slider starts at `[min_payload, max_payload]`, so the first scatter
      chart drops no row because of the payload range. */
  lemma InitialSliderKeepsEveryRow(data: seq<Record>, selected: string)
    requires data != []
    ensures ScatterData(data, selected, MinPayload(data).value, MaxPayload(data).value)
      == if selected == AllSites then data else OnSite(data, selected)
  {
    ScatterFullRange(data, selected, MinPayload(data).value, MaxPayload(data).value);
  }

  /** The scatter chart's title; for one site it ends with the site's name. */
  function ScatterTitle(selected: string): (r: string)
    ensures selected != AllSites ==> |r| > |selected| && r[|r| - |selected|..] == selected
  {
    if selected == AllSites then "Correlation between Payload and Success"
    else "Payload vs Success for " + selected
  }

  /** Different dropdown values give different scatter titles. */
  lemma ScatterTitleIdentifiesSelection(a: string, b: string)
    requires a != b
    ensures ScatterTitle(a) != ScatterTitle(b)
  {
    var prefix := "Payload vs Success for ";
    if a != AllSites && b != AllSites {
      assert (prefix + a)[|prefix|..] != (prefix + b)[|prefix|..];
    } else {
      assert ScatterTitle(a)[0] != ScatterTitle(b)[0];
    }
  }
}
