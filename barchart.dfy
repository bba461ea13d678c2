/**
 * The weather bar chart (examples/barchart07_final_ts.ts): one bar per city,
 * joined by city name, with a "US only" checkbox that re-renders the chart
 * from the US rows or from all rows.
 *
 * Loading the JSON is outside the model; its result is a parameter. Scale
 * mapping, band widths, axes and transitions are left out.
 */
module BarChart {

  import opened Wrappers
  import opened Seqs
  import opened Join

  datatype Location = Location(country: string, city: string)

  /** One row of the data (`IElem`). */
  datatype Elem = Elem(temperature: real, location: Location)

  /** The attributes of a bar the model tracks. */
  datatype BarAttrs = BarAttrs(x: real)

  /** An entering bar starts at `x = 0`. */
  const BarEnter := BarAttrs(0.0)

  /** The linear scale's domain `[lo, hi]`; `hi` is `undefined` after an empty update. */
  datatype XDomain = XDomain(lo: real, hi: Option<real>)

  /** The join keys: each row's city, in order. */
  function Cities(items: seq<Elem>): (r: seq<string>)
    ensures |r| == |items|
    ensures forall i :: 0 <= i < |items| ==> r[i] == items[i].location.city
  {
    seq(|items|, i requires 0 <= i < |items| => items[i].location.city)
  }

  function Temperatures(items: seq<Elem>): (r: seq<real>)
    ensures |r| == |items|
    ensures forall i :: 0 <= i < |items| ==> r[i] == items[i].temperature
  {
    seq(|items|, i requires 0 <= i < |items| => items[i].temperature)
  }

  /** The enter default of every bar of a join of `n` rows. */
  function EnterBars(n: nat): (r: seq<BarAttrs>)
    ensures |r| == n
    ensures forall i :: 0 <= i < n ==> r[i] == BarEnter
  {
    seq(n, i => BarEnter)
  }

  predicate InUS(d: Elem)
  {
    d.location.country == "US"
  }

  /** What the checkbox handler passes to `update`: the US rows when checked, all rows otherwise. */
  function CheckboxData(data: seq<Elem>, checked: bool): seq<Elem>
  {
    if checked then Filter(data, InUS) else data
  }

  /**
   * Checked, `update` gets exactly the US rows, in their original order and
   * multiplicity; unchecked, it gets the data unchanged.
   */
  lemma CheckboxDataRows(data: seq<Elem>, checked: bool)
    ensures checked ==> forall d :: d in CheckboxData(data, checked) <==> d in data && d.location.country == "US"
    ensures checked ==> IsSubsequence(CheckboxData(data, checked), data)
    ensures checked ==> forall d :: multiset(CheckboxData(data, checked))[d] ==
                                      if InUS(d) then multiset(data)[d] else 0
    ensures !checked ==> CheckboxData(data, checked) == data
  {
    if checked {
      forall d ensures d in CheckboxData(data, checked) <==> d in data && d.location.country == "US" {
        FilterMembers(data, InUS, d);
      }
      FilterIsSubsequence(data, InUS);
      forall d ensures multiset(CheckboxData(data, checked))[d] == if InUS(d) then multiset(data)[d] else 0 {
        FilterCount(data, InUS, d);
      }
    }
  }

  /** Rows picked in order out of `ys` have their cities picked in the same order out of `ys`' cities. */
  lemma CitiesOfSubsequence(xs: seq<Elem>, ys: seq<Elem>)
    requires IsSubsequence(xs, ys)
    ensures IsSubsequence(Cities(xs), Cities(ys))
  {
    var idx :| SubsequenceAt(xs, ys, idx);
    assert SubsequenceAt(Cities(xs), Cities(ys), idx);
  }

  /** When the cities of the data are unique, so are those of the rows the checkbox selects. */
  lemma CheckboxDataUniqueCities(data: seq<Elem>, checked: bool)
    requires Distinct(Cities(data))
    ensures Distinct(Cities(CheckboxData(data, checked)))
  {
    if checked {
      FilterIsSubsequence(data, InUS);
      CitiesOfSubsequence(Filter(data, InUS), data);
      SubsequenceDistinct(Cities(Filter(data, InUS)), Cities(data));
    }
  }

  /** With unique cities, the city of a row outside the US is not among the US rows' cities. */
  lemma NonUSCityLeavesUSRows(data: seq<Elem>, d: Elem)
    requires Distinct(Cities(data))
    requires d in data && !InUS(d)
    ensures d.location.city !in Cities(CheckboxData(data, true))
  {
    var rows := CheckboxData(data, true);
    if d.location.city in Cities(rows) {
      var i :| 0 <= i < |rows| && Cities(rows)[i] == d.location.city;
      FilterMembers(data, InUS, rows[i]);
      assert false;
    }
  }

  /** The script's global state: the loaded rows, the two scales and the bars. */
  class Chart {
    /** `let data: IElem[]`: `undefined` until the JSON has loaded. */
    var data: Option<seq<Elem>>
    var xDomain: XDomain
    /** The band scale's domain. */
    var yDomain: seq<string>
    const rects: Pool<string, Elem, BarAttrs>

    /** The bar chart is keyed by city, so the loaded rows carry unique cities. */
    ghost predicate Valid()
      reads this, rects
    {
      && rects.Valid()
      && (data.Some? ==> Distinct(Cities(data.value)))
    }

    /** The bars are exactly one per row, keyed by its city and bound to it. */
    ghost predicate Shows(items: seq<Elem>)
      reads this, rects
    {
      && rects.elements.Keys == Elements(Cities(items))
      && forall i :: 0 <= i < |items| ==>
           items[i].location.city in rects.elements && rects.elements[items[i].location.city].datum == items[i]
    }

    /** Before loading: no data, no bar, the default domains of `d3.scaleLinear` and `d3.scaleBand`. */
    constructor ()
      ensures Valid() && fresh(rects)
      ensures data == None && rects.elements == map[]
      ensures xDomain == XDomain(0.0, Some(1.0)) && yDomain == []
    {
      data := None;
      xDomain := XDomain(0.0, Some(1.0));
      yDomain := [];
      rects := new Pool();
    }

    /**
     * `update(new_data)`: x spans `[0, highest temperature]`, the bands are
     * the cities in order, and the bars are joined by city: a city kept keeps
     * its bar, a new city gets a bar at `x = 0`, a city gone loses its bar.
     */
    method Update(newData: seq<Elem>) returns (rect: seq<Element<Elem, BarAttrs>>)
      requires Valid()
      requires Distinct(Cities(newData))
      modifies this`xDomain, this`yDomain, rects
      ensures Valid()
      ensures xDomain == XDomain(0.0, Max(Temperatures(newData)))
      ensures yDomain == Cities(newData)
      ensures Reconciled(old(rects.elements), old(rects.nextId), rects.elements,
                         Cities(newData), newData, EnterBars(|newData|), rect)
      ensures Shows(newData)
      ensures KeepsIdentity(old(rects.elements), old(rects.nextId), rects.elements)
      ensures KeepsAttrs(old(rects.elements), rects.elements, BarEnter)
    {
      xDomain := XDomain(0.0, Max(Temperatures(newData)));
      yDomain := Cities(newData);
      rect := rects.Join(Cities(newData), newData, EnterBars(|newData|));
      ReconciledKeepsIdentity(old(rects.elements), old(rects.nextId), rects.elements,
                              Cities(newData), newData, EnterBars(|newData|), rect);
      ReconciledKeepsAttrs(old(rects.elements), old(rects.nextId), rects.elements,
                           Cities(newData), newData, EnterBars(|newData|), rect, BarEnter);
    }

    /** The JSON callback: nothing happens without a result; otherwise store it and render it. */
    method OnJsonLoaded(json: Option<seq<Elem>>)
      requires Valid()
      requires json.Some? ==> Distinct(Cities(json.value))
      modifies this, rects
      ensures Valid()
      ensures json.None? ==> data == old(data) && xDomain == old(xDomain) && yDomain == old(yDomain)
      ensures json.None? ==> rects.elements == old(rects.elements)
      ensures json.Some? ==> data == json && yDomain == Cities(json.value) && Shows(json.value)
      ensures json.Some? ==> xDomain == XDomain(0.0, Max(Temperatures(json.value)))
      ensures json.Some? ==> KeepsIdentity(old(rects.elements), old(rects.nextId), rects.elements)
      ensures json.Some? ==> KeepsAttrs(old(rects.elements), rects.elements, BarEnter)
    {
      if json.None? {
        return;
      }
      data := json;
      var _ := Update(json.value);
    }

    /**
     * The `#filter-us-only` change. Before the data has loaded the handler
     * fails before changing anything (`ok` is false); otherwise the chart is
     * updated with the rows `CheckboxData` chooses, and `data` is untouched.
     */
    method OnFilterUsOnlyChange(checked: bool) returns (ok: bool)
      requires Valid()
      modifies this`xDomain, this`yDomain, rects
      ensures Valid()
      ensures ok <==> data.Some?
      ensures !ok ==> xDomain == old(xDomain) && yDomain == old(yDomain) && rects.elements == old(rects.elements)
      ensures ok ==> xDomain == XDomain(0.0, Max(Temperatures(CheckboxData(data.value, checked))))
      ensures ok ==> yDomain == Cities(CheckboxData(data.value, checked))
      ensures ok ==> Shows(CheckboxData(data.value, checked))
      ensures ok ==> KeepsIdentity(old(rects.elements), old(rects.nextId), rects.elements)
      ensures ok ==> KeepsAttrs(old(rects.elements), rects.elements, BarEnter)
    {
      ok := data.Some?;
      if !ok {
        return;
      }
      var rows := CheckboxData(data.value, checked);
      CheckboxDataUniqueCities(data.value, checked);
      var _ := Update(rows);
    }

    /**
     * Checking the box and then unchecking it shows all the rows again, with
     * x refitted to all the temperatures; a US city that had a bar before
     * keeps that bar through both updates, and the bar of a city outside the
     * US, removed by the first update, enters again at `x = 0`.
     */
    method CheckThenUncheck()
      requires Valid()
      requires data.Some?
      modifies this`xDomain, this`yDomain, rects
      ensures Valid()
      ensures xDomain == XDomain(0.0, Max(Temperatures(data.value)))
      ensures yDomain == Cities(data.value) && Shows(data.value)
      ensures forall d :: d in data.value && InUS(d) && d.location.city in old(rects.elements) ==>
                d.location.city in rects.elements &&
                rects.elements[d.location.city].id == old(rects.elements)[d.location.city].id
      ensures forall d :: d in data.value && !InUS(d) ==>
                d.location.city in rects.elements && rects.elements[d.location.city].attrs == BarEnter
    {
      var ok := OnFilterUsOnlyChange(true);
      ghost var middle := rects.elements;
      ok := OnFilterUsOnlyChange(false);
      forall d | d in data.value && InUS(d) && d.location.city in old(rects.elements)
        ensures d.location.city in rects.elements
        ensures rects.elements[d.location.city].id == old(rects.elements)[d.location.city].id
      {
        FilterMembers(data.value, InUS, d);
        var rows := CheckboxData(data.value, true);
        var i :| 0 <= i < |rows| && rows[i] == d;
        assert d.location.city in middle;
        var j :| 0 <= j < |data.value| && data.value[j] == d;
      }
      forall d | d in data.value && !InUS(d)
        ensures d.location.city in rects.elements && rects.elements[d.location.city].attrs == BarEnter
      {
        NonUSCityLeavesUSRows(data.value, d);
      }
    }
  }

}
