/**
 * The charts of the Titanic dashboard (examples/mcv06_final_ts.ts) and the
 * application that fans every state change out to them: two histograms
 * joined by index, two pie charts joined by group key.
 *
 * `d3.bin` and `d3.pie` are not modelled; the application is given them as
 * a `Layout` of functions. Scale mapping, transitions and SVG drawing are
 * left out: the attributes an element carries are its enter defaults, and
 * the attribute writes after the join are not modelled.
 */
module TitanicCharts {

  import opened Wrappers
  import opened Seqs
  import opened Join
  import opened Titanic

  /** A linear scale's domain `[lo, hi]`. */
  datatype Domain = Domain(lo: real, hi: real)

  /** The attributes of a histogram bar. */
  datatype RectAttrs = RectAttrs(x: real, y: real, width: real, height: real)

  /** An entering bar starts as a zero-size rectangle at the origin. */
  const RectEnter := RectAttrs(0.0, 0.0, 0.0, 0.0)

  /** The enter defaults of a join of `n` bins: every bar starts collapsed. */
  function EnterRects(n: nat): (r: seq<RectAttrs>)
    ensures |r| == n
    ensures forall i :: 0 <= i < n ==> r[i] == RectEnter
  {
    seq(n, i => RectEnter)
  }

  function BinLengths(bins: seq<Bin>): (r: seq<real>)
    ensures |r| == |bins|
    ensures forall i :: 0 <= i < |bins| ==> r[i] == bins[i].length as real
  {
    seq(|bins|, i requires 0 <= i < |bins| => bins[i].length as real)
  }

  /** The histogram's x domain: from 0 to the largest bin count. */
  function CountDomain(bins: seq<Bin>): (d: Domain)
    requires |bins| > 0
    ensures d.lo == 0.0
    ensures exists i :: 0 <= i < |bins| && d.hi == bins[i].length as real
    ensures forall i :: 0 <= i < |bins| ==> bins[i].length as real <= d.hi
  {
    var lengths := BinLengths(bins);
    assert lengths[0] in lengths;
    var m := Max(lengths).value;
    assert forall i :: 0 <= i < |bins| ==> lengths[i] in lengths;
    assert exists i :: 0 <= i < |bins| && m == lengths[i];
    Domain(0.0, m)
  }

  /** A pie slice's angles (`SimpleArcDatum`), in radians. */
  datatype Arc = Arc(startAngle: real, endAngle: real, padAngle: real)

  /** `Math.PI * 2` as a double. */
  const TwoPi: real := 6.283185307179586

  /** `noSlice`: slice 0 enters as the full circle, slice 1 as an empty arc. */
  const NoSlice: seq<Arc> := [Arc(0.0, TwoPi, 0.0), Arc(0.0, 0.0, 0.0)]

  /** A datum bound to a slice: the group and the angles `d3.pie` gave it. */
  datatype PieArcDatum = PieArcDatum(data: PersonGroup, arc: Arc)

  function Pied(groups: seq<PersonGroup>, angles: seq<Arc>): (r: seq<PieArcDatum>)
    requires |angles| == |groups|
    ensures |r| == |groups|
    ensures forall i :: 0 <= i < |groups| ==> r[i].data == groups[i] && r[i].arc == angles[i]
  {
    seq(|groups|, i requires 0 <= i < |groups| => PieArcDatum(groups[i], angles[i]))
  }

  /**
   * The slices that carry the class "selected": those whose key is the
   * chart's own selection `state[stateAttr]`.
   */
  function SelectedKeys(keys: seq<string>, selection: Option<string>): (r: set<string>)
    ensures r <= Elements(keys)
    ensures selection.None? ==> r == {}
  {
    set k | k in keys && selection == Some(k)
  }

  /** At most one slice is marked, and it is the selected one when the selection names a slice. */
  lemma SelectedSliceIsTheSelection(keys: seq<string>, selection: Option<string>)
    ensures |SelectedKeys(keys, selection)| <= 1
    ensures selection.Some? && selection.value in keys ==> SelectedKeys(keys, selection) == {selection.value}
    ensures selection.Some? && selection.value !in keys ==> SelectedKeys(keys, selection) == {}
  {
    if selection.Some? {
      if selection.value in keys {
        assert SelectedKeys(keys, selection) == {selection.value};
      } else {
        assert SelectedKeys(keys, selection) == {};
      }
    } else {
      assert SelectedKeys(keys, selection) == {};
    }
  }

  /** The "selected" test of examples/mcv06_final_ts.ts:193 as written: both charts compare with `selectedSex`. */
  function SelectedAsWritten(f: Filters, key: string): bool
  {
    f.selectedSex == Some(key)
  }

  /**
   * As written, a slice of the survival chart is never marked, even the one
   * the user selected, as long as the sex selection holds a sex key.
   */
  lemma SurvivedSliceNeverMarkedAsWritten(f: Filters, key: string)
    requires key == "0" || key == "1"
    requires f.selectedSurvived == Some(key)
    requires f.selectedSex == None || f.selectedSex == Some("female") || f.selectedSex == Some("male")
    ensures !SelectedAsWritten(f, key)
    ensures key in SelectedKeys(["0", "1"], f.selectedSurvived)
  {
    assert key in ["0", "1"];
  }

  /** `createHistogram`: two linear scales and a bar pool joined by index. */
  class Histogram {
    var xDomain: Domain
    var yDomain: Domain
    const rects: Pool<nat, Bin, RectAttrs>

    ghost predicate Valid()
      reads this, rects
    {
      rects.Valid()
    }

    /**
     * The chart is drawn for `bins`: x spans `[0, largest count]`, y spans the
     * first bin's lower bound through the last bin's upper bound, and the bars
     * are exactly one per bin, bar `i` bound to bin `i`.
     */
    ghost predicate Shows(bins: seq<Bin>)
      reads this, rects
    {
      && |bins| > 0
      && xDomain == CountDomain(bins)
      && yDomain == Domain(bins[0].x0, bins[|bins| - 1].x1)
      && rects.elements.Keys == Elements(Indices(|bins|))
      && forall i :: 0 <= i < |bins| ==> i in rects.elements && rects.elements[i].datum == bins[i]
    }

    /** No bar yet; `d3.scaleLinear` starts with the domain `[0, 1]`. */
    constructor ()
      ensures Valid() && fresh(rects)
      ensures rects.elements == map[]
      ensures xDomain == Domain(0.0, 1.0) && yDomain == Domain(0.0, 1.0)
    {
      rects := new Pool();
      xDomain := Domain(0.0, 1.0);
      yDomain := Domain(0.0, 1.0);
    }

    /**
     * `update(new_data)`: refits x to `[0, largest count]` and y to the first
     * bin's lower bound through the last bin's upper bound, then joins the
     * bins by index; entering bars start collapsed, surplus bars are removed.
     */
    method Update(newData: seq<Bin>) returns (rect: seq<Element<Bin, RectAttrs>>)
      requires Valid()
      requires |newData| > 0
      modifies this, rects
      ensures Valid()
      ensures xDomain == CountDomain(newData)
      ensures yDomain == Domain(newData[0].x0, newData[|newData| - 1].x1)
      ensures Reconciled(old(rects.elements), old(rects.nextId), rects.elements,
                         Indices(|newData|), newData, EnterRects(|newData|), rect)
      ensures Shows(newData)
      ensures KeepsIdentity(old(rects.elements), old(rects.nextId), rects.elements)
    {
      xDomain := CountDomain(newData);
      yDomain := Domain(newData[0].x0, newData[|newData| - 1].x1);
      rect := rects.Join(Indices(|newData|), newData, EnterRects(|newData|));
      ReconciledByIndex(old(rects.elements), old(rects.nextId), rects.elements, newData, EnterRects(|newData|), rect);
      ReconciledKeepsIdentity(old(rects.elements), old(rects.nextId), rects.elements,
                              Indices(|newData|), newData, EnterRects(|newData|), rect);
    }
  }

  /** `createPieChart`: a colour domain, a slice pool keyed by group key, and the "selected" marks. */
  class PieChart {
    const stateAttr: StateAttr
    var colorDomain: seq<string>
    var selected: set<string>
    const paths: Pool<string, PieArcDatum, Arc>

    ghost predicate Valid()
      reads this, paths
    {
      paths.Valid()
    }

    /**
     * The chart is drawn for `groups`: the colour domain is the group keys in
     * order, and the slices are exactly one per group, keyed by the group's
     * key and bound to it.
     */
    ghost predicate Shows(groups: seq<PersonGroup>)
      reads this, paths
    {
      && colorDomain == GroupKeys(groups)
      && paths.elements.Keys == Elements(GroupKeys(groups))
      && forall i :: 0 <= i < |groups| ==> groups[i].key in paths.elements && paths.elements[groups[i].key].datum.data == groups[i]
    }

    constructor (stateAttr: StateAttr)
      ensures Valid() && fresh(paths)
      ensures this.stateAttr == stateAttr
      ensures paths.elements == map[] && colorDomain == [] && selected == {}
    {
      this.stateAttr := stateAttr;
      colorDomain := [];
      selected := {};
      paths := new Pool();
    }

    /**
     * `update(new_data)`, given the angles `d3.pie` computed and the chart's
     * selection: the colour domain becomes the group keys in order, the slices
     * are joined by key (an entering slice `i` starts from `noSlice[i]`, an
     * exiting one is removed), and the selected slice is marked.
     */
    method Update(newData: seq<PersonGroup>, angles: seq<Arc>, selection: Option<string>)
      returns (path: seq<Element<PieArcDatum, Arc>>)
      requires Valid()
      requires |angles| == |newData| <= |NoSlice|
      requires Distinct(GroupKeys(newData))
      modifies this, paths
      ensures Valid()
      ensures colorDomain == GroupKeys(newData)
      ensures Reconciled(old(paths.elements), old(paths.nextId), paths.elements,
                         GroupKeys(newData), Pied(newData, angles), NoSlice[..|newData|], path)
      ensures Shows(newData)
      ensures selected == SelectedKeys(GroupKeys(newData), selection)
      ensures KeepsIdentity(old(paths.elements), old(paths.nextId), paths.elements)
    {
      var keys := GroupKeys(newData);
      colorDomain := keys;
      path := paths.Join(keys, Pied(newData, angles), NoSlice[..|newData|]);
      ReconciledKeepsIdentity(old(paths.elements), old(paths.nextId), paths.elements,
                              keys, Pied(newData, angles), NoSlice[..|newData|], path);
      selected := SelectedKeys(keys, selection);
    }
  }

  /** What the application takes from D3: the two binnings and the pie layout. */
  datatype Layout = Layout(ageBins: seq<Person> -> seq<Bin>,
                           fareBins: seq<Person> -> seq<Bin>,
                           pie: seq<PersonGroup> -> seq<Arc>)

  /** `d3.bin` always yields at least one bin, and `d3.pie` one arc per group. */
  ghost predicate LayoutValid(l: Layout)
  {
    && (forall rows :: |l.ageBins(rows)| > 0)
    && (forall rows :: |l.fareBins(rows)| > 0)
    && (forall groups :: |l.pie(groups)| == |groups|)
  }

  /** The page: the shared state, the four charts and the two selection labels. */
  class App {
    const state: State
    const ageHistogram: Histogram
    const sexPieChart: PieChart
    const fareHistogram: Histogram
    const survivedPieChart: PieChart
    const layout: Layout
    var selectedSexText: string
    var selectedSurvivedText: string

    ghost function Repr(): set<object>
      reads this
    {
      {this, state, ageHistogram, ageHistogram.rects, sexPieChart, sexPieChart.paths,
       fareHistogram, fareHistogram.rects, survivedPieChart, survivedPieChart.paths}
    }

    ghost predicate Valid()
      reads Repr()
    {
      && HistogramsValid() && PieChartsValid()
      && ageHistogram != fareHistogram && ageHistogram.rects != fareHistogram.rects
      && sexPieChart != survivedPieChart && sexPieChart.paths != survivedPieChart.paths
      && sexPieChart.stateAttr == SelectedSex && survivedPieChart.stateAttr == SelectedSurvived
      && LayoutValid(layout)
    }

    ghost predicate HistogramsValid()
      reads ageHistogram, ageHistogram.rects, fareHistogram, fareHistogram.rects
    {
      ageHistogram.Valid() && fareHistogram.Valid()
    }

    ghost predicate PieChartsValid()
      reads sexPieChart, sexPieChart.paths, survivedPieChart, survivedPieChart.paths
    {
      sexPieChart.Valid() && survivedPieChart.Valid()
    }

    /**
     * Every chart is drawn for the series `wrangleData` derives from
     * `filtered` (scale domains and bound elements), each pie marks its own
     * selection, and both labels show their selection.
     */
    ghost predicate Displays(filtered: seq<Person>)
      reads Repr()
    {
      && HistogramsShow(filtered)
      && PieChartsShow(filtered)
      && selectedSexText == SelectionLabel(state.selectedSex)
      && selectedSurvivedText == SelectionLabel(state.selectedSurvived)
    }

    ghost predicate HistogramsShow(filtered: seq<Person>)
      reads ageHistogram, ageHistogram.rects, fareHistogram, fareHistogram.rects
    {
      && ageHistogram.Shows(layout.ageBins(filtered))
      && fareHistogram.Shows(layout.fareBins(filtered))
    }

    ghost predicate PieChartsShow(filtered: seq<Person>)
      reads state, sexPieChart, sexPieChart.paths, survivedPieChart, survivedPieChart.paths
    {
      && sexPieChart.Shows(SexPieData(filtered))
      && survivedPieChart.Shows(SurvivedPieData(filtered))
      && sexPieChart.selected == SelectedKeys(["female", "male"], state.selectedSex)
      && survivedPieChart.selected == SelectedKeys(["0", "1"], state.selectedSurvived)
    }

    /**
     * Across a render, every chart element whose key stays is the same
     * element, and every element that entered is new.
     */
    twostate predicate KeepsChartElements()
      reads ageHistogram.rects, fareHistogram.rects, sexPieChart.paths, survivedPieChart.paths
    {
      && KeepsIdentity(old(ageHistogram.rects.elements), old(ageHistogram.rects.nextId), ageHistogram.rects.elements)
      && KeepsIdentity(old(fareHistogram.rects.elements), old(fareHistogram.rects.nextId), fareHistogram.rects.elements)
      && KeepsIdentity(old(sexPieChart.paths.elements), old(sexPieChart.paths.nextId), sexPieChart.paths.elements)
      && KeepsIdentity(old(survivedPieChart.paths.elements), old(survivedPieChart.paths.nextId),
                       survivedPieChart.paths.elements)
    }

    constructor (layout: Layout)
      requires LayoutValid(layout)
      ensures Valid() && fresh(Repr())
      ensures state.data == [] && NoActiveFilter(state.CurrentFilters())
      ensures state.passengerClass == "" && state.selectedSex == None && state.selectedSurvived == None
      ensures ageHistogram.rects.elements == map[] && fareHistogram.rects.elements == map[]
      ensures sexPieChart.paths.elements == map[] && survivedPieChart.paths.elements == map[]
      ensures ageHistogram.xDomain == Domain(0.0, 1.0) && ageHistogram.yDomain == Domain(0.0, 1.0)
      ensures fareHistogram.xDomain == Domain(0.0, 1.0) && fareHistogram.yDomain == Domain(0.0, 1.0)
      ensures sexPieChart.colorDomain == [] && sexPieChart.selected == {}
      ensures survivedPieChart.colorDomain == [] && survivedPieChart.selected == {}
      ensures this.layout == layout
    {
      var age := new Histogram();
      var fare := new Histogram();
      assert age.Valid() && fare.Valid() && age.rects != fare.rects;
      var sex := new PieChart(SelectedSex);
      var survived := new PieChart(SelectedSurvived);
      assert sex.Valid() && survived.Valid() && sex.paths != survived.paths;
      state := new State();
      ageHistogram, fareHistogram := age, fare;
      sexPieChart, survivedPieChart := sex, survived;
      this.layout := layout;
      selectedSexText := "";
      selectedSurvivedText := "";
    }

    /** `updateApp`: filter, derive every series, update every chart and both labels. */
    method UpdateApp()
      requires Valid()
      modifies Repr() - {state}
      ensures Valid()
      ensures Displays(state.FilterData())
      ensures KeepsChartElements()
    {
      var filtered := state.FilterData();
      UpdateCharts(filtered);
      UpdateLabels();
    }

    /** The two label updates of `updateApp`. */
    method UpdateLabels()
      modifies this`selectedSexText, this`selectedSurvivedText
      ensures selectedSexText == SelectionLabel(state.selectedSex)
      ensures selectedSurvivedText == SelectionLabel(state.selectedSurvived)
      ensures selectedSexText != "None" ==> state.selectedSex == Some(selectedSexText)
      ensures selectedSurvivedText != "None" ==> state.selectedSurvived == Some(selectedSurvivedText)
      ensures unchanged(ageHistogram.rects, fareHistogram.rects, sexPieChart.paths, survivedPieChart.paths)
    {
      selectedSexText := SelectionLabel(state.selectedSex);
      selectedSurvivedText := SelectionLabel(state.selectedSurvived);
    }

    /** The four chart updates of `updateApp`. */
    method UpdateCharts(filtered: seq<Person>)
      requires Valid()
      modifies ageHistogram, ageHistogram.rects, fareHistogram, fareHistogram.rects
      modifies sexPieChart, sexPieChart.paths, survivedPieChart, survivedPieChart.paths
      ensures Valid()
      ensures HistogramsShow(filtered) && PieChartsShow(filtered)
      ensures KeepsChartElements()
    {
      UpdateHistograms(filtered);
      UpdatePieCharts(filtered);
    }

    /** The two histogram updates of `updateApp`. */
    method UpdateHistograms(filtered: seq<Person>)
      requires Valid()
      modifies ageHistogram, ageHistogram.rects, fareHistogram, fareHistogram.rects
      ensures Valid()
      ensures HistogramsShow(filtered)
      ensures KeepsIdentity(old(ageHistogram.rects.elements), old(ageHistogram.rects.nextId), ageHistogram.rects.elements)
      ensures KeepsIdentity(old(fareHistogram.rects.elements), old(fareHistogram.rects.nextId), fareHistogram.rects.elements)
      ensures unchanged(sexPieChart, sexPieChart.paths, survivedPieChart, survivedPieChart.paths)
    {
      var _ := ageHistogram.Update(layout.ageBins(filtered));
      var _ := fareHistogram.Update(layout.fareBins(filtered));
    }

    /** The two pie-chart updates of `updateApp`, each with its own selection. */
    method UpdatePieCharts(filtered: seq<Person>)
      requires Valid()
      modifies sexPieChart, sexPieChart.paths, survivedPieChart, survivedPieChart.paths
      ensures Valid()
      ensures PieChartsShow(filtered)
      ensures KeepsIdentity(old(sexPieChart.paths.elements), old(sexPieChart.paths.nextId), sexPieChart.paths.elements)
      ensures KeepsIdentity(old(survivedPieChart.paths.elements), old(survivedPieChart.paths.nextId),
                            survivedPieChart.paths.elements)
      ensures unchanged(ageHistogram, ageHistogram.rects, fareHistogram, fareHistogram.rects)
    {
      var sexPieData := SexPieData(filtered);
      var survivedPieData := SurvivedPieData(filtered);
      assert GroupKeys(sexPieData) == ["female", "male"];
      assert GroupKeys(survivedPieData) == ["0", "1"];
      var _ := sexPieChart.Update(sexPieData, layout.pie(sexPieData), state.Selection(sexPieChart.stateAttr));
      var _ := survivedPieChart.Update(survivedPieData, layout.pie(survivedPieData),
                                       state.Selection(survivedPieChart.stateAttr));
    }

    /** The CSV callback: store the rows, then render. */
    method OnDataLoaded(rows: seq<Person>)
      requires Valid()
      modifies Repr()
      ensures Valid()
      ensures state.data == rows && state.CurrentFilters() == old(state.CurrentFilters())
      ensures Displays(state.FilterData())
      ensures KeepsChartElements()
    {
      state.SetData(rows);
      UpdateApp();
    }

    /** A click on a slice of the chart for `attr` whose key is `key`: toggle, then render. */
    method OnSliceClick(attr: StateAttr, key: string)
      requires Valid()
      modifies Repr()
      ensures Valid()
      ensures state.Selection(attr) == Toggle(old(state.Selection(attr)), key)
      ensures state.data == old(state.data) && state.passengerClass == old(state.passengerClass)
      ensures attr == SelectedSex ==> state.selectedSurvived == old(state.selectedSurvived)
      ensures attr == SelectedSurvived ==> state.selectedSex == old(state.selectedSex)
      ensures Displays(state.FilterData())
      ensures KeepsChartElements()
    {
      state.ToggleSelection(attr, key);
      UpdateApp();
    }

    /** The `#passenger-class` change: set the class filter, then render. */
    method OnPassengerClassChange(selected: string)
      requires Valid()
      modifies Repr()
      ensures Valid()
      ensures state.passengerClass == selected && state.data == old(state.data)
      ensures state.selectedSex == old(state.selectedSex) && state.selectedSurvived == old(state.selectedSurvived)
      ensures Displays(state.FilterData())
      ensures KeepsChartElements()
    {
      state.SetPassengerClass(selected);
      UpdateApp();
    }
  }

}
