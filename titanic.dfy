/**
 * The cross-filter controller of the Titanic dashboard (examples/mcv06_final_ts.ts):
 * the passenger rows, the shared filter state, the filtered rows and the
 * per-chart series derived from them.
 */
module Titanic {

  import opened Wrappers
  import opened Seqs

  datatype Sex = Female | Male
  datatype Survival = Died | Survived

  /** The string a sex is stored and compared as. */
  function SexKey(s: Sex): string
  {
    match s
    case Female => "female"
    case Male => "male"
  }

  /** The string a survival outcome is stored and compared as. */
  function SurvivalKey(s: Survival): string
  {
    match s
    case Died => "0"
    case Survived => "1"
  }

  /** One passenger row (`IPerson`). */
  datatype Person = Person(age: int, fare: real, pclass: string, survived: Survival, sex: Sex)

  /** A pie-chart group (`IPersonGroup`): a category key and its rows. */
  datatype PersonGroup = PersonGroup(key: string, values: seq<Person>)

  /** A histogram bin as produced by `d3.bin`: its bounds and how many rows fall in it. */
  datatype Bin = Bin(x0: real, x1: real, length: nat)

  /** The two selectable fields of the state (`stateAttr`). */
  datatype StateAttr = SelectedSex | SelectedSurvived

  /** The filter part of `IState`. A selection is whatever string the clicked slice carried. */
  datatype Filters = Filters(passengerClass: string, selectedSex: Option<string>, selectedSurvived: Option<string>)

  /** JavaScript truthiness of a string-or-null: `null` and `""` are false. */
  predicate Truthy(v: Option<string>)
  {
    v.Some? && v.value != ""
  }

  /** The callback `filterData` hands to `filter`, one early return per filter. */
  predicate Keep(f: Filters, d: Person)
  {
    if f.passengerClass != "" && d.pclass != f.passengerClass then false
    else if Truthy(f.selectedSex) && SexKey(d.sex) != f.selectedSex.value then false
    else if Truthy(f.selectedSurvived) && SurvivalKey(d.survived) != f.selectedSurvived.value then false
    else true
  }

  function Keeper(f: Filters): Person -> bool
  {
    d => Keep(f, d)
  }

  /** `filterData`: the rows that pass every active filter. */
  function FilterRows(rows: seq<Person>, f: Filters): seq<Person>
  {
    Filter(rows, Keeper(f))
  }

  /** A filter constrains a row only while it is active. */
  predicate MatchesClass(f: Filters, d: Person)
  {
    f.passengerClass == "" || d.pclass == f.passengerClass
  }

  predicate MatchesSex(f: Filters, d: Person)
  {
    !Truthy(f.selectedSex) || SexKey(d.sex) == f.selectedSex.value
  }

  predicate MatchesSurvived(f: Filters, d: Person)
  {
    !Truthy(f.selectedSurvived) || SurvivalKey(d.survived) == f.selectedSurvived.value
  }

  /** No filter is active: no class chosen, no selection. */
  predicate NoActiveFilter(f: Filters)
  {
    f.passengerClass == "" && !Truthy(f.selectedSex) && !Truthy(f.selectedSurvived)
  }

  /**
   * `filterData` keeps a row if and only if the row is in the data and
   * matches every active filter; an inactive filter does not constrain it.
   */
  lemma FilterRowsMembers(rows: seq<Person>, f: Filters, d: Person)
    ensures d in FilterRows(rows, f) <==>
              d in rows && MatchesClass(f, d) && MatchesSex(f, d) && MatchesSurvived(f, d)
  {
    FilterMembers(rows, Keeper(f), d);
  }

  /** The rows kept keep their order and their multiplicity. */
  lemma FilterRowsOrder(rows: seq<Person>, f: Filters)
    ensures IsSubsequence(FilterRows(rows, f), rows)
    ensures forall d :: multiset(FilterRows(rows, f))[d] == if Keep(f, d) then multiset(rows)[d] else 0
  {
    FilterIsSubsequence(rows, Keeper(f));
    forall d ensures multiset(FilterRows(rows, f))[d] == if Keep(f, d) then multiset(rows)[d] else 0 {
      FilterCount(rows, Keeper(f), d);
    }
  }

  /** With no active filter `filterData` returns all the rows. */
  lemma FilterRowsNoFilter(rows: seq<Person>, f: Filters)
    requires NoActiveFilter(f)
    ensures FilterRows(rows, f) == rows
  {
    FilterKeepsAll(rows, Keeper(f));
  }

  /** Filtering again under the same state changes nothing. */
  lemma FilterRowsIdempotent(rows: seq<Person>, f: Filters)
    ensures FilterRows(FilterRows(rows, f), f) == FilterRows(rows, f)
  {
    FilterIdempotent(rows, Keeper(f));
  }

  /** The click toggle: the current value clears the selection, any other value sets it. */
  function Toggle(current: Option<string>, key: string): (r: Option<string>)
    ensures r == None <==> current == Some(key)
    ensures r != None ==> r == Some(key)
  {
    if current == Some(key) then None else Some(key)
  }

  /** Clicking the same slice twice returns a selection that was unset, or set to that slice, to itself. */
  lemma ToggleTwice(current: Option<string>, key: string)
    ensures Toggle(Toggle(current, key), key) == if current == Some(key) then current else None
    ensures current == None ==> Toggle(Toggle(current, key), key) == current
  {
  }

  /** The group of the rows whose category (by `category`) is `key`. */
  function Group(key: string, rows: seq<Person>, category: Person -> string): (g: PersonGroup)
    ensures g.key == key
    ensures forall d :: d in g.values ==> category(d) == key
  {
    PersonGroup(key, Filter(rows, d => category(d) == key))
  }

  function SexOf(d: Person): string
  {
    SexKey(d.sex)
  }

  function SurvivalOf(d: Person): string
  {
    SurvivalKey(d.survived)
  }

  /** The keys of a series of groups, as the keyed join sees them. */
  function GroupKeys(groups: seq<PersonGroup>): (keys: seq<string>)
    ensures |keys| == |groups|
    ensures forall i :: 0 <= i < |groups| ==> keys[i] == groups[i].key
  {
    seq(|groups|, i requires 0 <= i < |groups| => groups[i].key)
  }

  /** The sex pie series of `wrangleData`: always "female" then "male". */
  function SexPieData(filtered: seq<Person>): seq<PersonGroup>
  {
    [Group("female", filtered, SexOf), Group("male", filtered, SexOf)]
  }

  /** The survival pie series of `wrangleData`: always "0" then "1". */
  function SurvivedPieData(filtered: seq<Person>): seq<PersonGroup>
  {
    [Group("0", filtered, SurvivalOf), Group("1", filtered, SurvivalOf)]
  }

  /**
   * Two groups over two keys that every row takes one of: each group holds
   * exactly the rows with its key, in order, and together they hold every row
   * once, so their sizes add up to the number of rows.
   */
  lemma {:induction false} TwoGroupsPartition(a: string, b: string, rows: seq<Person>, category: Person -> string)
    requires a != b
    requires forall d :: d in rows ==> category(d) == a || category(d) == b
    ensures forall d :: d in Group(a, rows, category).values <==> d in rows && category(d) == a
    ensures forall d :: d in Group(b, rows, category).values <==> d in rows && category(d) == b
    ensures IsSubsequence(Group(a, rows, category).values, rows)
    ensures IsSubsequence(Group(b, rows, category).values, rows)
    ensures multiset(Group(a, rows, category).values) + multiset(Group(b, rows, category).values) == multiset(rows)
    ensures |Group(a, rows, category).values| + |Group(b, rows, category).values| == |rows|
  {
    var p := d => category(d) == a;
    var q := d => category(d) == b;
    assert Group(a, rows, category).values == Filter(rows, p);
    assert Group(b, rows, category).values == Filter(rows, q);
    forall d ensures d in Filter(rows, p) <==> d in rows && category(d) == a {
      FilterMembers(rows, p, d);
    }
    forall d ensures d in Filter(rows, q) <==> d in rows && category(d) == b {
      FilterMembers(rows, q, d);
    }
    FilterIsSubsequence(rows, p);
    FilterIsSubsequence(rows, q);
    FilterSplit(rows, p, q);
  }

  /**
   * The sex series has the keys "female", "male" in that order, each group
   * holds exactly the filtered rows of its sex, and the groups split the rows.
   */
  lemma SexPieDataPartition(filtered: seq<Person>)
    ensures GroupKeys(SexPieData(filtered)) == ["female", "male"]
    ensures Distinct(GroupKeys(SexPieData(filtered)))
    ensures forall d :: d in SexPieData(filtered)[0].values <==> d in filtered && d.sex == Female
    ensures forall d :: d in SexPieData(filtered)[1].values <==> d in filtered && d.sex == Male
    ensures multiset(SexPieData(filtered)[0].values) + multiset(SexPieData(filtered)[1].values) == multiset(filtered)
    ensures |SexPieData(filtered)[0].values| + |SexPieData(filtered)[1].values| == |filtered|
  {
    TwoGroupsPartition("female", "male", filtered, SexOf);
    assert forall d: Person :: SexOf(d) == "female" <==> d.sex == Female;
  }

  /**
   * The survival series has the keys "0", "1" in that order, each group
   * holds exactly the filtered rows of its outcome, and the groups split the rows.
   */
  lemma SurvivedPieDataPartition(filtered: seq<Person>)
    ensures GroupKeys(SurvivedPieData(filtered)) == ["0", "1"]
    ensures Distinct(GroupKeys(SurvivedPieData(filtered)))
    ensures forall d :: d in SurvivedPieData(filtered)[0].values <==> d in filtered && d.survived == Died
    ensures forall d :: d in SurvivedPieData(filtered)[1].values <==> d in filtered && d.survived == Survived
    ensures multiset(SurvivedPieData(filtered)[0].values) + multiset(SurvivedPieData(filtered)[1].values) == multiset(filtered)
    ensures |SurvivedPieData(filtered)[0].values| + |SurvivedPieData(filtered)[1].values| == |filtered|
  {
    TwoGroupsPartition("0", "1", filtered, SurvivalOf);
    assert forall d: Person :: SurvivalOf(d) == "0" <==> d.survived == Died;
  }

  /** The label `updateApp` writes for a selection: the value, or "None" when it is falsy. */
  function SelectionLabel(v: Option<string>): (text: string)
    ensures Truthy(v) ==> text == v.value
    ensures !Truthy(v) ==> text == "None"
  {
    if Truthy(v) then v.value else "None"
  }

  /**
   * The labels describe the filter in force: a label other than "None" is a
   * value every filtered row has, and a "None" label (for a selection that is
   * not literally "None") means that selection keeps no row out.
   */
  lemma {:induction false} LabelsDescribeFilter(rows: seq<Person>, f: Filters, d: Person)
    ensures SelectionLabel(f.selectedSex) != "None" && d in FilterRows(rows, f) ==>
              SexKey(d.sex) == SelectionLabel(f.selectedSex)
    ensures SelectionLabel(f.selectedSurvived) != "None" && d in FilterRows(rows, f) ==>
              SurvivalKey(d.survived) == SelectionLabel(f.selectedSurvived)
    ensures SelectionLabel(f.selectedSex) == "None" && f.selectedSex != Some("None") ==>
              (d in FilterRows(rows, f) <==> d in rows && MatchesClass(f, d) && MatchesSurvived(f, d))
    ensures SelectionLabel(f.selectedSurvived) == "None" && f.selectedSurvived != Some("None") ==>
              (d in FilterRows(rows, f) <==> d in rows && MatchesClass(f, d) && MatchesSex(f, d))
  {
    FilterRowsMembers(rows, f, d);
  }

  /** The shared, mutable `state` record (`IState`). */
  class State {
    var data: seq<Person>
    var passengerClass: string
    var selectedSex: Option<string>
    var selectedSurvived: Option<string>

    /** The initial state: no rows and no active filter. */
    constructor ()
      ensures data == [] && passengerClass == ""
      ensures selectedSex == None && selectedSurvived == None
      ensures NoActiveFilter(CurrentFilters())
    {
      data := [];
      passengerClass := "";
      selectedSex := None;
      selectedSurvived := None;
    }

    function CurrentFilters(): Filters
      reads this
    {
      Filters(passengerClass, selectedSex, selectedSurvived)
    }

    /** `state[stateAttr]`. */
    function Selection(attr: StateAttr): Option<string>
      reads this
    {
      match attr
      case SelectedSex => selectedSex
      case SelectedSurvived => selectedSurvived
    }

    /** `filterData()` over the current state. */
    function FilterData(): seq<Person>
      reads this
    {
      FilterRows(data, CurrentFilters())
    }

    /** The CSV callback's assignment of the parsed rows. */
    method SetData(rows: seq<Person>)
      modifies this
      ensures data == rows
      ensures passengerClass == old(passengerClass)
      ensures selectedSex == old(selectedSex) && selectedSurvived == old(selectedSurvived)
    {
      data := rows;
    }

    /**
     * The pie-slice click: the field named by `attr` is cleared when it
     * already holds the slice's key and set to that key otherwise; nothing
     * else changes.
     */
    method ToggleSelection(attr: StateAttr, key: string)
      modifies this
      ensures Selection(attr) == Toggle(old(Selection(attr)), key)
      ensures data == old(data) && passengerClass == old(passengerClass)
      ensures attr == SelectedSex ==> selectedSurvived == old(selectedSurvived)
      ensures attr == SelectedSurvived ==> selectedSex == old(selectedSex)
    {
      match attr
      case SelectedSex =>
        if selectedSex == Some(key) {
          selectedSex := None;
        } else {
          selectedSex := Some(key);
        }
      case SelectedSurvived =>
        if selectedSurvived == Some(key) {
          selectedSurvived := None;
        } else {
          selectedSurvived := Some(key);
        }
    }

    /** The `#passenger-class` change: only the class filter changes. */
    method SetPassengerClass(selected: string)
      modifies this
      ensures passengerClass == selected
      ensures data == old(data)
      ensures selectedSex == old(selectedSex) && selectedSurvived == old(selectedSurvived)
    {
      passengerClass := selected;
    }
  }

}
