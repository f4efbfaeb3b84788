/** The analyzer: locations keyed by name in insertion order, and the
    comparison table built across them by one factor, by one category's
    average, or by overall score. */
module Analyzer {
  import opened Wrappers
  import opened OrderedDict
  import opened Schema
  import opened WellnessErrors
  import opened Locations

  datatype Analyzer = Analyzer(locations: Dict<string, Location>)

  /** One line of a comparison table. */
  datatype Row = Row(location: string, country: string, locationType: string, value: real)

  /** What a comparison reports for each location. */
  datatype Selector = ByFactor(factor: string) | ByCategory(category: string) | Overall

  function NewAnalyzer(): (a: Analyzer)
    ensures |a.locations.entries| == 0
  {
    Analyzer(Empty())
  }

  /** Every entry is keyed by its location's own name, and names are
      distinct. */
  predicate WellKeyed(a: Analyzer) {
    && DistinctKeys(a.locations)
    && forall i :: 0 <= i < |a.locations.entries| ==> a.locations.entries[i].1.name == a.locations.entries[i].0
  }

  /** Every location satisfies the record invariant. */
  predicate AllValid(a: Analyzer) {
    forall i :: 0 <= i < |a.locations.entries| ==> Valid(a.locations.entries[i].1)
  }

  /** The location stored under `name`, or `None`. */
  function GetLocation(a: Analyzer, name: string): (r: Option<Location>)
    ensures r.Some? <==> HasKey(a.locations, name)
    ensures WellKeyed(a) && r.Some? ==> r.value.name == name
  {
    var r := Get(a.locations, name);
    assert WellKeyed(a) && r.Some? ==> r.value.name == name by {
      if WellKeyed(a) && r.Some? {
        var i :| 0 <= i < |a.locations.entries| && a.locations.entries[i] == (name, r.value);
      }
    }
    r
  }

  /** Adds `loc` under its name. Afterwards the name finds `loc`; an earlier
      location of that name is replaced at its original position, a new name
      goes last, and every other name finds what it found before. */
  function AddLocation(a: Analyzer, loc: Location): (r: Analyzer)
    ensures GetLocation(r, loc.name) == Some(loc)
    ensures forall n :: n != loc.name ==> GetLocation(r, n) == GetLocation(a, n)
    ensures HasKey(a.locations, loc.name) ==> Keys(r.locations) == Keys(a.locations)
    ensures !HasKey(a.locations, loc.name) ==> Keys(r.locations) == Keys(a.locations) + [loc.name]
    ensures WellKeyed(a) ==> WellKeyed(r)
    ensures AllValid(a) && Valid(loc) ==> AllValid(r)
  {
    AddLocationFinds(a, loc);
    AddLocationKeepsKeying(a, loc);
    AddLocationKeepsValidity(a, loc);
    Analyzer(Put(a.locations, loc.name, loc))
  }

  /** After storing `loc`, its name finds it and every other name finds what
      it found before. */
  lemma AddLocationFinds(a: Analyzer, loc: Location)
    ensures GetLocation(Analyzer(Put(a.locations, loc.name, loc)), loc.name) == Some(loc)
    ensures forall n :: n != loc.name ==>
              GetLocation(Analyzer(Put(a.locations, loc.name, loc)), n) == GetLocation(a, n)
  {
  }

  /** Storing a location under its own name keeps every entry keyed by its
      name. */
  lemma AddLocationKeepsKeying(a: Analyzer, loc: Location)
    ensures WellKeyed(a) ==> WellKeyed(Analyzer(Put(a.locations, loc.name, loc)))
  {
    var es := Put(a.locations, loc.name, loc).entries;
    if WellKeyed(a) {
      forall i | 0 <= i < |es|
        ensures es[i].1.name == es[i].0
      {
        if es[i] != (loc.name, loc) {
          var j :| 0 <= j < |a.locations.entries| && a.locations.entries[j] == es[i];
        }
      }
    }
  }

  /** Storing a valid location keeps every entry valid. */
  lemma AddLocationKeepsValidity(a: Analyzer, loc: Location)
    ensures AllValid(a) && Valid(loc) ==> AllValid(Analyzer(Put(a.locations, loc.name, loc)))
  {
    var es := Put(a.locations, loc.name, loc).entries;
    if AllValid(a) && Valid(loc) {
      forall i | 0 <= i < |es|
        ensures Valid(es[i].1)
      {
        if es[i] != (loc.name, loc) {
          var j :| 0 <= j < |a.locations.entries| && a.locations.entries[j] == es[i];
          assert Valid(a.locations.entries[j].1);
        }
      }
    }
  }

  /** The value one location contributes under `sel`: the factor's score or
      0, the category average, or the overall score. */
  function RowValue(loc: Location, sel: Selector): (r: Result<real, Error>)
    ensures sel.ByFactor? ==> r == Success(GetScore(loc, sel.factor).GetOr(0.0))
    ensures sel.ByCategory? ==> r == CategoryAverage(loc, sel.category)
    ensures sel.Overall? ==> r == Success(OverallScore(loc))
    ensures Valid(loc) && (sel.ByCategory? ==> IsCategory(sel.category)) ==>
              r.Success? && (r.value == 0.0 || InRange(r.value))
  {
    match sel
    case ByFactor(f) => Success(GetScore(loc, f).GetOr(0.0))
    case ByCategory(c) => CategoryAverage(loc, c)
    case Overall => Success(OverallScore(loc))
  }

  /** One row per entry, in order, carrying the matching value; the first
      value that is a failure aborts the whole table. */
  function Tabulate(es: seq<(string, Location)>, vals: seq<Result<real, Error>>): (r: Result<seq<Row>, Error>)
    requires |vals| == |es|
    ensures r.Success? <==> forall i :: 0 <= i < |vals| ==> vals[i].Success?
    ensures r.Success? ==>
              && |r.value| == |es|
              && forall i :: 0 <= i < |es| ==>
                   r.value[i] == Row(es[i].0, es[i].1.country, es[i].1.locationType, vals[i].value)
  {
    if |es| == 0 then Success([])
    else
      var rest := Tabulate(es[1..], vals[1..]);
      assert forall i :: 1 <= i < |es| ==> es[i] == es[1..][i - 1] && vals[i] == vals[1..][i - 1];
      if vals[0].Failure? then Failure(vals[0].error)
      else if rest.Failure? then Failure(rest.error)
      else Success([Row(es[0].0, es[0].1.country, es[0].1.locationType, vals[0].value)] + rest.value)
  }

  /** The comparison table under `sel`: one row per entry, in order; the
      first location whose value cannot be computed aborts the whole table. */
  function BuildRows(es: seq<(string, Location)>, sel: Selector): (r: Result<seq<Row>, Error>)
    ensures r.Success? <==> forall i :: 0 <= i < |es| ==> RowValue(es[i].1, sel).Success?
    ensures r.Success? ==>
              && |r.value| == |es|
              && forall i :: 0 <= i < |es| ==>
                   r.value[i] == Row(es[i].0, es[i].1.country, es[i].1.locationType,
                                     RowValue(es[i].1, sel).value)
  {
    Tabulate(es, seq(|es|, i requires 0 <= i < |es| => RowValue(es[i].1, sel)))
  }

  /** Appending an entry and its value appends exactly its row. */
  lemma {:induction false} TabulateAppend(es: seq<(string, Location)>, vals: seq<Result<real, Error>>,
                                          e: (string, Location), v: real)
    requires |vals| == |es|
    requires forall i :: 0 <= i < |vals| ==> vals[i].Success?
    ensures Tabulate(es + [e], vals + [Success(v)])
            == Success(Tabulate(es, vals).value + [Row(e.0, e.1.country, e.1.locationType, v)])
  {
    var rows := Tabulate(es + [e], vals + [Success(v)]);
    var expected := Tabulate(es, vals).value + [Row(e.0, e.1.country, e.1.locationType, v)];
    assert rows.Success?;
    assert rows.value == expected;
  }

  /** Compares all locations. With no locations the table is empty whatever
      the selectors; otherwise giving both a factor and a category is
      refused, then an unknown factor or category is refused, and the table
      has one row per location in insertion order. */
  function CompareLocations(a: Analyzer, factor: Option<string>, category: Option<string>)
    : (r: Result<seq<Row>, Error>)
    ensures |a.locations.entries| == 0 ==> r == Success([])
    ensures |a.locations.entries| > 0 && Truthy(factor) && Truthy(category) ==>
              r == Failure(AmbiguousSelector)
    ensures |a.locations.entries| > 0 && Truthy(factor) && !Truthy(category) && !IsFactor(factor.value) ==>
              r == Failure(UnknownFactor(factor.value))
    ensures |a.locations.entries| > 0 && !Truthy(factor) && Truthy(category) && !IsCategory(category.value) ==>
              r == Failure(UnknownCategory(category.value))
    ensures r.Success? ==>
              && |r.value| == |a.locations.entries|
              && forall i :: 0 <= i < |r.value| ==>
                   && r.value[i].location == Keys(a.locations)[i]
                   && r.value[i].country == a.locations.entries[i].1.country
                   && r.value[i].locationType == a.locations.entries[i].1.locationType
    ensures r.Success? && Truthy(factor) ==>
              forall i :: 0 <= i < |r.value| ==>
                r.value[i].value == GetScore(a.locations.entries[i].1, factor.value).GetOr(0.0)
    ensures r.Success? && !Truthy(factor) && Truthy(category) ==>
              forall i :: 0 <= i < |r.value| ==>
                Success(r.value[i].value) == CategoryAverage(a.locations.entries[i].1, category.value)
    ensures r.Success? && !Truthy(factor) && !Truthy(category) ==>
              forall i :: 0 <= i < |r.value| ==>
                r.value[i].value == OverallScore(a.locations.entries[i].1)
    ensures (&& AllValid(a)
             && !(Truthy(factor) && Truthy(category))
             && (Truthy(factor) ==> IsFactor(factor.value))
             && (Truthy(category) ==> IsCategory(category.value))) ==> r.Success?
    ensures AllValid(a) && r.Success? ==>
              forall i :: 0 <= i < |r.value| ==> r.value[i].value == 0.0 || InRange(r.value[i].value)
  {
    var es := a.locations.entries;
    if |es| == 0 then Success([])
    else if Truthy(factor) && Truthy(category) then Failure(AmbiguousSelector)
    else if Truthy(factor) then
      if !IsFactor(factor.value) then Failure(UnknownFactor(factor.value))
      else BuildRows(es, ByFactor(factor.value))
    else if Truthy(category) then
      if !IsCategory(category.value) then Failure(UnknownCategory(category.value))
      else BuildRows(es, ByCategory(category.value))
    else BuildRows(es, Overall)
  }

  /** Appending an entry appends its row to the overall table. */
  lemma BuildRowsAppend(es: seq<(string, Location)>, e: (string, Location))
    ensures BuildRows(es, Overall).Success?
    ensures BuildRows(es + [e], Overall)
            == Success(BuildRows(es, Overall).value + [Row(e.0, e.1.country, e.1.locationType, OverallScore(e.1))])
  {
    var vals := seq(|es|, i requires 0 <= i < |es| => RowValue(es[i].1, Overall));
    var es' := es + [e];
    assert seq(|es'|, i requires 0 <= i < |es'| => RowValue(es'[i].1, Overall))
           == vals + [Success(OverallScore(e.1))];
    TabulateAppend(es, vals, e, OverallScore(e.1));
  }

  /** Adding a location under a new name appends its row to the end of the
      overall comparison and leaves the earlier rows as they were. */
  lemma CompareAfterAddingNewName(a: Analyzer, loc: Location)
    requires !HasKey(a.locations, loc.name)
    ensures CompareLocations(AddLocation(a, loc), None, None)
            == Success(CompareLocations(a, None, None).value
                       + [Row(loc.name, loc.country, loc.locationType, OverallScore(loc))])
  {
    var b := AddLocation(a, loc);
    assert b.locations.entries == a.locations.entries + [(loc.name, loc)];
    BuildRowsAppend(a.locations.entries, (loc.name, loc));
    if |a.locations.entries| == 0 {
      assert b.locations.entries == [(loc.name, loc)];
    }
  }

  /** Rows follow insertion order, a location without the factor reports 0,
      and naming both a factor and a category is refused. */
  lemma CompareByFactorExample()
    ensures var lisbon := Location("Lisbon", "Portugal", "Coastal City", Dict([("Healthcare Quality", 8.0)]), map[]);
            var boulder := Location("Boulder", "USA", "Mountain Town", Dict([]), map[]);
            var a := Analyzer(Dict([("Lisbon", lisbon), ("Boulder", boulder)]));
            && CompareLocations(a, Some("Healthcare Quality"), None)
               == Success([Row("Lisbon", "Portugal", "Coastal City", 8.0),
                           Row("Boulder", "USA", "Mountain Town", 0.0)])
            && CompareLocations(a, Some("Healthcare Quality"), Some("Health & Wellbeing"))
               == Failure(AmbiguousSelector)
  {
    FactorAt(0);
    assert FactorsInOrder[0] == "Healthcare Quality";
    var lisbon := Location("Lisbon", "Portugal", "Coastal City", Dict([("Healthcare Quality", 8.0)]), map[]);
    var boulder := Location("Boulder", "USA", "Mountain Town", Dict([]), map[]);
    var es := [("Lisbon", lisbon), ("Boulder", boulder)];
    assert RowValue(lisbon, ByFactor("Healthcare Quality")) == Success(8.0);
    assert RowValue(boulder, ByFactor("Healthcare Quality")) == Success(0.0);
    var rows := BuildRows(es, ByFactor("Healthcare Quality"));
    assert rows.Success?;
    assert rows.value == [Row("Lisbon", "Portugal", "Coastal City", 8.0), Row("Boulder", "USA", "Mountain Town", 0.0)];
    var a := Analyzer(Dict(es));
    assert Truthy(Some("Healthcare Quality")) && !Truthy(None) && Truthy(Some("Health & Wellbeing"));
    assert |a.locations.entries| == 2;
    assert CompareLocations(a, Some("Healthcare Quality"), None) == rows;
  }
}
