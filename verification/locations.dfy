/** A location and its sparse, validated scores.

    A location carries its identity (name, country, type), an
    insertion-ordered map from factor name to score, and a map from factor
    name to an explanatory note. Updates return a new record; a refused
    update returns an error and no record, so the caller's record is left
    exactly as it was. */
module Locations {
  import opened Wrappers
  import opened OrderedDict
  import opened Schema
  import opened Averages
  import opened WellnessErrors

  datatype Location = Location(
    name: string,
    country: string,
    locationType: string,
    scores: Dict<string, real>,
    notes: map<string, string>)

  /** The range a stored score must lie in, bounds included. */
  predicate InRange(score: real) {
    1.0 <= score <= 10.0
  }

  /** The record invariant: scores are keyed by distinct known factors and lie
      in range, and a note exists only beside a score. */
  predicate Valid(loc: Location) {
    && DistinctKeys(loc.scores)
    && (forall i :: 0 <= i < |loc.scores.entries| ==> IsFactor(loc.scores.entries[i].0))
    && ScoresInRange(loc)
    && (forall f :: f in loc.notes ==> HasKey(loc.scores, f))
  }

  /** Every stored score lies in [1, 10]. */
  predicate ScoresInRange(loc: Location) {
    forall i :: 0 <= i < |loc.scores.entries| ==> InRange(loc.scores.entries[i].1)
  }

  /** A blank location with nothing scored. */
  function NewLocation(name: string, country: string, locationType: string): (loc: Location)
    ensures Valid(loc)
    ensures loc.name == name && loc.country == country && loc.locationType == locationType
    ensures forall f :: GetScore(loc, f) == None
  {
    Location(name, country, locationType, Empty(), map[])
  }

  /** Python truthiness of an optional string: present and non-empty. A
      note is written, and a comparison selector counts as given, only when
      it is truthy. */
  predicate Truthy(note: Option<string>) {
    note.Some? && note.value != ""
  }

  /** Records `score` for `factor`. An unknown factor is refused first, then
      a score outside [1, 10]. On success the score is stored, the note is
      stored only when truthy (a falsy note keeps any earlier one), and every
      other factor keeps its score and note. */
  function AddScore(loc: Location, factor: string, score: real, note: Option<string>): (r: Result<Location, Error>)
    ensures !IsFactor(factor) ==> r == Failure(UnknownFactor(factor))
    ensures IsFactor(factor) && !InRange(score) ==> r == Failure(InvalidScore(score))
    ensures r.Success? <==> IsFactor(factor) && InRange(score)
    ensures r.Success? ==>
              && r.value.name == loc.name
              && r.value.country == loc.country
              && r.value.locationType == loc.locationType
              && GetScore(r.value, factor) == Some(score)
              && (forall g :: g != factor ==> GetScore(r.value, g) == GetScore(loc, g))
              && (Truthy(note) ==> r.value.notes == loc.notes[factor := note.value])
              && (!Truthy(note) ==> r.value.notes == loc.notes)
    ensures r.Success? && Valid(loc) ==> Valid(r.value)
  {
    if !IsFactor(factor) then Failure(UnknownFactor(factor))
    else if !InRange(score) then Failure(InvalidScore(score))
    else
      ScoreUpdateKeepsValid(loc, factor, score, note);
      Success(Updated(loc, factor, score, note))
  }

  /** The record after storing `score` and a truthy `note` for `factor`. */
  function Updated(loc: Location, factor: string, score: real, note: Option<string>): Location {
    loc.(scores := Put(loc.scores, factor, score),
         notes := if Truthy(note) then loc.notes[factor := note.value] else loc.notes)
  }

  /** Storing a known factor's in-range score keeps a valid record valid. */
  lemma ScoreUpdateKeepsValid(loc: Location, factor: string, score: real, note: Option<string>)
    ensures IsFactor(factor) && InRange(score) && Valid(loc) ==> Valid(Updated(loc, factor, score, note))
  {
    if IsFactor(factor) && InRange(score) && Valid(loc) {
      var scores := Updated(loc, factor, score, note).scores;
      var notes := Updated(loc, factor, score, note).notes;
      forall i | 0 <= i < |scores.entries|
        ensures IsFactor(scores.entries[i].0) && InRange(scores.entries[i].1)
      {
        if scores.entries[i] != (factor, score) {
          var j :| 0 <= j < |loc.scores.entries| && loc.scores.entries[j] == scores.entries[i];
        }
      }
      forall f | f in notes
        ensures HasKey(scores, f)
      {
        if f != factor {
          assert Get(scores, f) == Get(loc.scores, f);
        }
      }
    }
  }

  /** Repeating an identical successful call changes nothing. */
  lemma AddScoreIdempotent(loc: Location, factor: string, score: real, note: Option<string>)
    requires IsFactor(factor) && InRange(score)
    ensures AddScore(AddScore(loc, factor, score, note).value, factor, score, note)
            == AddScore(loc, factor, score, note)
  {
    var once := AddScore(loc, factor, score, note).value;
    var twice := AddScore(once, factor, score, note).value;
    assert once.scores == Put(loc.scores, factor, score);
    assert twice.scores == Put(once.scores, factor, score);
    PutIdempotent(loc.scores, factor, score);
    assert twice.notes == once.notes;
    assert twice == once;
  }

  /** The stored score, or `None` when the factor is unscored; never fails. */
  function GetScore(loc: Location, factor: string): (r: Option<real>)
    ensures r.Some? <==> HasKey(loc.scores, factor)
    ensures r.Some? ==> (factor, r.value) in loc.scores.entries
    ensures Valid(loc) && r.Some? ==> IsFactor(factor) && InRange(r.value)
  {
    Get(loc.scores, factor)
  }

  /** `scores.get(f, 0)` for each factor of `fs`, in order. */
  function Lookups(loc: Location, fs: seq<string>): (vs: seq<real>)
    ensures |vs| == |fs|
    ensures forall i :: 0 <= i < |fs| ==> vs[i] == GetScore(loc, fs[i]).GetOr(0.0)
  {
    seq(|fs|, i requires 0 <= i < |fs| => GetScore(loc, fs[i]).GetOr(0.0))
  }

  /** The scores actually recorded for the factors of `fs`, in order,
      skipping unscored factors. */
  function Recorded(loc: Location, fs: seq<string>): (vs: seq<real>)
    ensures |vs| <= |fs|
    ensures ScoresInRange(loc) ==> forall i :: 0 <= i < |vs| ==> InRange(vs[i])
  {
    if |fs| == 0 then []
    else
      var rest := Recorded(loc, fs[1..]);
      match GetScore(loc, fs[0])
      case Some(v) => [v] + rest
      case None => rest
  }

  /** When every stored score lies in [1, 10], the zero placeholders of
      `Lookups` add nothing to the sum and are exactly the entries not
      counted as positive. */
  lemma {:induction false} LookupsAgreeWithRecorded(loc: Location, fs: seq<string>)
    requires ScoresInRange(loc)
    ensures Sum(Lookups(loc, fs)) == Sum(Recorded(loc, fs))
    ensures CountPositive(Lookups(loc, fs)) == |Recorded(loc, fs)|
    ensures AllZero(Lookups(loc, fs)) <==> |Recorded(loc, fs)| == 0
  {
    if |fs| > 0 {
      var vs := Lookups(loc, fs);
      LookupsAgreeWithRecorded(loc, fs[1..]);
      assert vs[1..] == Lookups(loc, fs[1..]);
      var v := GetScore(loc, fs[0]);
      if v.Some? {
        assert Recorded(loc, fs)[0] == v.value;
        assert InRange(v.value) by {
          var j :| 0 <= j < |loc.scores.entries| && loc.scores.entries[j] == (fs[0], v.value);
        }
      } else {
        assert AllZero(vs) <==> AllZero(vs[1..]) by {
          assert forall i :: 1 <= i < |vs| ==> vs[i] == vs[1..][i - 1];
        }
      }
    }
  }

  /** The average score of `category`. An unknown category is refused; with
      no factor of it scored the average is 0; otherwise it is the sum of the
      looked-up scores over the count of positive ones. */
  function CategoryAverage(loc: Location, category: string): (r: Result<real, Error>)
    ensures !IsCategory(category) ==> r == Failure(UnknownCategory(category))
    ensures Valid(loc) && IsCategory(category) ==> r.Success?
    ensures Valid(loc) && IsCategory(category) ==>
              var recorded := Recorded(loc, FactorsOf(category).value);
              && (|recorded| == 0 ==> r.value == 0.0)
              && (|recorded| > 0 ==> r.value == Mean(recorded) && InRange(r.value))
  {
    match FactorsOf(category)
    case None => Failure(UnknownCategory(category))
    case Some(fs) =>
      AverageOfValidLookups(loc, fs);
      AverageOfLookups(Lookups(loc, fs))
  }

  /** On a valid record the averaging step never divides by zero: it gives 0
      when none of `fs` is scored, and otherwise the mean of the recorded
      scores, which lies in [1, 10]. */
  lemma AverageOfValidLookups(loc: Location, fs: seq<string>)
    ensures Valid(loc) ==>
              var recorded := Recorded(loc, fs);
              && (|recorded| == 0 ==> AverageOfLookups(Lookups(loc, fs)) == Success(0.0))
              && (|recorded| > 0 ==>
                    AverageOfLookups(Lookups(loc, fs)) == Success(Mean(recorded)) && InRange(Mean(recorded)))
  {
    if Valid(loc) {
      var recorded := Recorded(loc, fs);
      if |recorded| > 0 {
        AverageOfSomeRecorded(loc, fs);
      } else {
        AverageOfNoneRecorded(loc, fs);
      }
    }
  }

  lemma AverageOfSomeRecorded(loc: Location, fs: seq<string>)
    requires ScoresInRange(loc) && |Recorded(loc, fs)| > 0
    ensures AverageOfLookups(Lookups(loc, fs)) == Success(Mean(Recorded(loc, fs)))
    ensures InRange(Mean(Recorded(loc, fs)))
  {
    LookupsAgreeWithRecorded(loc, fs);
    var vs := Lookups(loc, fs);
    var recorded := Recorded(loc, fs);
    assert !AllZero(vs) && CountPositive(vs) == |recorded|;
    MeanWithin(recorded, 1.0, 10.0);
  }

  lemma AverageOfNoneRecorded(loc: Location, fs: seq<string>)
    requires ScoresInRange(loc) && |Recorded(loc, fs)| == 0
    ensures AverageOfLookups(Lookups(loc, fs)) == Success(0.0)
  {
    LookupsAgreeWithRecorded(loc, fs);
  }

  /** The averaging step itself: 0 when every looked-up value is the zero
      placeholder, otherwise the sum over the count of positive values. */
  function AverageOfLookups(scores: seq<real>): (r: Result<real, Error>)
    ensures AllZero(scores) ==> r == Success(0.0)
    ensures r.Failure? <==> !AllZero(scores) && CountPositive(scores) == 0
  {
    if |scores| == 0 || AllZero(scores) then Success(0.0)
    else if CountPositive(scores) == 0 then Failure(DivisionByZero)
    else Success(Sum(scores) / CountPositive(scores) as real)
  }

  /** The mean of every stored score, or 0 when nothing is scored. */
  function OverallScore(loc: Location): (r: real)
    ensures |loc.scores.entries| == 0 ==> r == 0.0
    ensures |loc.scores.entries| > 0 ==>
              Minimum(Values(loc.scores)) <= r <= Maximum(Values(loc.scores))
    ensures Valid(loc) && |loc.scores.entries| > 0 ==> InRange(r)
  {
    if |loc.scores.entries| == 0 then 0.0
    else
      var vs := Values(loc.scores);
      MeanBetweenExtremes(vs);
      Mean(vs)
  }

  /** Score bounds are inclusive: 1 and 10 are accepted, 0.5 and 10.1 are
      refused, and a name outside the schema is refused. */
  lemma AddScoreBoundaries(loc: Location)
    ensures AddScore(loc, "Healthcare Quality", 1.0, None).Success?
    ensures AddScore(loc, "Healthcare Quality", 10.0, None).Success?
    ensures AddScore(loc, "Healthcare Quality", 0.5, None) == Failure(InvalidScore(0.5))
    ensures AddScore(loc, "Healthcare Quality", 10.1, None) == Failure(InvalidScore(10.1))
    ensures AddScore(loc, "Weather", 5.0, None) == Failure(UnknownFactor("Weather"))
  {
    AllFactorsInOrder();
    assert IsFactor("Healthcare Quality") by {
      assert AllFactors[0] == "Healthcare Quality";
    }
    ShortNamesAreNotFactors("Weather");
  }

  /** Scoring a new location stores exactly that one score. */
  lemma AddScoreExample()
    ensures AddScore(NewLocation("Lisbon", "Portugal", "Coastal City"), "Healthcare Quality", 7.0, Some("WHO rank 12"))
            == Success(Location("Lisbon", "Portugal", "Coastal City",
                                Dict([("Healthcare Quality", 7.0)]),
                                map["Healthcare Quality" := "WHO rank 12"]))
  {
    FactorAt(0);
    assert FactorsInOrder[0] == "Healthcare Quality";
  }

  /** Nothing scored gives 0; one score of 7 gives 7; scores 7 and 3 give 5. */
  lemma OverallScoreExample()
    ensures OverallScore(NewLocation("Lisbon", "Portugal", "Coastal City")) == 0.0
    ensures OverallScore(Location("Lisbon", "Portugal", "Coastal City",
                                  Dict([("Healthcare Quality", 7.0)]), map[])) == 7.0
    ensures OverallScore(Location("Lisbon", "Portugal", "Coastal City",
                                  Dict([("Healthcare Quality", 7.0), ("Sunlight/Climate", 3.0)]), map[])) == 5.0
  {
    assert Sum([7.0]) == 7.0 + Sum([]);
    assert [7.0, 3.0][1..] == [3.0];
    assert Sum([7.0, 3.0]) == 7.0 + Sum([3.0]);
    assert Sum([3.0]) == 3.0 + Sum([]);
    var two := Dict([("Healthcare Quality", 7.0), ("Sunlight/Climate", 3.0)]);
    assert Values(two) == [7.0, 3.0];
  }

  /** Unscored factors are left out of a category's denominator: one score
      of 6 among three factors averages 6, not 2. */
  lemma CategoryAverageExample()
    ensures CategoryAverage(Location("Lisbon", "Portugal", "Coastal City",
                                     Dict([("Healthcare Quality", 6.0)]), map[]),
                            "Health & Wellbeing") == Success(6.0)
  {
    var loc := Location("Lisbon", "Portugal", "Coastal City", Dict([("Healthcare Quality", 6.0)]), map[]);
    var fs := FactorsOf("Health & Wellbeing").value;
    assert fs == ["Healthcare Quality", "Sunlight/Climate", "Mental Health & Happiness"];
    var scores := [6.0, 0.0, 0.0];
    assert Lookups(loc, fs) == scores;
    assert scores[1..] == [0.0, 0.0] && scores[1..][1..] == [0.0];
    assert Sum(scores) == 6.0 && CountPositive(scores) == 1;
    assert !AllZero(scores);
    assert AverageOfLookups(scores) == Success(6.0);
  }
}
