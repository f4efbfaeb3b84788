/** The static factor schema: seven wellness categories of three factors
    each, in a fixed order, and the flattened list of all factors. */
module Schema {
  import opened Wrappers
  import opened OrderedDict

  /** Category name to its factor names, in declaration order. */
  const WellnessCategories: Dict<string, seq<string>> := Dict([
    ("Health & Wellbeing",
      ["Healthcare Quality", "Sunlight/Climate", "Mental Health & Happiness"]),
    ("Food & Nutrition",
      ["Food Quality (Natural/Traditional)", "Whole Foods Availability", "Traditional Cuisine"]),
    ("Lifestyle & Activities",
      ["Fitness Opportunities", "Beach/Coastal Access", "Outdoor Recreation"]),
    ("Community & Social",
      ["Family-Friendliness", "Community Cohesion", "Dating Scene/Romance"]),
    ("Economic Factors",
      ["Cost of Living", "Average Salary", "Economic Stability"]),
    ("Infrastructure & Services",
      ["Safety and Security", "Educational Opportunities", "Transportation Options"]),
    ("Culture & Environment",
      ["Nightlife and Entertainment", "Religious Tolerance", "Political Environment"])
  ])

  /** The factor lists of `cats`, concatenated in category order. */
  function Flatten(cats: seq<(string, seq<string>)>): seq<string> {
    if |cats| == 0 then [] else cats[0].1 + Flatten(cats[1..])
  }

  /** A name is in the flattened list exactly when some category lists it. */
  lemma {:induction false} FlattenMembership(cats: seq<(string, seq<string>)>)
    ensures forall f :: f in Flatten(cats) <==> exists i :: 0 <= i < |cats| && f in cats[i].1
  {
    if |cats| > 0 {
      FlattenMembership(cats[1..]);
      assert forall i :: 1 <= i < |cats| ==> cats[i] == cats[1..][i - 1];
    }
  }

  /** Every factor, category by category. */
  const AllFactors: seq<string> := Flatten(WellnessCategories.entries)

  predicate IsFactor(f: string) {
    f in AllFactors
  }

  predicate IsCategory(c: string) {
    HasKey(WellnessCategories, c)
  }

  /** The factors of category `c`, or `None` for an unknown category. */
  function FactorsOf(c: string): (r: Option<seq<string>>)
    ensures r.Some? <==> IsCategory(c)
    ensures r.Some? ==> (c, r.value) in WellnessCategories.entries
    ensures r.Some? ==> forall f :: f in r.value ==> IsFactor(f)
  {
    FlattenMembership(WellnessCategories.entries);
    Get(WellnessCategories, c)
  }

  predicate Distinct(s: seq<string>) {
    forall i, j :: 0 <= i < j < |s| ==> s[i] != s[j]
  }

  /** When the flattened list has no repeats, no name is listed under two
      categories. */
  lemma {:induction false} FlattenDistinctDisjoint(cats: seq<(string, seq<string>)>, f: string, i: int, j: int)
    requires Distinct(Flatten(cats))
    requires 0 <= i < j < |cats|
    requires f in cats[i].1
    ensures f !in cats[j].1
  {
    var rest := Flatten(cats[1..]);
    assert Flatten(cats) == cats[0].1 + rest;
    assert Distinct(rest) by {
      forall a, b | 0 <= a < b < |rest|
        ensures rest[a] != rest[b]
      {
        assert rest[a] == Flatten(cats)[|cats[0].1| + a];
        assert rest[b] == Flatten(cats)[|cats[0].1| + b];
      }
    }
    if i == 0 {
      FlattenMembership(cats[1..]);
      assert cats[j] == cats[1..][j - 1];
      assert f !in rest by {
        var a :| 0 <= a < |cats[0].1| && cats[0].1[a] == f;
        assert Flatten(cats)[a] == f;
        assert forall b :: 0 <= b < |rest| ==> rest[b] == Flatten(cats)[|cats[0].1| + b];
      }
    } else {
      assert cats[i] == cats[1..][i - 1];
      assert cats[j] == cats[1..][j - 1];
      FlattenDistinctDisjoint(cats[1..], f, i - 1, j - 1);
    }
  }

  /** A factor name's length and initial. The 21 names differ in one or the
      other, which is much cheaper to check than comparing them in full. */
  function Signature(name: string): (int, char)
    requires |name| > 0
  {
    (|name|, name[0])
  }

  /** The flattened list, written out: category order, then the order
      within each category. */
  const FactorsInOrder: seq<string> := [
    "Healthcare Quality", "Sunlight/Climate", "Mental Health & Happiness",
    "Food Quality (Natural/Traditional)", "Whole Foods Availability", "Traditional Cuisine",
    "Fitness Opportunities", "Beach/Coastal Access", "Outdoor Recreation",
    "Family-Friendliness", "Community Cohesion", "Dating Scene/Romance",
    "Cost of Living", "Average Salary", "Economic Stability",
    "Safety and Security", "Educational Opportunities", "Transportation Options",
    "Nightlife and Entertainment", "Religious Tolerance", "Political Environment"]

  lemma AllFactorsInOrder()
    ensures AllFactors == FactorsInOrder
  {
  }

  /** The factor at position `i` of the written-out list is a factor. */
  lemma FactorAt(i: int)
    requires 0 <= i < |FactorsInOrder|
    ensures IsFactor(FactorsInOrder[i])
  {
    AllFactorsInOrder();
  }

  lemma FactorsInOrderDistinct()
    ensures forall i, j :: 0 <= i < j < |FactorsInOrder| ==> FactorsInOrder[i] != FactorsInOrder[j]
  {
    var fs := FactorsInOrder;
    var sigs := seq(|fs|, i requires 0 <= i < |fs| => Signature(fs[i]));
    assert sigs == [(18, 'H'), (16, 'S'), (25, 'M'), (34, 'F'), (24, 'W'), (19, 'T'), (21, 'F'),
                    (20, 'B'), (18, 'O'), (19, 'F'), (18, 'C'), (20, 'D'), (14, 'C'), (14, 'A'),
                    (18, 'E'), (19, 'S'), (25, 'E'), (22, 'T'), (27, 'N'), (19, 'R'), (21, 'P')];
  }

  /** `ALL_FACTORS` has 21 pairwise-distinct names. */
  lemma AllFactorsDistinct()
    ensures |AllFactors| == 21
    ensures forall i, j :: 0 <= i < j < |AllFactors| ==> AllFactors[i] != AllFactors[j]
  {
    AllFactorsInOrder();
    FactorsInOrderDistinct();
  }

  /** Each factor belongs to exactly one category. */
  lemma FactorHasOneCategory(f: string)
    requires IsFactor(f)
    ensures exists i :: 0 <= i < |WellnessCategories.entries| && f in WellnessCategories.entries[i].1
    ensures forall i, j ::
              (0 <= i < |WellnessCategories.entries| && 0 <= j < |WellnessCategories.entries|
               && f in WellnessCategories.entries[i].1 && f in WellnessCategories.entries[j].1) ==> i == j
  {
    var cats := WellnessCategories.entries;
    FlattenMembership(cats);
    AllFactorsDistinct();
    forall i, j | 0 <= i < |cats| && 0 <= j < |cats| && f in cats[i].1 && f in cats[j].1
      ensures i == j
    {
      if i < j {
        FlattenDistinctDisjoint(cats, f, i, j);
      } else if j < i {
        FlattenDistinctDisjoint(cats, f, j, i);
      }
    }
  }

  /** Category names are distinct, as the keys of a dictionary literal are. */
  lemma CategoryNamesDistinct()
    ensures DistinctKeys(WellnessCategories)
  {
  }

  /** Every factor name has at least 14 characters, so shorter strings are
      never factors. */
  lemma ShortNamesAreNotFactors(f: string)
    requires |f| < 14
    ensures !IsFactor(f)
  {
    AllFactorsInOrder();
    var fs := FactorsInOrder;
    var lengths := seq(|fs|, i requires 0 <= i < |fs| => |fs[i]|);
    assert lengths == [18, 16, 25, 34, 24, 19, 21, 20, 18, 19, 18, 20, 14, 14, 18, 19, 25, 22, 27, 19, 21];
    assert forall i :: 0 <= i < |fs| ==> |fs[i]| >= 14;
  }
}
