/**
  The pricing plans component: it turns each plan from `GET /api/plans` into a
  plan with a feature list, parsing the stored comma-joined feature string,
  and marks some plans as popular.
 */
module PricingPlans {
  import opened Common
  import opened Domain
  import opened Seqs
  import opened Text
  import Plans

  /** The `features` property of a plan object: a string, an array, or anything else. */
  datatype FeaturesValue = FeaturesString(s: string) | FeaturesArray(items: seq<string>) | FeaturesOther

  /** A plan as the component holds it. `popularFlag` is the optional `isPopular` property, false when absent. */
  datatype ClientPlan = ClientPlan(
    id: string,
    name: string,
    price: int,
    currency: string,
    duration: string,
    features: seq<string>,
    isActive: bool,
    popularFlag: bool)

  /** Each piece trimmed. */
  function TrimAll(xs: seq<string>): (r: seq<string>)
    ensures |r| == |xs|
    ensures forall i :: 0 <= i < |xs| ==> r[i] == Trim(xs[i])
  {
    seq(|xs|, i requires 0 <= i < |xs| => Trim(xs[i]))
  }

  /** `s.split(',').map(f => f.trim()).filter(Boolean)`. */
  function ParseFeatureString(s: string): (r: seq<string>)
    ensures forall i :: 0 <= i < |r| ==> r[i] != "" && IsTrimmed(r[i]) && ',' !in r[i]
  {
    var trimmed := TrimAll(Split(s, ','));
    SplitPiecesHaveNoSeparator(s, ',');
    TrimAllKeepsNoSeparator(Split(s, ','), ',');
    Filter(trimmed, (f: string) => f != "")
  }

  /** Trimming pieces without a separator leaves pieces without it. */
  lemma TrimAllKeepsNoSeparator(xs: seq<string>, sep: char)
    requires forall x :: x in xs ==> sep !in x
    ensures forall i :: 0 <= i < |TrimAll(xs)| ==> sep !in TrimAll(xs)[i]
  {
    forall i | 0 <= i < |xs|
      ensures sep !in Trim(xs[i])
    {
      assert xs[i] in xs;
      NoSeparatorInSubstring(xs[i], Trim(xs[i]), sep);
    }
  }

  /** A string that occurs in a separator-free string is separator-free. */
  lemma NoSeparatorInSubstring(s: string, t: string, sep: char)
    requires sep !in s && Contains(s, t)
    ensures sep !in t
  {
    var i :| OccursAt(s, t, i);
    forall k | 0 <= k < |t|
      ensures t[k] != sep
    {
      assert t[k] == s[i + k];
    }
  }

  /** The three cases of the `features` property. */
  function ParseFeatures(v: FeaturesValue): (r: seq<string>)
    ensures v.FeaturesArray? ==> r == v.items
    ensures v.FeaturesOther? ==> r == []
    ensures v.FeaturesString? ==> r == ParseFeatureString(v.s)
  {
    match v
    case FeaturesString(s) => ParseFeatureString(s)
    case FeaturesArray(xs) => xs
    case FeaturesOther => []
  }

  /** Entries a feature list can hold and still survive a join and a parse. */
  predicate PlainFeatures(xs: seq<string>)
  {
    forall i :: 0 <= i < |xs| ==> xs[i] != "" && IsTrimmed(xs[i]) && ',' !in xs[i]
  }

  /** Parsing the comma-join of plain features gives the features back. */
  lemma {:induction false} ParseJoinRoundTrip(xs: seq<string>)
    requires PlainFeatures(xs)
    ensures ParseFeatureString(Join(xs, ',')) == xs
  {
    if |xs| == 0 {
      assert Split("", ',') == [""];
      assert TrimAll([""]) == [""] by {
        TrimOfTrimmed("");
      }
      assert Filter([""], (f: string) => f != "") == [];
    } else {
      SplitJoin(xs, ',');
      forall i | 0 <= i < |xs|
        ensures Trim(xs[i]) == xs[i]
      {
        TrimOfTrimmed(xs[i]);
      }
      assert TrimAll(xs) == xs;
      FilterAll(xs, (f: string) => f != "");
    }
  }

  /** Parsing is idempotent on its own output: a parsed list joined and parsed again is unchanged. */
  lemma ParseIsStable(s: string)
    ensures ParseFeatureString(Join(ParseFeatureString(s), ',')) == ParseFeatureString(s)
  {
    ParseJoinRoundTrip(ParseFeatureString(s));
  }

  /** An entry with a comma in it comes back as two features. */
  lemma CommaInFeatureSplits()
    ensures ParseFeatureString(Join(["a,b"], ',')) == ["a", "b"]
  {
    assert "a,b" == "a" + [','] + "b";
    SplitAtSeparator("a", "b", ',');
    SplitWithoutSeparator("b", ',');
    ParseJoinRoundTrip(["a", "b"]);
    assert Join(["a", "b"], ',') == "a,b";
  }

  /** A plan from the route with its features parsed; every other field is kept. */
  function ParsePlan(p: Plan): (c: ClientPlan)
    ensures c.id == p.id && c.name == p.name && c.price == p.price && c.currency == p.currency
    ensures c.duration == p.duration && c.isActive == p.isActive && !c.popularFlag
    ensures c.features == ParseFeatureString(p.features)
  {
    ClientPlan(p.id, p.name, p.price, p.currency, p.duration, ParseFeatures(FeaturesString(p.features)), p.isActive, false)
  }

  /** The features a plan is created with are the features the component shows. */
  lemma CreatedFeaturesShown(st: Store, req: Plans.PlanRequest, newId: string)
    requires Plans.CreatePlan(st, req, newId).0.Ok?
    requires req.features.FeatureItems? && PlainFeatures(req.features.items)
    ensures ParsePlan(Plans.CreatePlan(st, req, newId).0.data).features == req.features.items
  {
    ParseJoinRoundTrip(req.features.items);
  }

  /** `isPopular`: the flag, or a lower-cased name containing `premium`. */
  predicate IsPopular(c: ClientPlan)
  {
    c.popularFlag || Contains(Lower(c.name), "premium")
  }

  /** The letters of `premium` start at position `i` of the name, each in either case. */
  predicate PremiumAt(name: string, i: int)
  {
    0 <= i && i + 7 <= |name| && forall k :: 0 <= k < 7 ==> LowerChar(name[i + k]) == "premium"[k]
  }

  /** Popular exactly when flagged or when `premium` appears in the name, letter by letter in any case. */
  lemma PopularExactly(c: ClientPlan)
    ensures IsPopular(c) <==> c.popularFlag || exists i :: PremiumAt(c.name, i)
  {
    var low := Lower(c.name);
    forall i
      ensures OccursAt(low, "premium", i) <==> PremiumAt(c.name, i)
    {
      if OccursAt(low, "premium", i) {
        forall k | 0 <= k < 7
          ensures LowerChar(c.name[i + k]) == "premium"[k]
        {
          assert low[i..i + 7][k] == low[i + k];
        }
      }
      if PremiumAt(c.name, i) {
        assert low[i..i + 7] == "premium";
      }
    }
  }

  /** A plan whose name starts with `Premium`, in any letter case, is popular. */
  lemma PremiumPrefixIsPopular(c: ClientPlan)
    requires |c.name| >= 7 && Lower(c.name[..7]) == "premium"
    ensures IsPopular(c)
  {
    assert Lower(c.name)[..7] == Lower(c.name[..7]);
    assert OccursAt(Lower(c.name), "premium", 0);
  }

  /** Without the flag, a name without `premium` is not popular. */
  lemma PlainNameNotPopular(c: ClientPlan)
    requires !c.popularFlag && forall i :: !OccursAt(Lower(c.name), "premium", i)
    ensures !IsPopular(c)
  {
  }
}
