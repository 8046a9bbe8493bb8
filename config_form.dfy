/** The feature-toggle button of components/ConfigForm.tsx. */
module ConfigForm {
  import opened Types

  /** `features.filter(f => f !== feature)`. */
  function RemoveAll(features: seq<string>, feature: string): (r: seq<string>)
    ensures feature !in r
    ensures forall f :: f != feature ==> (f in r <==> f in features)
    ensures |r| <= |features|
  {
    if features == [] then []
    else (if features[0] == feature then [] else [features[0]]) + RemoveAll(features[1..], feature)
  }

  /** Filtering distributes over concatenation, so the kept entries stay in their original order. */
  lemma {:induction false} RemoveAllConcat(a: seq<string>, b: seq<string>, feature: string)
    ensures RemoveAll(a + b, feature) == RemoveAll(a, feature) + RemoveAll(b, feature)
    decreases |a|
  {
    if a == [] {
      assert a + b == b;
    } else {
      assert (a + b)[1..] == a[1..] + b;
      RemoveAllConcat(a[1..], b, feature);
    }
  }

  /** Filtering out a feature that is not there changes nothing. */
  lemma {:induction false} RemoveAllAbsent(features: seq<string>, feature: string)
    requires feature !in features
    ensures RemoveAll(features, feature) == features
    decreases |features|
  {
    if features != [] {
      RemoveAllAbsent(features[1..], feature);
    }
  }

  /** Every other feature keeps its number of occurrences; the removed one has none left. */
  lemma {:induction false} RemoveAllCounts(features: seq<string>, feature: string, f: string)
    ensures multiset(RemoveAll(features, feature))[f] == if f == feature then 0 else multiset(features)[f]
    decreases |features|
  {
    if features != [] {
      RemoveAllCounts(features[1..], feature, f);
      assert features == [features[0]] + features[1..];
    }
  }

  /** The list the button hands to `onChange`: without the feature if it was selected, else with it appended. */
  function Toggle(features: seq<string>, feature: string): (r: seq<string>)
    ensures feature in r <==> feature !in features
    ensures forall f :: f != feature ==> (f in r <==> f in features)
  {
    if feature in features then RemoveAll(features, feature) else features + [feature]
  }

  /** Toggling an unselected feature twice restores the list exactly. */
  lemma ToggleAbsentTwice(features: seq<string>, feature: string)
    requires feature !in features
    ensures Toggle(Toggle(features, feature), feature) == features
  {
    RemoveAllConcat(features, [feature], feature);
    RemoveAllAbsent(features, feature);
  }

  /** Toggling a selected feature twice does not in general restore the list: the feature comes back once,
      at the end, and every other feature keeps its order. */
  lemma TogglePresentTwice(features: seq<string>, feature: string)
    requires feature in features
    ensures Toggle(Toggle(features, feature), feature) == RemoveAll(features, feature) + [feature]
  {
  }

  /** The button's `onClick`: no call at all while the form is disabled, else `onChange('megaFeatures', ...)`. */
  function OnFeatureClick(config: SimulationConfig, feature: string, disabled: bool): (call: Option<ConfigChange>)
    ensures call.None? <==> disabled
    ensures call.Some? ==> call.value.Key() == MegaFeatures
    ensures call.Some? ==> call.value == SetMegaFeatures(Toggle(config.megaFeatures, feature))
  {
    if disabled then None else Some(SetMegaFeatures(Toggle(config.megaFeatures, feature)))
  }
}
