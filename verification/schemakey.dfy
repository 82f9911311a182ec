/**
 * The schema-key algebra of the entity alignment: a set of property names is
 * canonicalised into one string, the names sorted and joined with commas, so
 * that a thing and a SiteWise asset model with the same measurement names get
 * the same key.
 */
module SchemaKey {
  import opened Wrappers
  import opened GoStrings
  import opened Collections
  import opened SiteWiseApi
  import opened IotApi

  const KeySeparator: char := ','

  /** buildKey: the names in byte-wise order, joined with the separator. */
  function BuildKey(names: seq<string>): string
  {
    Join(Sort(names), KeySeparator)
  }

  function SplitKey(key: string): seq<string>
  {
    Split(key, KeySeparator)
  }

  /** The names a key lists. */
  ghost function KeyNames(key: string): set<string>
  {
    set n | n in SplitKey(key)
  }

  /** Names free of the separator, the ones a key can represent faithfully. */
  ghost predicate Representable(names: set<string>)
  {
    forall n :: n in names ==> KeySeparator !in n
  }

  /** The key of a set of names; what buildKey gives for any duplicate-free listing of the set. */
  function KeyOf(names: set<string>): string
  {
    Join(SortedElements(names), KeySeparator)
  }

  /** Listing the same names in any order gives the same key. */
  lemma BuildKeyIgnoresOrder(p: seq<string>, q: seq<string>)
    requires multiset(p) == multiset(q)
    ensures BuildKey(p) == BuildKey(q)
  {
    SortCanonical(p, q);
  }

  /** A duplicate-free listing of a set has the key of the set. */
  lemma BuildKeyOfListing(p: seq<string>, names: set<string>)
    requires Distinct(p)
    requires forall x :: x in p <==> x in names
    ensures BuildKey(p) == KeyOf(names)
  {
    SortOfListing(p, names);
  }

  /** The key lists back exactly the names it was built from. */
  lemma {:induction false} BuildKeyNames(p: seq<string>)
    requires |p| > 0
    requires forall i :: 0 <= i < |p| ==> KeySeparator !in p[i]
    ensures KeyNames(BuildKey(p)) == set n | n in p
  {
    var sorted := Sort(p);
    SortPermutes(p);
    assert forall n :: n in sorted <==> n in multiset(sorted);
    assert forall n :: n in p <==> n in multiset(p);
    assert |sorted| == |multiset(sorted)| == |p|;
    assert forall i :: 0 <= i < |sorted| ==> KeySeparator !in sorted[i] by {
      forall i | 0 <= i < |sorted|
        ensures KeySeparator !in sorted[i]
      {
        assert sorted[i] in multiset(p);
      }
    }
    SplitJoin(sorted, KeySeparator);
  }

  /** The key of a non-empty set of representable names lists back that set. */
  lemma KeyOfNames(names: set<string>)
    requires names != {} && Representable(names)
    ensures KeyNames(KeyOf(names)) == names
  {
    var p := SortedElements(names);
    SortedElementsFacts(names);
    assert forall n :: n in p <==> n in multiset(p);
    assert |p| == |multiset(names)| == |names| > 0;
    forall i | 0 <= i < |p|
      ensures KeySeparator !in p[i]
    {
      assert p[i] in multiset(p);
    }
    SplitJoin(p, KeySeparator);
  }

  /** Two non-empty sets of representable names have the same key exactly when they are equal. */
  lemma KeyOfInjective(a: set<string>, b: set<string>)
    requires a != {} && Representable(a)
    requires b != {} && Representable(b)
    ensures KeyOf(a) == KeyOf(b) <==> a == b
  {
    KeyOfNames(a);
    KeyOfNames(b);
  }

  // ---------------------------------------------------------------------------
  // Keys of things and models
  // ---------------------------------------------------------------------------

  /** The names of a property map whose type string is non-empty. */
  function TypedNames(propMap: map<string, string>): set<string>
  {
    set k | k in propMap && propMap[k] != ""
  }

  /** buildModelKeyFromMap: the key of the names whose type is set (the filter is on the type, not the name). */
  function BuildModelKeyFromMap(propMap: map<string, string>): string
  {
    KeyOf(TypedNames(propMap))
  }

  /** The key lists exactly the names whose type is non-empty. */
  lemma ModelKeyFromMapNames(propMap: map<string, string>)
    requires TypedNames(propMap) != {} && Representable(TypedNames(propMap))
    ensures forall n :: n in KeyNames(BuildModelKeyFromMap(propMap)) <==> n in propMap && propMap[n] != ""
  {
    KeyOfNames(TypedNames(propMap));
  }

  /** Whatever order the map is ranged over, the key is the same. */
  lemma ModelKeyFromMapOfAnyOrder(propMap: map<string, string>, visited: seq<string>)
    requires Distinct(visited)
    requires forall n :: n in visited <==> n in propMap && propMap[n] != ""
    ensures BuildModelKeyFromMap(propMap) == BuildKey(visited)
  {
    BuildKeyOfListing(visited, TypedNames(propMap));
  }

  /** A property counts towards a model's key when it is a named Measurement. */
  predicate IsKeyProperty(p: ModelProperty)
  {
    p.kind == Some(Measurement) && p.name != ""
  }

  /** The names of the key properties, in model order. */
  function MeasurementNames(props: seq<ModelProperty>): (names: seq<string>)
    ensures |names| <= |props|
    ensures forall n :: n in names <==> exists i :: 0 <= i < |props| && IsKeyProperty(props[i]) && props[i].name == n
  {
    if props == [] then []
    else
      var rest := MeasurementNames(props[1..]);
      assert forall i :: 1 <= i < |props| ==> props[i] == props[1..][i - 1];
      if IsKeyProperty(props[0]) then [props[0].name] + rest else rest
  }

  /** buildModelKeyFromModel: the key of the named Measurement properties, or nothing when there is none. */
  function BuildModelKeyFromModel(model: AssetModel): (key: Option<string>)
    ensures key.None? <==> forall i :: 0 <= i < |model.properties| ==> !IsKeyProperty(model.properties[i])
  {
    var names := MeasurementNames(model.properties);
    if |names| > 0 then
      assert names[0] in names;
      Some(BuildKey(names))
    else
      assert forall i :: 0 <= i < |model.properties| && IsKeyProperty(model.properties[i]) ==> model.properties[i].name in names;
      None
  }

  /** The model key lists exactly the names of the named Measurement properties. */
  lemma ModelKeyNames(model: AssetModel)
    requires forall i :: 0 <= i < |model.properties| ==> KeySeparator !in model.properties[i].name
    requires BuildModelKeyFromModel(model).Some?
    ensures forall n :: n in KeyNames(BuildModelKeyFromModel(model).value) <==>
      exists i :: 0 <= i < |model.properties| && IsKeyProperty(model.properties[i]) && model.properties[i].name == n
  {
    var names := MeasurementNames(model.properties);
    forall i | 0 <= i < |names|
      ensures KeySeparator !in names[i]
    {
      assert names[i] in names;
    }
    BuildKeyNames(names);
  }

  /** thingPropertiesMap: property name to type, a later property overwriting an earlier one with the same name. */
  function PropertyTypes(props: seq<ThingProperty>): map<string, string>
  {
    LastWins(seq(|props|, i requires 0 <= i < |props| => (props[i].name, props[i].ptype)))
  }

  /** The map of a thing's properties has exactly their names as keys, each with the type of its last occurrence. */
  lemma PropertyTypesFacts(props: seq<ThingProperty>)
    ensures forall n :: n in PropertyTypes(props) <==> exists i :: 0 <= i < |props| && props[i].name == n
    ensures forall i :: 0 <= i < |props| && (forall j :: i < j < |props| ==> props[j].name != props[i].name) ==>
      PropertyTypes(props)[props[i].name] == props[i].ptype
  {
    var pairs := seq(|props|, i requires 0 <= i < |props| => (props[i].name, props[i].ptype));
    LastWinsDomain(pairs);
    forall n | n in PropertyTypes(props)
      ensures exists i :: 0 <= i < |props| && props[i].name == n
    {
      var i :| 0 <= i < |pairs| && pairs[i].0 == n;
      assert props[i].name == n;
    }
    forall n | exists i :: 0 <= i < |props| && props[i].name == n
      ensures n in PropertyTypes(props)
    {
      var i :| 0 <= i < |props| && props[i].name == n;
      assert pairs[i].0 == n;
    }
    forall i | 0 <= i < |props| && (forall j :: i < j < |props| ==> props[j].name != props[i].name)
      ensures PropertyTypes(props)[props[i].name] == props[i].ptype
    {
      LastWinsValue(pairs, i);
    }
  }

  /** buildModelKeyFromThing. */
  function BuildModelKeyFromThing(thing: Thing): string
  {
    BuildModelKeyFromMap(PropertyTypes(thing.properties))
  }

  // ---------------------------------------------------------------------------
  // Containment
  // ---------------------------------------------------------------------------

  /** isThingContainedInModel: every name of the thing key occurs in the model key. */
  function IsThingContainedInModel(modelKey: string, thingKey: string): (contained: bool)
    ensures contained <==> KeyNames(thingKey) <= KeyNames(modelKey)
  {
    var modelProps := SplitKey(modelKey);
    var thingProps := SplitKey(thingKey);
    assert forall n :: n in KeyNames(thingKey) <==> n in thingProps;
    assert forall n :: n in KeyNames(modelKey) <==> n in modelProps;
    assert (forall i :: 0 <= i < |thingProps| ==> thingProps[i] in modelProps)
      <==> (forall n :: n in thingProps ==> n in modelProps);
    forall i :: 0 <= i < |thingProps| ==> thingProps[i] in modelProps
  }

  /** On keys of name sets, containment is exactly the subset relation. */
  lemma ContainedIffSubset(modelNames: set<string>, thingNames: set<string>)
    requires modelNames != {} && Representable(modelNames)
    requires thingNames != {} && Representable(thingNames)
    ensures IsThingContainedInModel(KeyOf(modelNames), KeyOf(thingNames)) <==> thingNames <= modelNames
  {
    KeyOfNames(modelNames);
    KeyOfNames(thingNames);
  }

  /** Containment is reflexive, holds for ("a,b,c", "a,b") and fails for ("a,b", "a,b,c"). */
  lemma ContainmentExamples(key: string)
    ensures IsThingContainedInModel(key, key)
    ensures IsThingContainedInModel("a,b,c", "a,b")
    ensures !IsThingContainedInModel("a,b", "a,b,c")
  {
    assert SplitKey("a,b,c") == ["a", "b", "c"] by {
      SplitAfterPiece("a", "b,c", KeySeparator);
      SplitAfterPiece("b", "c", KeySeparator);
      SplitWithoutSeparator("c", KeySeparator);
      assert "a,b,c" == "a" + [','] + "b,c";
      assert "b,c" == "b" + [','] + "c";
    }
    assert SplitKey("a,b") == ["a", "b"] by {
      SplitAfterPiece("a", "b", KeySeparator);
      SplitWithoutSeparator("b", KeySeparator);
      assert "a,b" == "a" + [','] + "b";
    }
    assert "c" in KeyNames("a,b,c");
  }

  // ---------------------------------------------------------------------------
  // Names and aliases
  // ---------------------------------------------------------------------------

  const ModelNamePrefix := "Thing Model from ("

  /** composeModelName: the base name for increment 0, the base name and " - <increment>" otherwise. */
  function ComposeModelName(thingName: string, increment: nat): string
  {
    if increment == 0 then ModelNamePrefix + thingName + ")"
    else ModelNamePrefix + thingName + ") - " + Itoa(increment)
  }

  /** Distinct increments give distinct names, so the retry loop never proposes the same name twice. */
  lemma ComposeModelNameInjective(thingName: string, i: nat, j: nat)
    requires ComposeModelName(thingName, i) == ComposeModelName(thingName, j)
    ensures i == j
  {
    var base := ModelNamePrefix + thingName + ")";
    if i > 0 && j > 0 {
      var stem := base + " - ";
      assert ComposeModelName(thingName, i)[|stem|..] == Itoa(i);
      assert ComposeModelName(thingName, j)[|stem|..] == Itoa(j);
      NatToStringInjective(i, j);
    }
  }

  /** PropertyAlias: "/<thing id>/<property name>". */
  function PropertyAlias(thingId: string, propertyName: string): string
  {
    "/" + thingId + "/" + propertyName
  }

  lemma FirstSlashEndsThing(t: string, p: string)
    requires '/' !in t
    ensures PropertyAlias(t, p)[1 + |t|] == '/'
    ensures forall k :: 1 <= k <= |t| ==> PropertyAlias(t, p)[k] != '/'
  {
    var a := PropertyAlias(t, p);
    assert forall k :: 1 <= k <= |t| ==> a[k] == t[k - 1];
  }

  /** An alias determines its thing and property, for thing ids without a slash. */
  lemma PropertyAliasInjective(t1: string, p1: string, t2: string, p2: string)
    requires '/' !in t1 && '/' !in t2
    requires PropertyAlias(t1, p1) == PropertyAlias(t2, p2)
    ensures t1 == t2 && p1 == p2
  {
    var a := PropertyAlias(t1, p1);
    FirstSlashEndsThing(t1, p1);
    FirstSlashEndsThing(t2, p2);
    assert |t1| == |t2|;
    assert t1 == a[1..1 + |t1|] == t2;
    assert p1 == a[2 + |t1|..] == p2;
  }
}
