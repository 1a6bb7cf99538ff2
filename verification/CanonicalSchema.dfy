/**
  Tool schemas and tool values are stored in canonical form. This module proves that the form is
  immaterial: reordering members at any depth of the schema or of the value changes neither the
  shape check nor the value check.
*/
module CanonicalSchema {
  import opened Json
  import opened ToolSchema

  /** The two member lists bind the same keys to equivalent values. */
  ghost predicate SameBindings(a: seq<Member>, b: seq<Member>) {
    forall k :: BoundAlike(a, b, k)
  }

  ghost predicate BoundAlike(a: seq<Member>, b: seq<Member>, k: string) {
    (Has(a, k) <==> Has(b, k)) && (Has(a, k) ==> Equivalent(Get(a, k), Get(b, k)))
  }

  lemma ObjectsBindAlike(a: Value, b: Value)
    requires Equivalent(a, b) && a.Object?
    ensures b.Object? && SameBindings(a.members, b.members)
  {
    forall k ensures BoundAlike(a.members, b.members, k) {
      assert Has(a.members, k) <==> Has(b.members, k);
    }
  }

  lemma HasSome(ms: seq<Member>)
    ensures ms == [] <==> forall k :: !Has(ms, k)
    ensures OnlyKeywords(ms) <==> forall k :: Has(ms, k) ==> IsKeyword(k)
  {
    forall i | 0 <= i < |ms| ensures Has(ms, ms[i].key) {}
    assert ms != [] ==> Has(ms, ms[0].key);
    forall k | Has(ms, k) ensures ms[Find(ms, k)].key == k {}
  }

  lemma SameKeysSameKeywords(a: seq<Member>, b: seq<Member>)
    requires SameBindings(a, b)
    ensures a == [] <==> b == []
    ensures OnlyKeywords(a) <==> OnlyKeywords(b)
  {
    HasSome(a);
    HasSome(b);
    assert forall k :: BoundAlike(a, b, k);
    assert forall k :: Has(a, k) <==> Has(b, k) by {
      forall k ensures Has(a, k) <==> Has(b, k) {
        assert BoundAlike(a, b, k);
      }
    }
  }

  lemma SupportedMembersAlike(a: seq<Member>, b: seq<Member>)
    requires SameBindings(a, b)
    ensures SupportedMembers(a) <==> SupportedMembers(b)
  {
    SameKeysSameKeywords(a, b);
    assert BoundAlike(a, b, "type");
    assert BoundAlike(a, b, "required");
    assert BoundAlike(a, b, "properties");
    assert BoundAlike(a, b, "additionalProperties");
    if Has(a, "required") && Get(a, "required").Array? {
      AllStringsAlike(Get(a, "required").items, Get(b, "required").items);
    }
  }

  lemma AllStringsAlike(a: seq<Value>, b: seq<Value>)
    requires Equivalent(Array(a), Array(b))
    ensures AllStrings(a) <==> AllStrings(b)
  {
    forall i | 0 <= i < |a| ensures a[i].Str? <==> b[i].Str? {
      assert Equivalent(a[i], b[i]);
    }
  }

  lemma SupportedAlike(a: Value, b: Value)
    requires Equivalent(a, b)
    ensures LocallySupported(a) <==> LocallySupported(b)
  {
    if a.Object? {
      ObjectsBindAlike(a, b);
      SameKeysSameKeywords(a.members, b.members);
      SupportedMembersAlike(a.members, b.members);
    }
  }

  lemma PropertiesAlike(a: seq<Member>, b: seq<Member>)
    requires SameBindings(a, b)
    ensures HasProperties(a) <==> HasProperties(b)
    ensures HasProperties(a) ==> SameBindings(Get(a, "properties").members, Get(b, "properties").members)
  {
    assert BoundAlike(a, b, "properties");
    if HasProperties(a) {
      ObjectsBindAlike(Get(a, "properties"), Get(b, "properties"));
    }
  }

  lemma ChildrenAlike(a: Value, b: Value, step: Step)
    requires Equivalent(a, b)
    ensures HasChild(a, step) <==> HasChild(b, step)
    ensures HasChild(a, step) ==> Equivalent(Child(a, step), Child(b, step))
  {
    if a.Object? {
      ObjectsBindAlike(a, b);
      PropertiesAlike(a.members, b.members);
      assert BoundAlike(a.members, b.members, "items");
      if step.Property? && HasProperties(a.members) {
        assert BoundAlike(Get(a.members, "properties").members, Get(b.members, "properties").members, step.key);
      }
    }
  }

  lemma {:induction false} ReachAlike(a: Value, b: Value, path: seq<Step>)
    requires Equivalent(a, b)
    ensures Reaches(a, path) <==> Reaches(b, path)
    ensures Reaches(a, path) ==> Equivalent(Reached(a, path), Reached(b, path))
    decreases |path|
  {
    if path == [] {
    } else {
      ChildrenAlike(a, b, path[0]);
      if HasChild(a, path[0]) {
        ReachAlike(Child(a, path[0]), Child(b, path[0]), path[1..]);
      }
    }
  }

  /** Reordering members anywhere in a schema does not change the shape check. */
  lemma ShapeIgnoresOrder(a: Value, b: Value, depth: nat)
    requires WellFormed(a) && WellFormed(b) && Equivalent(a, b)
    ensures ValidateShape(a, depth) == ValidateShape(b, depth)
  {
    ShapeMeansSupportedEverywhere(a, depth);
    ShapeMeansSupportedEverywhere(b, depth);
    forall path
      ensures Reaches(a, path) <==> Reaches(b, path)
      ensures Reaches(a, path) ==> (LocallySupported(Reached(a, path)) <==> LocallySupported(Reached(b, path)))
    {
      ReachAlike(a, b, path);
      if Reaches(a, path) {
        SupportedAlike(Reached(a, path), Reached(b, path));
      }
    }
    OnlyOneRejection(a, depth);
    OnlyOneRejection(b, depth);
  }

  lemma {:induction false} OnlyOneRejection(schema: Value, depth: nat)
    ensures ValidateShape(schema, depth) in {Accepted, UnsupportedSchema}
    decreases schema, 1
  {
    if schema.Object? {
      var ms := schema.members;
      if HasProperties(ms) {
        OnlyOneRejections(Get(ms, "properties").members, depth + 1);
      }
      if Has(ms, "items") {
        OnlyOneRejection(Get(ms, "items"), depth + 1);
      }
    }
  }

  lemma {:induction false} OnlyOneRejections(children: seq<Member>, depth: nat)
    ensures ValidateShapes(children, depth) in {Accepted, UnsupportedSchema}
    decreases children, 0
  {
    if children == [] {
    } else {
      OnlyOneRejection(children[0].value, depth);
      OnlyOneRejections(children[1..], depth);
    }
  }

  // ---------------------------------------------------------------------------------------------
  // Values
  // ---------------------------------------------------------------------------------------------

  lemma DeclaredAlike(a: seq<Member>, b: seq<Member>, k: string)
    requires SameBindings(a, b)
    ensures Declared(a, k) <==> Declared(b, k)
    ensures Declared(a, k) ==> Equivalent(Get(Get(a, "properties").members, k), Get(Get(b, "properties").members, k))
  {
    PropertiesAlike(a, b);
    if HasProperties(a) {
      assert BoundAlike(Get(a, "properties").members, Get(b, "properties").members, k);
    }
  }

  lemma StringsAlike(a: seq<Value>, b: seq<Value>, k: string)
    requires Equivalent(Array(a), Array(b))
    ensures Str(k) in a <==> Str(k) in b
  {
    if Str(k) in a {
      var i :| 0 <= i < |a| && a[i] == Str(k);
      assert Equivalent(a[i], b[i]);
    }
    if Str(k) in b {
      var i :| 0 <= i < |b| && b[i] == Str(k);
      assert Equivalent(a[i], b[i]);
    }
  }

  lemma ObjectRulesAlike(a: seq<Member>, b: seq<Member>, v: seq<Member>, w: seq<Member>)
    requires SameBindings(a, b) && SameBindings(v, w)
    ensures PresentWhenRequired(a, v) <==> PresentWhenRequired(b, w)
    ensures DeclaredWhenClosed(a, v) <==> DeclaredWhenClosed(b, w)
  {
    assert BoundAlike(a, b, "required");
    assert BoundAlike(a, b, "additionalProperties");
    forall k
      ensures Has(v, k) <==> Has(w, k)
      ensures Declared(a, k) <==> Declared(b, k)
    {
      assert BoundAlike(v, w, k);
      DeclaredAlike(a, b, k);
    }
    if Has(a, "required") && Get(a, "required").Array? {
      forall k ensures Str(k) in Get(a, "required").items <==> Str(k) in Get(b, "required").items {
        StringsAlike(Get(a, "required").items, Get(b, "required").items, k);
      }
    }
  }

  /** The part of `Satisfies` that looks inside an object. */
  ghost predicate PropertiesSatisfy(ms: seq<Member>, values: seq<Member>) {
    forall k :: Declared(ms, k) && Has(values, k) ==> Satisfies(Get(Get(ms, "properties").members, k), Get(values, k))
  }

  /** The part of `Satisfies` that looks inside an array. */
  ghost predicate ItemsSatisfy(ms: seq<Member>, items: seq<Value>) {
    Has(ms, "items") ==> forall i :: 0 <= i < |items| ==> Satisfies(Get(ms, "items"), items[i])
  }

  lemma {:induction false} PropertiesSatisfyAlike(a: seq<Member>, b: seq<Member>, v: seq<Member>, w: seq<Member>)
    requires SameBindings(a, b) && SameBindings(v, w)
    ensures PropertiesSatisfy(a, v) <==> PropertiesSatisfy(b, w)
    decreases a, 0
  {
    forall k
      ensures Declared(a, k) && Has(v, k) <==> Declared(b, k) && Has(w, k)
      ensures Declared(a, k) && Has(v, k) ==>
                (Satisfies(Get(Get(a, "properties").members, k), Get(v, k)) <==>
                 Satisfies(Get(Get(b, "properties").members, k), Get(w, k)))
    {
      DeclaredAlike(a, b, k);
      assert BoundAlike(v, w, k);
      if Declared(a, k) && Has(v, k) {
        SatisfiesAlike(Get(Get(a, "properties").members, k), Get(Get(b, "properties").members, k),
                       Get(v, k), Get(w, k));
      }
    }
  }

  lemma {:induction false} ItemsSatisfyAlike(a: seq<Member>, b: seq<Member>, v: seq<Value>, w: seq<Value>)
    requires SameBindings(a, b) && Equivalent(Array(v), Array(w))
    ensures ItemsSatisfy(a, v) <==> ItemsSatisfy(b, w)
    decreases a, 0
  {
    assert BoundAlike(a, b, "items");
    if Has(a, "items") {
      forall i | 0 <= i < |v|
        ensures Satisfies(Get(a, "items"), v[i]) <==> Satisfies(Get(b, "items"), w[i])
      {
        SatisfiesAlike(Get(a, "items"), Get(b, "items"), v[i], w[i]);
      }
    }
  }

  lemma TypesAlike(a: seq<Member>, b: seq<Member>, v: Value, w: Value)
    requires SameBindings(a, b) && Equivalent(v, w)
    ensures HasStringType(a) && IsKind(Get(a, "type").text) <==> HasStringType(b) && IsKind(Get(b, "type").text)
    ensures HasStringType(a) && IsKind(Get(a, "type").text) ==>
              (TypeMatches(Get(a, "type").text, v) <==> TypeMatches(Get(b, "type").text, w))
  {
    assert BoundAlike(a, b, "type");
  }

  /** Satisfaction does not depend on member order, in the schema or in the value. */
  lemma {:induction false} SatisfiesAlike(a: Value, b: Value, v: Value, w: Value)
    requires Equivalent(a, b) && Equivalent(v, w)
    ensures Satisfies(a, v) <==> Satisfies(b, w)
    decreases a, 1
  {
    if a.Object? {
      ObjectsBindAlike(a, b);
      var ma, mb := a.members, b.members;
      SameKeysSameKeywords(ma, mb);
      TypesAlike(ma, mb, v, w);
      if ma != [] && v.Object? {
        ObjectsBindAlike(v, w);
        ObjectRulesAlike(ma, mb, v.members, w.members);
        PropertiesSatisfyAlike(ma, mb, v.members, w.members);
        SatisfiesObject(a, v);
        SatisfiesObject(b, w);
      } else if v.Array? {
        ItemsSatisfyAlike(ma, mb, v.items, w.items);
      }
    }
  }

  lemma SatisfiesObject(schema: Value, v: Value)
    requires schema.Object? && schema.members != [] && v.Object?
    ensures Satisfies(schema, v) <==>
            && HasStringType(schema.members) && IsKind(Get(schema.members, "type").text)
            && TypeMatches(Get(schema.members, "type").text, v)
            && PresentWhenRequired(schema.members, v.members)
            && DeclaredWhenClosed(schema.members, v.members)
            && PropertiesSatisfy(schema.members, v.members)
  {
  }

  /**
    Checking canonical forms is checking the originals: for a schema that passed the shape check,
    the value check gives the same answer before and after canonicalisation of both arguments.
  */
  lemma CheckingIsCanonical(schema: Value, v: Value, depth: nat)
    requires WellFormed(schema) && WellFormed(v)
    requires ValidateShape(schema, depth) == Accepted
    ensures ValidateShape(Canonicalize(schema), depth) == Accepted
    ensures ValidateNode(Canonicalize(schema), Canonicalize(v), depth) == ValidateNode(schema, v, depth)
  {
    var s, c := Canonicalize(schema), Canonicalize(v);
    CanonicalIsWellFormed(schema);
    CanonicalIsWellFormed(v);
    CanonicalIsEquivalent(schema);
    CanonicalIsEquivalent(v);
    ShapeIgnoresOrder(s, schema, depth);
    SatisfiesAlike(s, schema, c, v);
    NodeIsExact(schema, v, depth);
    NodeIsExact(s, c, depth);
    assert Exact(schema, v, depth) && Exact(s, c, depth);
  }
}
