/**
  The JSON-schema subset that tool inputs and outputs are checked against.

  Registration checks the shape of a schema once (`ValidateShape`); every invocation then checks a
  value against it (`ValidateNode`). Both functions stop at the first problem they meet.
*/
module ToolSchema {
  import opened Json

  datatype Outcome = Accepted | UnsupportedSchema | SchemaMismatch

  const MAX_DEPTH := 32

  predicate IsKeyword(key: string) {
    key in ["type", "required", "properties", "items", "additionalProperties"]
  }

  predicate IsKind(kind: string) {
    kind in ["object", "array", "string", "integer", "number", "boolean", "null"]
  }

  predicate OnlyKeywords(ms: seq<Member>) {
    forall i :: 0 <= i < |ms| ==> IsKeyword(ms[i].key)
  }

  predicate AllStrings(items: seq<Value>) {
    forall i :: 0 <= i < |items| ==> items[i].Str?
  }

  predicate HasStringType(ms: seq<Member>) {
    Has(ms, "type") && Get(ms, "type").Str?
  }

  predicate HasProperties(ms: seq<Member>) {
    Has(ms, "properties") && Get(ms, "properties").Object?
  }

  // The integers a 64-bit signed or unsigned reader accepts.
  predicate IsMachineInteger(v: Value) {
    v.Num? && v.number.Integer? && -0x8000_0000_0000_0000 <= v.number.value < 0x1_0000_0000_0000_0000
  }

  predicate TypeMatches(kind: string, v: Value)
    requires IsKind(kind)
  {
    if kind == "object" then v.Object?
    else if kind == "array" then v.Array?
    else if kind == "string" then v.Str?
    else if kind == "integer" then IsMachineInteger(v)
    else if kind == "number" then v.Num?
    else if kind == "boolean" then v.Bool?
    else v.Null?
  }

  /** The values of each kind; an integer is one that a 64-bit signed or unsigned reader takes. */
  lemma KindsAreExact(v: Value)
    ensures TypeMatches("object", v) <==> v.Object?
    ensures TypeMatches("array", v) <==> v.Array?
    ensures TypeMatches("string", v) <==> v.Str?
    ensures TypeMatches("number", v) <==> v.Num?
    ensures TypeMatches("boolean", v) <==> v.Bool?
    ensures TypeMatches("null", v) <==> v.Null?
    ensures TypeMatches("integer", v) <==>
            exists n :: v == Num(Integer(n)) && -0x8000_0000_0000_0000 <= n <= 0xFFFF_FFFF_FFFF_FFFF
  {
    if v.Num? && v.number.Integer? {
      assert v == Num(Integer(v.number.value));
    }
  }

  /** Every value is of one kind, and an integer also of the kind of numbers. */
  lemma OneKindPerValue(v: Value, a: string, b: string)
    requires IsKind(a) && IsKind(b) && a != b && TypeMatches(a, v) && TypeMatches(b, v)
    ensures {a, b} == {"integer", "number"}
  {
  }

  // ---------------------------------------------------------------------------------------------
  // The shape check
  // ---------------------------------------------------------------------------------------------

  function ValidateShape(schema: Value, depth: nat): Outcome
    decreases schema, 1
  {
    if depth > MAX_DEPTH || !schema.Object? then UnsupportedSchema
    else
      var ms := schema.members;
      if ms == [] then Accepted
      else if !OnlyKeywords(ms) || !HasStringType(ms) || !IsKind(Get(ms, "type").text) then UnsupportedSchema
      else if Has(ms, "required") && !(Get(ms, "required").Array? && AllStrings(Get(ms, "required").items)) then
        UnsupportedSchema
      else if Has(ms, "properties") && !Get(ms, "properties").Object? then UnsupportedSchema
      else
        var properties :=
          if Has(ms, "properties") then ValidateShapes(Get(ms, "properties").members, depth + 1) else Accepted;
        if properties != Accepted then properties
        else
          var items := if Has(ms, "items") then ValidateShape(Get(ms, "items"), depth + 1) else Accepted;
          if items != Accepted then items
          else if Has(ms, "additionalProperties") && !Get(ms, "additionalProperties").Bool? then UnsupportedSchema
          else Accepted
  }

  function ValidateShapes(children: seq<Member>, depth: nat): Outcome
    decreases children, 0
  {
    if children == [] then Accepted
    else
      var first := ValidateShape(children[0].value, depth);
      if first != Accepted then first else ValidateShapes(children[1..], depth)
  }

  // ---------------------------------------------------------------------------------------------
  // The value check
  // ---------------------------------------------------------------------------------------------

  function ValidateNode(schema: Value, v: Value, depth: nat): Outcome
    decreases schema, 0, 0
  {
    if depth > MAX_DEPTH || !schema.Object? then UnsupportedSchema
    else
      var ms := schema.members;
      if ms == [] then Accepted
      else if !OnlyKeywords(ms) || !HasStringType(ms) || !IsKind(Get(ms, "type").text) then UnsupportedSchema
      else
        var kind := Get(ms, "type").text;
        if !TypeMatches(kind, v) then SchemaMismatch
        else if kind == "object" then
          var required :=
            if !Has(ms, "required") then Accepted
            else if !Get(ms, "required").Array? then UnsupportedSchema
            else CheckRequired(Get(ms, "required").items, v.members);
          if required != Accepted then required
          else if Forbidden(ms, v.members) then SchemaMismatch
          else if HasProperties(ms) then ValidateProperties(Get(ms, "properties").members, v.members, depth + 1)
          else Accepted
        else if kind == "array" && Has(ms, "items") then ValidateItems(Get(ms, "items"), v.items, depth + 1)
        else Accepted
  }

  function CheckRequired(keys: seq<Value>, values: seq<Member>): Outcome {
    if keys == [] then Accepted
    else if !keys[0].Str? then UnsupportedSchema
    else if !Has(values, keys[0].text) then SchemaMismatch
    else CheckRequired(keys[1..], values)
  }

  /** The first `n` names are strings that the value has. */
  predicate Present(keys: seq<Value>, values: seq<Member>, n: nat)
    requires n <= |keys|
  {
    forall i :: 0 <= i < n ==> keys[i].Str? && Has(values, keys[i].text)
  }

  /** A list of required names fails at the first that is not a string, or that the value lacks. */
  lemma {:induction false} RequiredFailsAtFirst(keys: seq<Value>, values: seq<Member>, n: nat)
    requires n < |keys| && Present(keys, values, n)
    ensures !keys[n].Str? ==> CheckRequired(keys, values) == UnsupportedSchema
    ensures keys[n].Str? && !Has(values, keys[n].text) ==> CheckRequired(keys, values) == SchemaMismatch
  {
    if n == 0 {
    } else {
      assert forall i :: 0 <= i < n ==> keys[i].Str? && Has(values, keys[i].text);
      assert forall i :: 0 <= i < n - 1 ==> keys[1..][i] == keys[i + 1];
      RequiredFailsAtFirst(keys[1..], values, n - 1);
    }
  }

  predicate Declared(ms: seq<Member>, key: string) {
    HasProperties(ms) && Has(Get(ms, "properties").members, key)
  }

  predicate Forbidden(ms: seq<Member>, values: seq<Member>) {
    && Has(ms, "additionalProperties")
    && Get(ms, "additionalProperties") == Bool(false)
    && exists i :: 0 <= i < |values| && !Declared(ms, values[i].key)
  }

  function ValidateProperties(children: seq<Member>, values: seq<Member>, depth: nat): Outcome
    decreases children, 0, 0
  {
    if children == [] then Accepted
    else
      var first :=
        if Has(values, children[0].key) then ValidateNode(children[0].value, Get(values, children[0].key), depth)
        else Accepted;
      if first != Accepted then first else ValidateProperties(children[1..], values, depth)
  }

  function ValidateItems(schema: Value, items: seq<Value>, depth: nat): Outcome
    decreases schema, 1, |items|
  {
    if items == [] then Accepted
    else
      var first := ValidateNode(schema, items[0], depth);
      if first != Accepted then first else ValidateItems(schema, items[1..], depth)
  }

  // ---------------------------------------------------------------------------------------------
  // What the shape check establishes: every sub-schema is locally supported and at depth <= 32
  // ---------------------------------------------------------------------------------------------

  datatype Step = Property(key: string) | Items

  predicate HasChild(schema: Value, step: Step) {
    && schema.Object?
    && match step
       case Items => Has(schema.members, "items")
       case Property(key) => Declared(schema.members, key)
  }

  function Child(schema: Value, step: Step): Value
    requires HasChild(schema, step)
  {
    match step
    case Items => Get(schema.members, "items")
    case Property(key) => Get(Get(schema.members, "properties").members, key)
  }

  predicate Reaches(schema: Value, path: seq<Step>) {
    path == [] || (HasChild(schema, path[0]) && Reaches(Child(schema, path[0]), path[1..]))
  }

  function Reached(schema: Value, path: seq<Step>): Value
    requires Reaches(schema, path)
  {
    if path == [] then schema else Reached(Child(schema, path[0]), path[1..])
  }

  predicate LocallySupported(schema: Value) {
    schema.Object? && (schema.members == [] || SupportedMembers(schema.members))
  }

  predicate SupportedMembers(ms: seq<Member>) {
    && OnlyKeywords(ms)
    && HasStringType(ms) && IsKind(Get(ms, "type").text)
    && (Has(ms, "required") ==> Get(ms, "required").Array? && AllStrings(Get(ms, "required").items))
    && (Has(ms, "properties") ==> Get(ms, "properties").Object?)
    && (Has(ms, "additionalProperties") ==> Get(ms, "additionalProperties").Bool?)
  }

  ghost predicate SupportedEverywhere(schema: Value, depth: nat) {
    forall path :: Reaches(schema, path) ==>
      depth + |path| <= MAX_DEPTH && LocallySupported(Reached(schema, path))
  }

  lemma {:induction false} ShapesAreAll(children: seq<Member>, depth: nat)
    ensures ValidateShapes(children, depth) == Accepted <==>
            forall i :: 0 <= i < |children| ==> ValidateShape(children[i].value, depth) == Accepted
  {
    if children == [] {
    } else {
      ShapesAreAll(children[1..], depth);
      assert children == [children[0]] + children[1..];
    }
  }

  ghost predicate ChildrenAccepted(schema: Value, depth: nat) {
    forall step :: HasChild(schema, step) ==> ValidateShape(Child(schema, step), depth) == Accepted
  }

  ghost predicate ChildrenSupported(schema: Value, depth: nat) {
    forall step :: HasChild(schema, step) ==> SupportedEverywhere(Child(schema, step), depth)
  }

  /** The two recursive parts of the shape check, together, cover every child. */
  lemma ChildrenAreChecked(schema: Value, depth: nat)
    requires WellFormed(schema) && schema.Object?
    requires Has(schema.members, "properties") ==> Get(schema.members, "properties").Object?
    ensures ChildrenAccepted(schema, depth) <==>
            && (HasProperties(schema.members) ==>
                  ValidateShapes(Get(schema.members, "properties").members, depth) == Accepted)
            && (Has(schema.members, "items") ==> ValidateShape(Get(schema.members, "items"), depth) == Accepted)
  {
    var ms := schema.members;
    assert Has(ms, "items") ==> HasChild(schema, Items) && Child(schema, Items) == Get(ms, "items");
    if HasProperties(ms) {
      var children := Get(ms, "properties").members;
      assert WellFormed(Get(ms, "properties"));
      ShapesAreAll(children, depth);
      forall i | 0 <= i < |children|
        ensures HasChild(schema, Property(children[i].key))
        ensures Child(schema, Property(children[i].key)) == children[i].value
      {
        FindsItself(children, i);
      }
    }
  }

  /** One level of the shape check, without its order. */
  lemma ShapeUnfolds(schema: Value, depth: nat)
    requires WellFormed(schema)
    ensures ValidateShape(schema, depth) == Accepted <==>
            depth <= MAX_DEPTH && LocallySupported(schema) && ChildrenAccepted(schema, depth + 1)
  {
    if LocallySupported(schema) {
      ChildrenAreChecked(schema, depth + 1);
    }
  }

  lemma ChildIsWellFormed(schema: Value, step: Step)
    requires WellFormed(schema) && HasChild(schema, step)
    ensures WellFormed(Child(schema, step))
  {
    if step.Property? {
      assert WellFormed(Get(schema.members, "properties"));
    }
  }

  lemma ReachThroughChild(schema: Value, step: Step, path: seq<Step>)
    requires HasChild(schema, step) && Reaches(Child(schema, step), path)
    ensures Reaches(schema, [step] + path) && Reached(schema, [step] + path) == Reached(Child(schema, step), path)
  {
    assert ([step] + path)[1..] == path;
  }

  lemma SupportedChildren(schema: Value, depth: nat)
    requires SupportedEverywhere(schema, depth)
    ensures ChildrenSupported(schema, depth + 1)
  {
    forall step, path | HasChild(schema, step) && Reaches(Child(schema, step), path)
      ensures depth + 1 + |path| <= MAX_DEPTH && LocallySupported(Reached(Child(schema, step), path))
    {
      ReachThroughChild(schema, step, path);
    }
  }

  lemma SupportedFromChildren(schema: Value, depth: nat)
    requires depth <= MAX_DEPTH && LocallySupported(schema) && ChildrenSupported(schema, depth + 1)
    ensures SupportedEverywhere(schema, depth)
  {
    forall path | Reaches(schema, path)
      ensures depth + |path| <= MAX_DEPTH && LocallySupported(Reached(schema, path))
    {
      if path != [] {
        assert SupportedEverywhere(Child(schema, path[0]), depth + 1);
        assert Reaches(Child(schema, path[0]), path[1..]);
      }
    }
  }

  lemma {:induction false} ChildrenAgree(schema: Value, depth: nat)
    requires WellFormed(schema)
    ensures ChildrenAccepted(schema, depth) <==> ChildrenSupported(schema, depth)
    decreases schema, 0
  {
    forall step | HasChild(schema, step)
      ensures ValidateShape(Child(schema, step), depth) == Accepted <==> SupportedEverywhere(Child(schema, step), depth)
    {
      ChildIsWellFormed(schema, step);
      ShapeMeansSupportedEverywhere(Child(schema, step), depth);
    }
  }

  /**
    The shape check accepts a schema exactly when every sub-schema it contains, along any path of
    properties and items, is locally supported and no deeper than the limit.
  */
  lemma {:induction false} ShapeMeansSupportedEverywhere(schema: Value, depth: nat)
    requires WellFormed(schema)
    ensures ValidateShape(schema, depth) == Accepted <==> SupportedEverywhere(schema, depth)
    decreases schema, 1
  {
    ShapeUnfolds(schema, depth);
    ChildrenAgree(schema, depth + 1);
    if SupportedEverywhere(schema, depth) {
      SupportedChildren(schema, depth);
      assert Reaches(schema, []) && Reached(schema, []) == schema;
    }
    if ValidateShape(schema, depth) == Accepted {
      SupportedFromChildren(schema, depth);
    }
  }

  // ---------------------------------------------------------------------------------------------
  // What the value check establishes
  // ---------------------------------------------------------------------------------------------

  /** The order-free meaning of a supported schema. */
  ghost predicate Satisfies(schema: Value, v: Value)
    decreases schema
  {
    && schema.Object?
    && var ms := schema.members;
       ms != [] ==>
         && HasStringType(ms) && IsKind(Get(ms, "type").text)
         && TypeMatches(Get(ms, "type").text, v)
         && (v.Object? ==>
               && PresentWhenRequired(ms, v.members)
               && DeclaredWhenClosed(ms, v.members)
               && forall k :: Declared(ms, k) && Has(v.members, k) ==>
                    Satisfies(Get(Get(ms, "properties").members, k), Get(v.members, k)))
         && (v.Array? && Has(ms, "items") ==>
               forall i :: 0 <= i < |v.items| ==> Satisfies(Get(ms, "items"), v.items[i]))
  }

  ghost predicate PresentWhenRequired(ms: seq<Member>, values: seq<Member>) {
    Has(ms, "required") && Get(ms, "required").Array? ==>
      forall k :: Str(k) in Get(ms, "required").items ==> Has(values, k)
  }

  ghost predicate DeclaredWhenClosed(ms: seq<Member>, values: seq<Member>) {
    Has(ms, "additionalProperties") && Get(ms, "additionalProperties") == Bool(false) ==>
      forall k :: Has(values, k) ==> Declared(ms, k)
  }

  lemma {:induction false} RequiredIsPresence(keys: seq<Value>, values: seq<Member>)
    requires AllStrings(keys)
    ensures CheckRequired(keys, values) != UnsupportedSchema
    ensures CheckRequired(keys, values) == Accepted <==> forall k :: Str(k) in keys ==> Has(values, k)
  {
    if keys == [] {
    } else {
      RequiredIsPresence(keys[1..], values);
      assert keys == [keys[0]] + keys[1..];
      assert Str(keys[0].text) in keys;
    }
  }

  lemma ForbiddenIsUndeclared(ms: seq<Member>, values: seq<Member>)
    requires DistinctKeys(values)
    ensures Forbidden(ms, values) <==> !DeclaredWhenClosed(ms, values)
  {
    forall i | 0 <= i < |values| ensures Has(values, values[i].key) {
      FindsItself(values, i);
    }
    forall k | Has(values, k) ensures exists i :: 0 <= i < |values| && values[i].key == k {
      assert values[Find(values, k)].key == k;
    }
  }

  /** For one child: the check never complains about the schema and agrees with its meaning. */
  ghost predicate Exact(schema: Value, v: Value, depth: nat) {
    && ValidateNode(schema, v, depth) != UnsupportedSchema
    && (ValidateNode(schema, v, depth) == Accepted <==> Satisfies(schema, v))
  }

  lemma {:induction false} ItemsAreAll(schema: Value, items: seq<Value>, depth: nat)
    requires forall i :: 0 <= i < |items| ==> Exact(schema, items[i], depth)
    ensures ValidateItems(schema, items, depth) != UnsupportedSchema
    ensures ValidateItems(schema, items, depth) == Accepted <==>
            forall i :: 0 <= i < |items| ==> Satisfies(schema, items[i])
    decreases |items|
  {
    if items == [] {
    } else {
      assert Exact(schema, items[0], depth);
      ItemsAreAll(schema, items[1..], depth);
      assert items == [items[0]] + items[1..];
    }
  }

  lemma {:induction false} PropertiesAreAll(children: seq<Member>, values: seq<Member>, depth: nat)
    requires forall i :: 0 <= i < |children| && Has(values, children[i].key) ==>
               Exact(children[i].value, Get(values, children[i].key), depth)
    ensures ValidateProperties(children, values, depth) != UnsupportedSchema
    ensures ValidateProperties(children, values, depth) == Accepted <==>
            forall i :: 0 <= i < |children| && Has(values, children[i].key) ==>
              Satisfies(children[i].value, Get(values, children[i].key))
    decreases |children|
  {
    if children == [] {
    } else {
      assert Has(values, children[0].key) ==> Exact(children[0].value, Get(values, children[0].key), depth);
      PropertiesAreAll(children[1..], values, depth);
      assert children == [children[0]] + children[1..];
    }
  }

  /**
    A schema that passed the shape check never makes the value check complain about the schema, and
    the value check accepts exactly the values that satisfy it.
  */
  lemma {:induction false} NodeIsExact(schema: Value, v: Value, depth: nat)
    requires WellFormed(schema) && WellFormed(v)
    requires ValidateShape(schema, depth) == Accepted
    ensures Exact(schema, v, depth)
    decreases schema, 2
  {
    ShapeUnfolds(schema, depth);
    if schema.members != [] {
      if v.Object? {
        ObjectIsExact(schema, v, depth);
      } else if v.Array? {
        ArrayIsExact(schema, v, depth);
      }
    }
  }

  lemma {:induction false} ObjectIsExact(schema: Value, v: Value, depth: nat)
    requires WellFormed(schema) && WellFormed(v) && v.Object? && ValidateShape(schema, depth) == Accepted
    requires schema.members != [] && SupportedMembers(schema.members)
    ensures Exact(schema, v, depth)
    decreases schema, 1
  {
    var ms := schema.members;
    ForbiddenIsUndeclared(ms, v.members);
    if Has(ms, "required") {
      RequiredIsPresence(Get(ms, "required").items, v.members);
    }
    PropertiesAreExact(schema, v, depth);
  }

  lemma {:induction false} ArrayIsExact(schema: Value, v: Value, depth: nat)
    requires WellFormed(schema) && WellFormed(v) && v.Array? && ValidateShape(schema, depth) == Accepted
    requires schema.members != [] && SupportedMembers(schema.members)
    ensures Exact(schema, v, depth)
    decreases schema, 1
  {
    var ms := schema.members;
    if Has(ms, "items") {
      var items := Get(ms, "items");
      ShapeUnfolds(schema, depth);
      assert HasChild(schema, Items) && Child(schema, Items) == items;
      forall i | 0 <= i < |v.items| ensures Exact(items, v.items[i], depth + 1) {
        NodeIsExact(items, v.items[i], depth + 1);
      }
      ItemsAreAll(items, v.items, depth + 1);
    }
  }

  lemma {:induction false} PropertiesAreExact(schema: Value, v: Value, depth: nat)
    requires WellFormed(schema) && WellFormed(v) && v.Object?
    requires ValidateShape(schema, depth) == Accepted
    ensures HasProperties(schema.members) ==>
              var children := Get(schema.members, "properties").members;
              && ValidateProperties(children, v.members, depth + 1) != UnsupportedSchema
              && (ValidateProperties(children, v.members, depth + 1) == Accepted <==>
                  forall k :: Declared(schema.members, k) && Has(v.members, k) ==>
                    Satisfies(Get(children, k), Get(v.members, k)))
    decreases schema, 0
  {
    var ms := schema.members;
    if HasProperties(ms) {
      var children := Get(ms, "properties").members;
      ShapeUnfolds(schema, depth);
      assert WellFormed(Get(ms, "properties"));
      forall i | 0 <= i < |children|
        ensures Has(children, children[i].key) && Get(children, children[i].key) == children[i].value
        ensures Has(v.members, children[i].key) ==> Exact(children[i].value, Get(v.members, children[i].key), depth + 1)
      {
        FindsItself(children, i);
        assert HasChild(schema, Property(children[i].key));
        if Has(v.members, children[i].key) {
          NodeIsExact(children[i].value, Get(v.members, children[i].key), depth + 1);
        }
      }
      PropertiesAreAll(children, v.members, depth + 1);
      forall k | Has(children, k) ensures children[Find(children, k)].key == k {}
    }
  }
}
