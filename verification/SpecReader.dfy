/** The `$ref` expander behind `spec-reader.py`: an example body for a schema of a
    possibly cyclic OpenAPI document (OpenAPI Specification 2.0, Schema Object and
    Reference Object), with and without its depth cap. */
module SpecReader {
  import opened Wrappers
  import opened Text
  import opened JsonValue

  const MAX_DEPTH: nat := 8

  /* ---- Resolving a reference. ---- */

  /** Follow `parts` down nested objects. */
  function Walk(node: Json, parts: seq<string>): Option<Json>
    decreases |parts|
  {
    if parts == [] then Some(node)
    else if !node.Obj? || !Has(node.fields, parts[0]) then None
    else Walk(Get(node.fields, parts[0]).value, parts[1..])
  }

  /** The schema a reference names; `Null` stands for Python's `None`. */
  function Target(spec: Json, ref: string): Json {
    if !("#/" <= ref) then Null
    else
      match Walk(spec, SplitAll(ref[2..], '/'))
      case None => Null
      case Some(node) => if node.Obj? then node else Null
  }

  method ResolveRef(spec: Json, ref: string) returns (target: Json)
    ensures target == Target(spec, ref)
  {
    if !("#/" <= ref) {
      return Null;
    }
    var node := spec;
    var parts := SplitAll(ref[2..], '/');
    var i := 0;
    while i < |parts|
      invariant 0 <= i <= |parts|
      invariant Walk(spec, parts) == Walk(node, parts[i..])
    {
      if !node.Obj? || !Has(node.fields, parts[i]) {
        return Null;
      }
      node := Get(node.fields, parts[i]).value;
      assert parts[i..][1..] == parts[i + 1..];
      i := i + 1;
    }
    target := if node.Obj? then node else Null;
  }

  /* ---- The termination measure: references not yet followed, then schema size. ---- */

  function Size(j: Json): nat {
    match j
    case Obj(fields) => 1 + FieldsSize(fields)
    case Arr(items) => 1 + ItemsSize(items)
    case _ => 1
  }

  function FieldsSize(fields: seq<Field>): nat {
    if fields == [] then 0 else 1 + Size(fields[0].value) + FieldsSize(fields[1..])
  }

  function ItemsSize(items: seq<Json>): nat {
    if items == [] then 0 else 1 + Size(items[0]) + ItemsSize(items[1..])
  }

  /** Every string under a `$ref` key, at any depth. */
  function AllRefs(j: Json): set<string> {
    match j
    case Obj(fields) => FieldRefs(fields)
    case Arr(items) => ItemRefs(items)
    case _ => {}
  }

  function FieldRefs(fields: seq<Field>): set<string> {
    if fields == [] then {} else
    (if fields[0].name == "$ref" && fields[0].value.Str? then {fields[0].value.s} else {})
    + AllRefs(fields[0].value) + FieldRefs(fields[1..])
  }

  function ItemRefs(items: seq<Json>): set<string> {
    if items == [] then {} else AllRefs(items[0]) + ItemRefs(items[1..])
  }

  lemma {:induction false} MemberIsSmaller(fields: seq<Field>, name: string)
    requires Has(fields, name)
    ensures var value := Get(fields, name).value;
            && Size(value) < FieldsSize(fields) && AllRefs(value) <= FieldRefs(fields)
            && (name == "$ref" && value.Str? ==> value.s in FieldRefs(fields))
  {
    if fields[0].name != name {
      MemberIsSmaller(fields[1..], name);
    }
  }

  lemma {:induction false} WalkStaysInside(node: Json, parts: seq<string>)
    requires Walk(node, parts).Some?
    ensures AllRefs(Walk(node, parts).value) <= AllRefs(node)
    decreases |parts|
  {
    if parts != [] {
      MemberIsSmaller(node.fields, parts[0]);
      WalkStaysInside(Get(node.fields, parts[0]).value, parts[1..]);
    }
  }

  lemma TargetStaysInside(spec: Json, ref: string)
    ensures AllRefs(Target(spec, ref)) <= AllRefs(spec)
  {
    if "#/" <= ref && Walk(spec, SplitAll(ref[2..], '/')).Some? {
      WalkStaysInside(spec, SplitAll(ref[2..], '/'));
    }
  }

  function Pending(spec: Json, schema: Json, seen: set<string>): set<string> {
    AllRefs(spec) + AllRefs(schema) - seen
  }

  /** Following a new reference, or going into a member, makes the measure smaller. */
  lemma FollowingShrinks(spec: Json, schema: Json, ref: string, seen: set<string>)
    requires ref in AllRefs(schema) && ref !in seen
    ensures Pending(spec, Target(spec, ref), seen + {ref}) < Pending(spec, schema, seen)
  {
    TargetStaysInside(spec, ref);
    assert ref in Pending(spec, schema, seen) && ref !in Pending(spec, Target(spec, ref), seen + {ref});
  }

  /* ---- Expansion. ---- */

  /** Each `{}` substitution; all but `Missing` also warn on stderr. */
  datatype Mark = DepthExceeded | Circular(ref: string) | Uncomposed | Missing

  /** `Raised` is a Python exception, on input no schema position may hold. */
  datatype Expansion = Raised | Done(value: Json, marks: seq<Mark>)

  const EMPTY: Json := Obj([])

  datatype Shape =
    | Malformed
    | Reference(ref: string)
    | Composed
    | Object(properties: seq<Field>)
    | Array(element: Json)
    | Scalar(sample: Json)

  /** Which branch of `example` a schema object takes, and the parts that branch reads. */
  function ShapeOf(fields: seq<Field>): Shape {
    var kind := Get(fields, "type");
    if Has(fields, "$ref") then
      var ref := Get(fields, "$ref").value;
      if ref.Str? then Reference(ref.s) else Malformed
    else if (Has(fields, "allOf") || Has(fields, "anyOf") || Has(fields, "oneOf"))
         && !Has(fields, "type") && !Has(fields, "properties") then
      Composed
    else if kind == Some(Str("object")) || Has(fields, "properties") then
      match Get(fields, "properties")
      case None => Object([])
      case Some(Obj(properties)) => Object(properties)
      case _ => Malformed
    else if kind == Some(Str("array")) then
      Array(if Has(fields, "items") then Get(fields, "items").value else Null)
    else if kind == Some(Str("integer")) then Scalar(Int(0))
    else if kind == Some(Str("number")) then Scalar(Real(0.0))
    else if kind == Some(Str("boolean")) then Scalar(Bool(false))
    else Scalar(Str("string"))
  }

  /** The parts of a schema object are inside it. */
  lemma ShapeIsSmaller(fields: seq<Field>)
    ensures var shape := ShapeOf(fields);
            && (shape.Reference? ==> shape.ref in FieldRefs(fields))
            && (shape.Object? ==> FieldsSize(shape.properties) < Size(Obj(fields))
                                  && FieldRefs(shape.properties) <= FieldRefs(fields))
            && (shape.Array? ==> Size(shape.element) < Size(Obj(fields)) && AllRefs(shape.element) <= FieldRefs(fields))
  {
    if Has(fields, "$ref") { MemberIsSmaller(fields, "$ref"); }
    if Has(fields, "properties") { MemberIsSmaller(fields, "properties"); }
    if Has(fields, "items") { MemberIsSmaller(fields, "items"); }
    if !Has(fields, "items") && ShapeOf(fields).Array? { MemberIsSmaller(fields, "type"); }
  }

  /** `example` without its depth cap. It terminates on every document, cyclic ones included. */
  function Expand(spec: Json, schema: Json, seen: set<string>): Expansion
    decreases Pending(spec, schema, seen), Size(schema), 0
  {
    if schema.Null? then Done(EMPTY, [Missing])
    else if !schema.Obj? then Raised
    else
      ShapeIsSmaller(schema.fields);
      match ShapeOf(schema.fields)
      case Malformed => Raised
      case Reference(ref) =>
        if ref in seen then Done(EMPTY, [Circular(ref)])
        else
          FollowingShrinks(spec, schema, ref, seen);
          Expand(spec, Target(spec, ref), seen + {ref})
      case Composed => Done(EMPTY, [Uncomposed])
      case Object(properties) => ExpandProperties(spec, properties, seen)
      case Array(element) => Wrapped(Expand(spec, element, seen))
      case Scalar(sample) => Done(sample, [])
  }

  function Wrapped(element: Expansion): Expansion {
    match element
    case Raised => Raised
    case Done(value, marks) => Done(Arr([value]), marks)
  }

  /** Properties in document order, each expanded with the same `seen`. */
  function ExpandProperties(spec: Json, properties: seq<Field>, seen: set<string>): (r: Expansion)
    ensures r.Done? ==> r.value.Obj? && |r.value.fields| == |properties|
    decreases Pending(spec, Obj(properties), seen), FieldsSize(properties), 1
  {
    if properties == [] then Done(EMPTY, [])
    else
      assert AllRefs(properties[0].value) <= FieldRefs(properties) == AllRefs(Obj(properties));
      assert AllRefs(Obj(properties[1..])) == FieldRefs(properties[1..]) <= FieldRefs(properties);
      Joined(properties[0].name,
             Expand(spec, properties[0].value, seen),
             ExpandProperties(spec, properties[1..], seen))
  }

  function Joined(name: string, first: Expansion, rest: Expansion): Expansion {
    if first.Raised? || rest.Raised? || !rest.value.Obj? then Raised
    else Done(Obj([Field(name, first.value)] + rest.value.fields), first.marks + rest.marks)
  }

  /** `example` as it is: every nested call one deeper, `{}` past the cap. */
  function ExpandCapped(spec: Json, schema: Json, depth: nat, seen: set<string>): Expansion
    decreases MAX_DEPTH + 1 - depth, 0, 0
  {
    if schema.Null? then Done(EMPTY, [Missing])
    else if depth > MAX_DEPTH then Done(EMPTY, [DepthExceeded])
    else if !schema.Obj? then Raised
    else
      match ShapeOf(schema.fields)
      case Malformed => Raised
      case Reference(ref) =>
        if ref in seen then Done(EMPTY, [Circular(ref)])
        else ExpandCapped(spec, Target(spec, ref), depth + 1, seen + {ref})
      case Composed => Done(EMPTY, [Uncomposed])
      case Object(properties) => ExpandPropertiesCapped(spec, properties, depth + 1, seen)
      case Array(element) => Wrapped(ExpandCapped(spec, element, depth + 1, seen))
      case Scalar(sample) => Done(sample, [])
  }

  function ExpandPropertiesCapped(spec: Json, properties: seq<Field>, depth: nat, seen: set<string>): (r: Expansion)
    ensures r.Done? ==> r.value.Obj? && |r.value.fields| == |properties|
    decreases MAX_DEPTH + 1 - depth, 1, |properties|
  {
    if properties == [] then Done(EMPTY, [])
    else Joined(properties[0].name,
                ExpandCapped(spec, properties[0].value, depth, seen),
                ExpandPropertiesCapped(spec, properties[1..], depth, seen))
  }
}
