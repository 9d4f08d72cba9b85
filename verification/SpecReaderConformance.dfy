/** Which substitutions go unreported, and when an unreported example conforms: both are
    decided by the positions, along the references followed, that hold no schema. */
module SpecReaderConformance {
  import opened Wrappers
  import opened JsonValue
  import opened SpecReader
  import opened SpecReaderMeaning
  import opened SpecReaderTheorems

  /* ---- Positions without a schema. ---- */

  /** Some position of the schema, not counting what its references name, holds no schema:
      an array without `items`, or a null where a schema belongs. */
  predicate LacksSchema(schema: Json)
    decreases Size(schema), 0
  {
    if schema.Null? then true
    else if !schema.Obj? then false
    else
      ShapeIsSmaller(schema.fields);
      match ShapeOf(schema.fields)
      case Object(properties) => LacksPropertySchema(properties)
      case Array(element) => LacksSchema(element)
      case _ => false
  }

  predicate LacksPropertySchema(properties: seq<Field>)
    decreases FieldsSize(properties), 1
  {
    properties != [] && (LacksSchema(properties[0].value) || LacksPropertySchema(properties[1..]))
  }

  predicate Distinct(path: seq<string>) {
    forall i, j :: 0 <= i < j < |path| ==> path[i] != path[j]
  }

  /** The schema at the end of a path of references. */
  function EndOf(spec: Json, schema: Json, path: seq<string>): Json {
    if path == [] then schema else Target(spec, path[|path| - 1])
  }

  /** A path of references, none followed twice, to a schema with a position that holds none. */
  predicate SilentPath(spec: Json, schema: Json, path: seq<string>) {
    Distinct(path) && RefPath(spec, schema, path) && LacksSchema(EndOf(spec, schema, path))
  }

  /** The same from any of `refs`, avoiding `seen`. */
  predicate SilentFrom(spec: Json, refs: set<string>, seen: set<string>, path: seq<string>) {
    && path != [] && path[0] in refs && RefPath(spec, Target(spec, path[0]), path[1..])
    && Distinct(path) && (forall ref :: ref in path ==> ref !in seen)
    && LacksSchema(Target(spec, path[|path| - 1]))
  }

  /** A position without a schema is substituted, and marked as such, wherever it is met. */
  lemma {:induction false} LackIsMarked(spec: Json, schema: Json, seen: set<string>)
    requires LacksSchema(schema) && Expand(spec, schema, seen).Done?
    ensures Missing in Expand(spec, schema, seen).marks
    decreases Size(schema), 0
  {
    if schema.Obj? {
      ShapeIsSmaller(schema.fields);
      match ShapeOf(schema.fields) {
        case Object(properties) => PropertyLackIsMarked(spec, properties, seen);
        case Array(element) => LackIsMarked(spec, element, seen);
      }
    }
  }

  lemma {:induction false} PropertyLackIsMarked(spec: Json, properties: seq<Field>, seen: set<string>)
    requires LacksPropertySchema(properties) && ExpandProperties(spec, properties, seen).Done?
    ensures Missing in ExpandProperties(spec, properties, seen).marks
    decreases FieldsSize(properties), 1
  {
    if LacksSchema(properties[0].value) {
      LackIsMarked(spec, properties[0].value, seen);
    } else {
      PropertyLackIsMarked(spec, properties[1..], seen);
    }
  }

  lemma {:induction false} SilentPathIsMarked(spec: Json, schema: Json, seen: set<string>, path: seq<string>)
    requires Expand(spec, schema, seen).Done? && SilentFrom(spec, SchemaRefs(schema), seen, path)
    ensures Missing in Expand(spec, schema, seen).marks
    decreases |path|
  {
    var ref, rest := path[0], path[1..];
    VisitsEveryRef(spec, schema, seen, ref);
    assert ref in path;
    if rest == [] {
      LackIsMarked(spec, Target(spec, ref), seen + {ref});
    } else {
      assert rest[|rest| - 1] == path[|path| - 1];
      assert forall other :: other in rest ==> other in path && other != ref;
      SilentPathIsMarked(spec, Target(spec, ref), seen + {ref}, rest);
    }
    assert Missing in ExpandRef(spec, ref, seen).marks;
  }

  lemma FollowedThenSilent(spec: Json, first: string, rest: seq<string>, seen: set<string>)
    requires first !in seen && SilentFrom(spec, SchemaRefs(Target(spec, first)), seen + {first}, rest)
    ensures SilentFrom(spec, {first}, seen, [first] + rest)
  {
    var path := [first] + rest;
    assert path[1..] == rest && path[|path| - 1] == rest[|rest| - 1];
    assert forall i :: 0 < i < |path| ==> path[i] == rest[i - 1] && rest[i - 1] in rest;
  }

  /** A `{}` nobody is told about comes from a position without a schema: one of this schema,
      or one at the end of a path of references followed. */
  lemma {:induction false} SilenceHasPath(spec: Json, schema: Json, seen: set<string>) returns (path: seq<string>)
    requires Expand(spec, schema, seen).Done? && Missing in Expand(spec, schema, seen).marks
    ensures path == [] ==> LacksSchema(schema)
    ensures path != [] ==> SilentFrom(spec, SchemaRefs(schema), seen, path)
    decreases Pending(spec, schema, seen), Size(schema), 0
  {
    hide ShapeOf, Target, SilentFrom, Pending, AllRefs, FieldsSize, Size;
    if schema.Null? {
      path := [];
    } else {
      PartsPend(spec, schema.fields, seen);
      assert schema == Obj(schema.fields);
      match ShapeOf(schema.fields) {
        case Reference(first) =>
          FollowingShrinks(spec, schema, first, seen);
          var rest := SilenceHasPath(spec, Target(spec, first), seen + {first});
          path := [first] + rest;
          if rest == [] {
            OneStepSilent(spec, first, seen);
          } else {
            FollowedThenSilent(spec, first, rest, seen);
          }
        case Object(properties) => path := PropertySilenceHasPath(spec, properties, seen);
        case Array(element) => path := SilenceHasPath(spec, element, seen);
      }
    }
  }

  lemma OneStepSilent(spec: Json, first: string, seen: set<string>)
    requires first !in seen && LacksSchema(Target(spec, first))
    ensures SilentFrom(spec, {first}, seen, [first] + [])
  {
    assert [first] + [] == [first];
  }

  lemma {:induction false} PropertySilenceHasPath(spec: Json, properties: seq<Field>, seen: set<string>)
    returns (path: seq<string>)
    requires ExpandProperties(spec, properties, seen).Done? && Missing in ExpandProperties(spec, properties, seen).marks
    ensures path == [] ==> LacksPropertySchema(properties)
    ensures path != [] ==> SilentFrom(spec, PropertyRefs(properties), seen, path)
    decreases Pending(spec, Obj(properties), seen), FieldsSize(properties), 1
  {
    PropertiesAreSmaller(spec, properties, seen);
    if Missing in Expand(spec, properties[0].value, seen).marks {
      path := SilenceHasPath(spec, properties[0].value, seen);
    } else {
      path := PropertySilenceHasPath(spec, properties[1..], seen);
    }
  }

  /** Some `{}` goes unreported if and only if a path of references, none followed twice,
      ends in a schema with a position that holds none. */
  lemma SilentExactly(spec: Json, schema: Json)
    requires Expand(spec, schema, {}).Done?
    ensures Missing in Expand(spec, schema, {}).marks <==> exists path :: SilentPath(spec, schema, path)
  {
    if Missing in Expand(spec, schema, {}).marks {
      var path := SilenceHasPath(spec, schema, {});
      assert SilentPath(spec, schema, path);
    }
    if path :| SilentPath(spec, schema, path) {
      if path == [] {
        LackIsMarked(spec, schema, {});
      } else {
        assert SilentFrom(spec, SchemaRefs(schema), {}, path);
        SilentPathIsMarked(spec, schema, {}, path);
      }
    }
  }

  /* ---- Conformance. ---- */

  /** Structural conformance through all references: least over reference chains, so a
      chain of references that only names itself has no conforming value. */
  predicate Conforms(spec: Json, schema: Json, value: Json, chain: set<string>)
    decreases Size(value), Pending(spec, schema, chain), 0
  {
    schema.Obj? &&
    match Get(schema.fields, "$ref")
    case Some(Str(ref)) =>
      ref !in chain &&
      (MemberIsSmaller(schema.fields, "$ref");
       FollowingShrinks(spec, schema, ref, chain);
       Conforms(spec, Target(spec, ref), value, chain + {ref}))
    case Some(_) => false
    case None =>
      if OnlyCombines(schema.fields) then false
      else if IsObjectSchema(schema.fields) then
        value.Obj? && Declared(schema.fields).Some?
        && PropertiesConform(spec, Declared(schema.fields).value, value.fields)
      else
        match Get(schema.fields, "type")
        case None => true
        case Some(Str("array")) => value.Arr? && ItemsConform(spec, ItemSchema(schema.fields), value.items)
        case Some(Str("integer")) => value.Int?
        case Some(Str("number")) => value.Real? || value.Int?
        case Some(Str("boolean")) => value.Bool?
        case Some(Str("string")) => value.Str?
        case _ => false
  }

  /** The value has exactly the declared properties, in order, each conforming. */
  predicate PropertiesConform(spec: Json, properties: seq<Field>, fields: seq<Field>)
    decreases FieldsSize(fields)
  {
    |properties| == |fields| &&
    (properties == [] ||
     (properties[0].name == fields[0].name
      && Conforms(spec, properties[0].value, fields[0].value, {})
      && PropertiesConform(spec, properties[1..], fields[1..])))
  }

  predicate ItemsConform(spec: Json, element: Json, items: seq<Json>)
    decreases ItemsSize(items)
  {
    items == [] || (Conforms(spec, element, items[0], {}) && ItemsConform(spec, element, items[1..]))
  }

  predicate ScalarTypeFits(kind: Option<Json>, value: Json) {
    match kind
    case None => true
    case Some(Str("integer")) => value.Int?
    case Some(Str("number")) => value.Real? || value.Int?
    case Some(Str("boolean")) => value.Bool?
    case Some(Str("string")) => value.Str?
    case _ => false
  }

  predicate ConformsToShape(spec: Json, kind: Option<Json>, shape: Shape, value: Json, chain: set<string>) {
    match shape
    case Reference(ref) => ref !in chain && Conforms(spec, Target(spec, ref), value, chain + {ref})
    case Object(properties) => value.Obj? && PropertiesConform(spec, properties, value.fields)
    case Array(element) => value.Arr? && ItemsConform(spec, element, value.items)
    case Scalar(_) => ScalarTypeFits(kind, value)
    case _ => false
  }

  /** Conformance by the branch the expander takes. */
  lemma ConformsByShape(spec: Json, schema: Json, value: Json, chain: set<string>)
    requires schema.Obj?
    ensures Conforms(spec, schema, value, chain) <==>
            ConformsToShape(spec, Get(schema.fields, "type"), ShapeOf(schema.fields), value, chain)
  {
    hide PropertiesConform, ItemsConform, Target;
  }

  const STANDARD_TYPES := {"object", "array", "string", "integer", "number", "boolean"}

  /** Below this position every schema is an object or missing altogether, its `type` is one
      of the six keywords (or absent), and `properties` appears only on objects. */
  predicate Typed(schema: Json)
    decreases Size(schema), 0
  {
    schema.Null? ||
    (schema.Obj? &&
     (ShapeIsSmaller(schema.fields);
      match ShapeOf(schema.fields)
      case Malformed => false
      case Reference(_) => true
      case Composed => true
      case Object(properties) =>
        Get(schema.fields, "type") in {None, Some(Str("object"))} && TypedProperties(properties)
      case Array(element) => Typed(element)
      case Scalar(_) =>
        match Get(schema.fields, "type")
        case None => true
        case Some(Str(kind)) => kind in STANDARD_TYPES
        case _ => false))
  }

  predicate TypedProperties(properties: seq<Field>)
    decreases FieldsSize(properties), 1
  {
    properties == [] || (Typed(properties[0].value) && TypedProperties(properties[1..]))
  }

  /** Every schema reached along references uses standard types. Whether the references
      resolve, and what the rest of the document holds, does not matter. */
  ghost predicate ReachesTyped(spec: Json, schema: Json) {
    forall path :: RefPath(spec, schema, path) ==> Typed(EndOf(spec, schema, path))
  }

  /** The same from any of `refs`. */
  ghost predicate FollowsTyped(spec: Json, refs: set<string>) {
    forall path :: path != [] && path[0] in refs && RefPath(spec, Target(spec, path[0]), path[1..]) ==>
      Typed(Target(spec, path[|path| - 1]))
  }

  lemma ReachesThenFollows(spec: Json, schema: Json)
    requires ReachesTyped(spec, schema)
    ensures Typed(schema) && FollowsTyped(spec, SchemaRefs(schema))
  {
    assert RefPath(spec, schema, []);
    forall path | path != [] && path[0] in SchemaRefs(schema) && RefPath(spec, Target(spec, path[0]), path[1..])
      ensures Typed(Target(spec, path[|path| - 1]))
    {
      assert RefPath(spec, schema, path);
    }
  }

  lemma FollowOne(spec: Json, refs: set<string>, ref: string)
    requires FollowsTyped(spec, refs) && ref in refs
    ensures Typed(Target(spec, ref)) && FollowsTyped(spec, SchemaRefs(Target(spec, ref)))
  {
    hide Typed, Target, SchemaRefs;
    assert [ref][1..] == [] && RefPath(spec, Target(spec, ref), []);
    assert Typed(Target(spec, [ref][|[ref]| - 1]));
    forall path | path != [] && path[0] in SchemaRefs(Target(spec, ref))
                  && RefPath(spec, Target(spec, path[0]), path[1..])
      ensures Typed(Target(spec, path[|path| - 1]))
    {
      var longer := [ref] + path;
      assert longer[1..] == path && longer[|longer| - 1] == path[|path| - 1];
      assert RefPath(spec, Target(spec, ref), path);
    }
  }

  /** An expansion without any substitution conforms, through all references. */
  lemma {:induction false} ExpansionConforms(spec: Json, schema: Json, seen: set<string>, chain: set<string>)
    requires Typed(schema) && FollowsTyped(spec, SchemaRefs(schema)) && chain <= seen
    requires Expand(spec, schema, seen).Done? && Expand(spec, schema, seen).marks == []
    ensures Conforms(spec, schema, Expand(spec, schema, seen).value, chain)
    decreases Pending(spec, schema, seen), Size(schema), 0
  {
    hide ShapeOf, Target, FollowsTyped, Conforms, Pending, AllRefs, Size, FieldsSize;
    PartsPend(spec, schema.fields, seen);
    assert schema == Obj(schema.fields);
    ConformsByShape(spec, schema, Expand(spec, schema, seen).value, chain);
    match ShapeOf(schema.fields) {
      case Reference(ref) =>
        FollowingShrinks(spec, schema, ref, seen);
        FollowOne(spec, SchemaRefs(schema), ref);
        ExpansionConforms(spec, Target(spec, ref), seen + {ref}, chain + {ref});
      case Object(properties) => PropertyExpansionConforms(spec, properties, seen);
      case Array(element) =>
        ExpansionConforms(spec, element, seen, {});
        OneItemConforms(spec, element, Expand(spec, element, seen).value);
      case Scalar(_) => ScalarConforms(spec, schema, seen, chain);
    }
  }

  lemma OneItemConforms(spec: Json, element: Json, item: Json)
    ensures ItemsConform(spec, element, [item]) <==> Conforms(spec, element, item, {})
  {
    assert [item][1..] == [];
  }

  lemma ScalarConforms(spec: Json, schema: Json, seen: set<string>, chain: set<string>)
    requires Typed(schema) && schema.Obj? && ShapeOf(schema.fields).Scalar?
    ensures Conforms(spec, schema, Expand(spec, schema, seen).value, chain)
  {
    ConformsByShape(spec, schema, Expand(spec, schema, seen).value, chain);
  }

  lemma {:induction false} PropertyExpansionConforms(spec: Json, properties: seq<Field>, seen: set<string>)
    requires TypedProperties(properties) && FollowsTyped(spec, PropertyRefs(properties))
    requires ExpandProperties(spec, properties, seen).Done? && ExpandProperties(spec, properties, seen).marks == []
    ensures ExpandProperties(spec, properties, seen).value.Obj?
    ensures PropertiesConform(spec, properties, ExpandProperties(spec, properties, seen).value.fields)
    decreases Pending(spec, Obj(properties), seen), FieldsSize(properties), 1
  {
    hide FollowsTyped, Typed, Pending, AllRefs, Size, FieldsSize, SchemaRefs;
    if properties != [] {
      PropertiesAreSmaller(spec, properties, seen);
      var first := Expand(spec, properties[0].value, seen);
      var rest := ExpandProperties(spec, properties[1..], seen);
      assert |first.marks + rest.marks| == 0;
      PropertiesFollow(spec, properties);
      ExpansionConforms(spec, properties[0].value, seen, {});
      PropertyExpansionConforms(spec, properties[1..], seen);
      var fields := ExpandProperties(spec, properties, seen).value.fields;
      assert fields[1..] == rest.value.fields;
    }
  }

  lemma PropertiesFollow(spec: Json, properties: seq<Field>)
    requires properties != [] && FollowsTyped(spec, PropertyRefs(properties))
    ensures FollowsTyped(spec, SchemaRefs(properties[0].value)) && FollowsTyped(spec, PropertyRefs(properties[1..]))
  {
    assert SchemaRefs(properties[0].value) <= PropertyRefs(properties);
    assert PropertyRefs(properties[1..]) <= PropertyRefs(properties);
  }

  /** With standard types along the references, nothing raises. */
  lemma {:induction false} TypedExpands(spec: Json, schema: Json, seen: set<string>)
    requires Typed(schema) && FollowsTyped(spec, SchemaRefs(schema))
    ensures Expand(spec, schema, seen).Done?
    decreases Pending(spec, schema, seen), Size(schema), 0
  {
    hide Target, FollowsTyped, Pending, AllRefs, Size, FieldsSize;
    if !schema.Null? {
      PartsPend(spec, schema.fields, seen);
      assert schema == Obj(schema.fields);
      match ShapeOf(schema.fields) {
        case Reference(ref) =>
          if ref !in seen {
            FollowingShrinks(spec, schema, ref, seen);
            FollowOne(spec, SchemaRefs(schema), ref);
            TypedExpands(spec, Target(spec, ref), seen + {ref});
          }
        case Object(properties) => TypedPropertiesExpand(spec, properties, seen);
        case Array(element) => TypedExpands(spec, element, seen);
        case _ =>
      }
    }
  }

  lemma {:induction false} TypedPropertiesExpand(spec: Json, properties: seq<Field>, seen: set<string>)
    requires TypedProperties(properties) && FollowsTyped(spec, PropertyRefs(properties))
    ensures ExpandProperties(spec, properties, seen).Done?
    decreases Pending(spec, Obj(properties), seen), FieldsSize(properties), 1
  {
    hide FollowsTyped, Typed, Pending, AllRefs, Size, FieldsSize, SchemaRefs;
    if properties != [] {
      PropertiesAreSmaller(spec, properties, seen);
      PropertiesFollow(spec, properties);
      TypedExpands(spec, properties[0].value, seen);
      TypedPropertiesExpand(spec, properties[1..], seen);
    }
  }

  lemma NothingConformsToNull(spec: Json, value: Json, chain: set<string>)
    ensures !Conforms(spec, Null, value, chain)
  {
  }

  /** A value with an unreported `{}` in it does not conform: nothing conforms to no schema. */
  lemma {:induction false} SilenceDoesNotConform(spec: Json, schema: Json, seen: set<string>, chain: set<string>)
    requires Expand(spec, schema, seen).Done? && Missing in Expand(spec, schema, seen).marks
    ensures !Conforms(spec, schema, Expand(spec, schema, seen).value, chain)
    decreases Pending(spec, schema, seen), Size(schema), 0
  {
    hide ShapeOf, Target, Conforms, Pending, AllRefs, Size, FieldsSize;
    if schema.Null? {
      NothingConformsToNull(spec, Expand(spec, schema, seen).value, chain);
    } else {
      PartsPend(spec, schema.fields, seen);
      assert schema == Obj(schema.fields);
      ConformsByShape(spec, schema, Expand(spec, schema, seen).value, chain);
      match ShapeOf(schema.fields) {
        case Reference(ref) =>
          FollowingShrinks(spec, schema, ref, seen);
          SilenceDoesNotConform(spec, Target(spec, ref), seen + {ref}, chain + {ref});
        case Object(properties) => PropertySilenceDoesNotConform(spec, properties, seen);
        case Array(element) =>
          SilenceDoesNotConform(spec, element, seen, {});
          OneItemConforms(spec, element, Expand(spec, element, seen).value);
      }
    }
  }

  lemma {:induction false} PropertySilenceDoesNotConform(spec: Json, properties: seq<Field>, seen: set<string>)
    requires ExpandProperties(spec, properties, seen).Done? && Missing in ExpandProperties(spec, properties, seen).marks
    ensures ExpandProperties(spec, properties, seen).value.Obj?
    ensures !PropertiesConform(spec, properties, ExpandProperties(spec, properties, seen).value.fields)
    decreases Pending(spec, Obj(properties), seen), FieldsSize(properties), 1
  {
    PropertiesAreSmaller(spec, properties, seen);
    var rest := ExpandProperties(spec, properties[1..], seen);
    var fields := ExpandProperties(spec, properties, seen).value.fields;
    assert fields[1..] == rest.value.fields;
    if Missing in Expand(spec, properties[0].value, seen).marks {
      SilenceDoesNotConform(spec, properties[0].value, seen, {});
    } else {
      PropertySilenceDoesNotConform(spec, properties[1..], seen);
    }
  }

  /* ---- The script's own run. ---- */

  /** The substitutions that are reported on stderr. */
  predicate Warned(e: Expansion) {
    e.Done? && exists mark :: mark in e.marks && !mark.Missing?
  }

  lemma UnwarnedMarks(e: Expansion)
    requires e.Done? && !Warned(e)
    ensures e.marks == [] || Missing in e.marks
    ensures !HitTheCap(e)
  {
    if e.marks != [] {
      assert e.marks[0] in e.marks;
    }
  }

  /** With standard types along the references followed, an example nothing was reported
      about conforms to its schema, through all references, if and only if no path of
      references ends in a schema with a position that holds none. */
  lemma ExampleConformsExactly(spec: Json, schema: Json)
    requires ReachesTyped(spec, schema) && !Warned(ExpandCapped(spec, schema, 0, {}))
    ensures ExpandCapped(spec, schema, 0, {}).Done?
    ensures Conforms(spec, schema, ExpandCapped(spec, schema, 0, {}).value, {}) <==>
            !exists path :: SilentPath(spec, schema, path)
  {
    hide ReachesTyped, SilentPath, Conforms, LacksSchema;
    var body := ExpandCapped(spec, schema, 0, {});
    ReachesThenFollows(spec, schema);
    TypedExpands(spec, schema, {});
    CapIsIrrelevant(spec, schema, 0, {});
    UnwarnedMarks(body);
    SilentExactly(spec, schema);
    if body.marks == [] {
      ExpansionConforms(spec, schema, {}, {});
    } else {
      SilenceDoesNotConform(spec, schema, {}, {});
    }
  }

  /** A run that kept within the cap reports every `{}` if and only if there is no such path. */
  lemma EveryWarningExactly(spec: Json, schema: Json)
    requires ExpandCapped(spec, schema, 0, {}).Done? && !HitTheCap(ExpandCapped(spec, schema, 0, {}))
    ensures (forall mark :: mark in ExpandCapped(spec, schema, 0, {}).marks ==> !mark.Missing?) <==>
            !exists path :: SilentPath(spec, schema, path)
  {
    QuietCapIsNoCap(spec, schema, 0, {});
    SilentExactly(spec, schema);
  }

  /** The two inputs of the failing family: a reference that does not resolve ... */
  lemma DanglingReferenceIsSilent(spec: Json, ref: string, depth: nat)
    requires Target(spec, ref).Null? && depth < MAX_DEPTH
    ensures var schema := Obj([Field("$ref", Str(ref))]);
            && ExpandCapped(spec, schema, depth, {}) == Done(EMPTY, [Missing])
            && !Warned(ExpandCapped(spec, schema, depth, {}))
            && !Conforms(spec, schema, EMPTY, {})
  {
    var schema := Obj([Field("$ref", Str(ref))]);
    assert ShapeOf(schema.fields) == Reference(ref);
    assert !Conforms(spec, Target(spec, ref), EMPTY, {ref});
  }

  /** ... and an array that does not say what its items are. */
  lemma ItemlessArrayIsSilent(spec: Json, depth: nat)
    requires depth < MAX_DEPTH
    ensures var schema := Obj([Field("type", Str("array"))]);
            && ExpandCapped(spec, schema, depth, {}) == Done(Arr([EMPTY]), [Missing])
            && !Warned(ExpandCapped(spec, schema, depth, {}))
            && !Conforms(spec, schema, Arr([EMPTY]), {})
  {
    var schema := Obj([Field("type", Str("array"))]);
    assert ShapeOf(schema.fields) == Array(Null);
    assert ExpandCapped(spec, Null, depth + 1, {}) == Done(EMPTY, [Missing]);
    OneItemConforms(spec, Null, EMPTY);
  }
}
