/** The depth cap is irrelevant unless it warns, circular warnings are exactly the
    reference cycles, and an expansion without a warning conforms to its schema. */
module SpecReaderTheorems {
  import opened JsonValue
  import opened SpecReader

  /* ---- The depth cap. ---- */

  predicate HitTheCap(e: Expansion) {
    e.Done? && DepthExceeded in e.marks
  }

  /** Without a depth warning the cap made no difference. */
  lemma {:induction false} QuietCapIsNoCap(spec: Json, schema: Json, depth: nat, seen: set<string>)
    requires !HitTheCap(ExpandCapped(spec, schema, depth, seen))
    ensures ExpandCapped(spec, schema, depth, seen) == Expand(spec, schema, seen)
    decreases Pending(spec, schema, seen), Size(schema), 0
  {
    hide ShapeOf, Target;
    if schema.Obj? && depth <= MAX_DEPTH {
      ShapeIsSmaller(schema.fields);
      match ShapeOf(schema.fields) {
        case Reference(ref) =>
          if ref !in seen {
            FollowingShrinks(spec, schema, ref, seen);
            QuietCapIsNoCap(spec, Target(spec, ref), depth + 1, seen + {ref});
          }
        case Object(properties) => QuietCapIsNoCapForProperties(spec, properties, depth + 1, seen);
        case Array(element) => QuietCapIsNoCap(spec, element, depth + 1, seen);
        case _ =>
      }
    }
  }

  lemma {:induction false} QuietCapIsNoCapForProperties(spec: Json, properties: seq<Field>, depth: nat,
          seen: set<string>)
    requires !HitTheCap(ExpandPropertiesCapped(spec, properties, depth, seen))
    ensures ExpandPropertiesCapped(spec, properties, depth, seen) == ExpandProperties(spec, properties, seen)
    decreases Pending(spec, Obj(properties), seen), FieldsSize(properties), 1
  {
    if properties != [] {
      PropertiesAreSmaller(spec, properties, seen);
      if !HitTheCap(ExpandCapped(spec, properties[0].value, depth, seen)) {
        QuietCapIsNoCap(spec, properties[0].value, depth, seen);
      }
      if !HitTheCap(ExpandPropertiesCapped(spec, properties[1..], depth, seen)) {
        QuietCapIsNoCapForProperties(spec, properties[1..], depth, seen);
      }
    }
  }

  lemma {:induction false} UncappedNeverHitsTheCap(spec: Json, schema: Json, seen: set<string>)
    ensures !HitTheCap(Expand(spec, schema, seen))
    decreases Pending(spec, schema, seen), Size(schema), 0
  {
    if schema.Obj? {
      ShapeIsSmaller(schema.fields);
      match ShapeOf(schema.fields) {
        case Reference(ref) =>
          if ref !in seen {
            FollowingShrinks(spec, schema, ref, seen);
            UncappedNeverHitsTheCap(spec, Target(spec, ref), seen + {ref});
          }
        case Object(properties) => UncappedPropertiesNeverHitTheCap(spec, properties, seen);
        case Array(element) => UncappedNeverHitsTheCap(spec, element, seen);
        case _ =>
      }
    }
  }

  lemma {:induction false} UncappedPropertiesNeverHitTheCap(spec: Json, properties: seq<Field>, seen: set<string>)
    ensures !HitTheCap(ExpandProperties(spec, properties, seen))
    decreases Pending(spec, Obj(properties), seen), FieldsSize(properties), 1
  {
    if properties != [] {
      PropertiesAreSmaller(spec, properties, seen);
      UncappedNeverHitsTheCap(spec, properties[0].value, seen);
      UncappedPropertiesNeverHitTheCap(spec, properties[1..], seen);
    }
  }

  /** The capped expansion is the uncapped one, value, warnings and exceptions alike,
      exactly unless it warned about depth. */
  lemma CapIsIrrelevant(spec: Json, schema: Json, depth: nat, seen: set<string>)
    ensures ExpandCapped(spec, schema, depth, seen) == Expand(spec, schema, seen)
            <==> !HitTheCap(ExpandCapped(spec, schema, depth, seen))
  {
    UncappedNeverHitsTheCap(spec, schema, seen);
    if !HitTheCap(ExpandCapped(spec, schema, depth, seen)) {
      QuietCapIsNoCap(spec, schema, depth, seen);
    }
  }

  lemma PropertiesAreSmaller(spec: Json, properties: seq<Field>, seen: set<string>)
    requires properties != []
    ensures Pending(spec, properties[0].value, seen) <= Pending(spec, Obj(properties), seen)
    ensures Pending(spec, Obj(properties[1..]), seen) <= Pending(spec, Obj(properties), seen)
    ensures AllRefs(properties[0].value) <= AllRefs(Obj(properties))
    ensures AllRefs(Obj(properties[1..])) <= AllRefs(Obj(properties))
    ensures Size(properties[0].value) < FieldsSize(properties)
    ensures FieldsSize(properties[1..]) < FieldsSize(properties)
  {
    assert AllRefs(properties[0].value) <= FieldRefs(properties) == AllRefs(Obj(properties));
    assert AllRefs(Obj(properties[1..])) == FieldRefs(properties[1..]) <= FieldRefs(properties);
  }

  /* ---- Circular warnings are reference cycles. ---- */

  /** The references `example` meets in a schema before following any of them. */
  function SchemaRefs(schema: Json): set<string>
    decreases Size(schema), 0
  {
    if !schema.Obj? then {} else
    ShapeIsSmaller(schema.fields);
    match ShapeOf(schema.fields)
    case Reference(ref) => {ref}
    case Object(properties) => PropertyRefs(properties)
    case Array(element) => SchemaRefs(element)
    case _ => {}
  }

  function PropertyRefs(properties: seq<Field>): set<string>
    decreases FieldsSize(properties), 1
  {
    if properties == [] then {} else SchemaRefs(properties[0].value) + PropertyRefs(properties[1..])
  }

  /** A chain of references, each met in the schema the one before it names. */
  predicate RefPath(spec: Json, schema: Json, path: seq<string>)
    decreases |path|
  {
    path == [] || (path[0] in SchemaRefs(schema) && RefPath(spec, Target(spec, path[0]), path[1..]))
  }

  /** The path comes back to a reference it already followed, or to one in `seen`. */
  predicate Returns(path: seq<string>, seen: set<string>) {
    path != [] && (path[|path| - 1] in seen || path[|path| - 1] in path[..|path| - 1])
  }

  predicate HasCircular(e: Expansion) {
    e.Done? && exists mark :: mark in e.marks && mark.Circular?
  }

  function ExpandRef(spec: Json, ref: string, seen: set<string>): Expansion {
    if ref in seen then Done(EMPTY, [Circular(ref)]) else Expand(spec, Target(spec, ref), seen + {ref})
  }

  predicate MarksIncluded(inner: Expansion, outer: Expansion) {
    inner.Done? && outer.Done? && forall mark :: mark in inner.marks ==> mark in outer.marks
  }

  /** Expansion visits every reference of a schema, and keeps its marks. */
  lemma {:induction false} VisitsEveryRef(spec: Json, schema: Json, seen: set<string>, ref: string)
    requires Expand(spec, schema, seen).Done? && ref in SchemaRefs(schema)
    ensures MarksIncluded(ExpandRef(spec, ref, seen), Expand(spec, schema, seen))
    decreases Size(schema), 0
  {
    ShapeIsSmaller(schema.fields);
    match ShapeOf(schema.fields) {
      case Reference(_) =>
      case Object(properties) => VisitsEveryPropertyRef(spec, properties, seen, ref);
      case Array(element) => VisitsEveryRef(spec, element, seen, ref);
    }
  }

  lemma {:induction false} VisitsEveryPropertyRef(spec: Json, properties: seq<Field>, seen: set<string>, ref: string)
    requires ExpandProperties(spec, properties, seen).Done? && ref in PropertyRefs(properties)
    ensures MarksIncluded(ExpandRef(spec, ref, seen), ExpandProperties(spec, properties, seen))
    decreases FieldsSize(properties), 1
  {
    if ref in SchemaRefs(properties[0].value) {
      VisitsEveryRef(spec, properties[0].value, seen, ref);
    } else {
      VisitsEveryPropertyRef(spec, properties[1..], seen, ref);
    }
  }

  lemma {:induction false} ReturningPathWarns(spec: Json, schema: Json, seen: set<string>, path: seq<string>)
    requires Expand(spec, schema, seen).Done? && RefPath(spec, schema, path) && Returns(path, seen)
    ensures HasCircular(Expand(spec, schema, seen))
    decreases |path|
  {
    var ref := path[0];
    VisitsEveryRef(spec, schema, seen, ref);
    if ref in seen {
      assert Circular(ref) in ExpandRef(spec, ref, seen).marks;
    } else {
      var last, rest := path[|path| - 1], path[1..];
      assert rest[|rest| - 1] == last;
      assert path[..|path| - 1] == [ref] + rest[..|rest| - 1];
      ReturningPathWarns(spec, Target(spec, ref), seen + {ref}, rest);
    }
  }

  /** What a schema's parts still have to follow is part of what the schema has. */
  lemma PartsPend(spec: Json, fields: seq<Field>, seen: set<string>)
    ensures var shape := ShapeOf(fields);
            && (shape.Reference? ==> shape.ref in AllRefs(Obj(fields)))
            && (shape.Object? ==> AllRefs(Obj(shape.properties)) <= AllRefs(Obj(fields))
                                  && Pending(spec, Obj(shape.properties), seen) <= Pending(spec, Obj(fields), seen)
                                  && FieldsSize(shape.properties) < Size(Obj(fields)))
            && (shape.Array? ==> AllRefs(shape.element) <= AllRefs(Obj(fields))
                                 && Pending(spec, shape.element, seen) <= Pending(spec, Obj(fields), seen)
                                 && Size(shape.element) < Size(Obj(fields)))
  {
    hide ShapeOf;
    ShapeIsSmaller(fields);
    var shape := ShapeOf(fields);
    if shape.Object? {
      assert AllRefs(Obj(shape.properties)) == FieldRefs(shape.properties);
    }
  }

  lemma SeenReturns(ref: string, seen: set<string>)
    requires ref in seen
    ensures Returns([ref], seen)
  {
  }

  lemma FollowedThenReturns(first: string, rest: seq<string>, seen: set<string>)
    requires Returns(rest, seen + {first})
    ensures var path := [first] + rest;
            Returns(path, seen) && path[1..] == rest && path[|path| - 1] == rest[|rest| - 1]
  {
    var path := [first] + rest;
    assert path[1..] == rest && path[..|path| - 1] == [first] + rest[..|rest| - 1];
  }

  lemma {:induction false} WarningHasReturningPath(spec: Json, schema: Json, seen: set<string>, ref: string)
    returns (path: seq<string>)
    requires Expand(spec, schema, seen).Done? && Circular(ref) in Expand(spec, schema, seen).marks
    ensures path != [] && RefPath(spec, schema, path) && Returns(path, seen) && path[|path| - 1] == ref
    decreases Pending(spec, schema, seen), Size(schema), 0
  {
    hide ShapeOf, Target, Returns, Pending, AllRefs, FieldsSize, Size;
    PartsPend(spec, schema.fields, seen);
    assert schema == Obj(schema.fields);
    match ShapeOf(schema.fields) {
      case Reference(first) =>
        if first in seen {
          path := [first];
          SeenReturns(first, seen);
        } else {
          FollowingShrinks(spec, schema, first, seen);
          var rest := WarningHasReturningPath(spec, Target(spec, first), seen + {first}, ref);
          path := [first] + rest;
          FollowedThenReturns(first, rest, seen);
        }
      case Object(properties) =>
        path := PropertyWarningHasReturningPath(spec, properties, seen, ref);
        assert path[0] in SchemaRefs(schema);
      case Array(element) =>
        path := WarningHasReturningPath(spec, element, seen, ref);
        assert path[0] in SchemaRefs(schema);
    }
  }

  lemma {:induction false} PropertyWarningHasReturningPath(spec: Json, properties: seq<Field>, seen: set<string>,
          ref: string)
    returns (path: seq<string>)
    requires ExpandProperties(spec, properties, seen).Done?
    requires Circular(ref) in ExpandProperties(spec, properties, seen).marks
    ensures path != [] && path[0] in PropertyRefs(properties) && RefPath(spec, Target(spec, path[0]), path[1..])
    ensures Returns(path, seen) && path[|path| - 1] == ref
    decreases Pending(spec, Obj(properties), seen), FieldsSize(properties), 1
  {
    PropertiesAreSmaller(spec, properties, seen);
    if Circular(ref) in Expand(spec, properties[0].value, seen).marks {
      path := WarningHasReturningPath(spec, properties[0].value, seen, ref);
    } else {
      path := PropertyWarningHasReturningPath(spec, properties[1..], seen, ref);
    }
  }

  /** From the top, an expansion warns about circularity exactly when the references it
      follows run into a cycle; sharing a definition among siblings never counts. */
  lemma CircularExactlyOnCycles(spec: Json, schema: Json)
    requires Expand(spec, schema, {}).Done?
    ensures HasCircular(Expand(spec, schema, {})) <==>
            exists path :: RefPath(spec, schema, path) && Returns(path, {})
  {
    if HasCircular(Expand(spec, schema, {})) {
      var mark :| mark in Expand(spec, schema, {}).marks && mark.Circular?;
      var path := WarningHasReturningPath(spec, schema, {}, mark.ref);
    }
    if exists path :: RefPath(spec, schema, path) && Returns(path, {}) {
      var path :| RefPath(spec, schema, path) && Returns(path, {});
      ReturningPathWarns(spec, schema, {}, path);
    }
  }

  /* ---- The capped run. ---- */

  /** What the script's own, capped run reports as circular is a cycle, cap or no cap. */
  lemma {:induction false} CappedWarningHasReturningPath(spec: Json, schema: Json, depth: nat, seen: set<string>,
          ref: string)
    returns (path: seq<string>)
    requires ExpandCapped(spec, schema, depth, seen).Done?
    requires Circular(ref) in ExpandCapped(spec, schema, depth, seen).marks
    ensures path != [] && RefPath(spec, schema, path) && Returns(path, seen) && path[|path| - 1] == ref
    decreases MAX_DEPTH + 1 - depth, 0, 0
  {
    hide ShapeOf, Target, Returns;
    match ShapeOf(schema.fields) {
      case Reference(first) =>
        if first in seen {
          path := [first];
          SeenReturns(first, seen);
        } else {
          var rest := CappedWarningHasReturningPath(spec, Target(spec, first), depth + 1, seen + {first}, ref);
          path := [first] + rest;
          FollowedThenReturns(first, rest, seen);
        }
      case Object(properties) =>
        path := CappedPropertyWarningHasReturningPath(spec, properties, depth + 1, seen, ref);
        assert path[0] in SchemaRefs(schema);
      case Array(element) =>
        path := CappedWarningHasReturningPath(spec, element, depth + 1, seen, ref);
        assert path[0] in SchemaRefs(schema);
    }
  }

  lemma {:induction false} CappedPropertyWarningHasReturningPath(spec: Json, properties: seq<Field>, depth: nat,
          seen: set<string>, ref: string)
    returns (path: seq<string>)
    requires ExpandPropertiesCapped(spec, properties, depth, seen).Done?
    requires Circular(ref) in ExpandPropertiesCapped(spec, properties, depth, seen).marks
    ensures path != [] && path[0] in PropertyRefs(properties) && RefPath(spec, Target(spec, path[0]), path[1..])
    ensures Returns(path, seen) && path[|path| - 1] == ref
    decreases MAX_DEPTH + 1 - depth, 1, |properties|
  {
    hide Returns, Target;
    if Circular(ref) in ExpandCapped(spec, properties[0].value, depth, seen).marks {
      path := CappedWarningHasReturningPath(spec, properties[0].value, depth, seen, ref);
    } else {
      path := CappedPropertyWarningHasReturningPath(spec, properties[1..], depth, seen, ref);
    }
  }

  /** The script's own run: a circular warning always names a reference some path of
      references comes back to, and a run that kept within the cap warns on every cycle. */
  lemma CappedCircularExactly(spec: Json, schema: Json)
    requires ExpandCapped(spec, schema, 0, {}).Done?
    ensures forall ref :: Circular(ref) in ExpandCapped(spec, schema, 0, {}).marks ==>
              exists path :: RefPath(spec, schema, path) && Returns(path, {}) && path[|path| - 1] == ref
    ensures !HitTheCap(ExpandCapped(spec, schema, 0, {})) ==>
              (HasCircular(ExpandCapped(spec, schema, 0, {})) <==>
               exists path :: RefPath(spec, schema, path) && Returns(path, {}))
  {
    hide ExpandCapped, RefPath;
    forall ref | Circular(ref) in ExpandCapped(spec, schema, 0, {}).marks
      ensures exists path :: RefPath(spec, schema, path) && Returns(path, {}) && path[|path| - 1] == ref
    {
      var path := CappedWarningHasReturningPath(spec, schema, 0, {}, ref);
    }
    if !HitTheCap(ExpandCapped(spec, schema, 0, {})) {
      QuietCapIsNoCap(spec, schema, 0, {});
      CircularExactlyOnCycles(spec, schema);
    }
  }
}
