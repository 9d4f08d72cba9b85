/** What the expander makes of a schema object, read off the members of the object and of
    the document: each branch of the script, in its order, over every schema and depth. */
module SpecReaderMeaning {
  import opened Wrappers
  import opened Text
  import opened JsonValue
  import opened SpecReader
  import opened SpecReaderTheorems

  predicate TypeIs(fields: seq<Field>, kind: string) {
    Get(fields, "type") == Some(Str(kind))
  }

  /** An `allOf`, `anyOf` or `oneOf` with neither a `type` nor `properties` beside it. */
  predicate OnlyCombines(fields: seq<Field>) {
    && (Get(fields, "allOf").Some? || Get(fields, "anyOf").Some? || Get(fields, "oneOf").Some?)
    && Get(fields, "type").None? && Get(fields, "properties").None?
  }

  predicate IsObjectSchema(fields: seq<Field>) {
    TypeIs(fields, "object") || Get(fields, "properties").Some?
  }

  /** The declared properties; a schema without any declares none. */
  function Declared(fields: seq<Field>): Option<seq<Field>> {
    match Get(fields, "properties")
    case None => Some([])
    case Some(Obj(properties)) => Some(properties)
    case Some(_) => None
  }

  /** What `items` holds, if anything. */
  function ItemSchema(fields: seq<Field>): Json {
    if Get(fields, "items").Some? then Get(fields, "items").value else Null
  }

  /** Before the schema is looked at: nothing to expand, too deep, or no object. */
  lemma OddSchemas(spec: Json, schema: Json, depth: nat, seen: set<string>)
    ensures schema.Null? ==> ExpandCapped(spec, schema, depth, seen) == Done(Obj([]), [Missing])
    ensures !schema.Null? && depth > 8 ==> ExpandCapped(spec, schema, depth, seen) == Done(Obj([]), [DepthExceeded])
    ensures !schema.Null? && depth <= 8 && !schema.Obj? ==> ExpandCapped(spec, schema, depth, seen) == Raised
  {
  }

  /** A reference stands for what it names, one level deeper, unless it was followed before. */
  lemma ReferenceExpands(spec: Json, fields: seq<Field>, ref: string, depth: nat, seen: set<string>)
    requires Get(fields, "$ref") == Some(Str(ref)) && depth <= 8
    ensures ExpandCapped(spec, Obj(fields), depth, seen) ==
            if ref in seen then Done(Obj([]), [Circular(ref)])
            else ExpandCapped(spec, Target(spec, ref), depth + 1, seen + {ref})
  {
  }

  /** The schema warned about as not composed is the one that only combines others. */
  lemma UncomposedExactly(spec: Json, fields: seq<Field>, depth: nat, seen: set<string>)
    requires Get(fields, "$ref").None? && depth <= 8
    ensures ExpandCapped(spec, Obj(fields), depth, seen) == Done(Obj([]), [Uncomposed]) <==> OnlyCombines(fields)
  {
    if !OnlyCombines(fields) && IsObjectSchema(fields) && Declared(fields).Some? {
      hide ExpandCapped, ShapeOf;
      ObjectExpands(spec, fields, depth, seen);
    }
  }

  /** One property of an expanded object. */
  predicate PropertyExpands(spec: Json, declared: Field, made: Field, depth: nat, seen: set<string>) {
    var expansion := ExpandCapped(spec, declared.value, depth, seen);
    expansion.Done? && made.name == declared.name && made.value == expansion.value
  }

  predicate SomeRaises(spec: Json, declared: seq<Field>, depth: nat, seen: set<string>) {
    exists k :: 0 <= k < |declared| && ExpandCapped(spec, declared[k].value, depth, seen).Raised?
  }

  predicate SomeMarks(spec: Json, declared: seq<Field>, depth: nat, seen: set<string>, mark: Mark)
    requires !SomeRaises(spec, declared, depth, seen)
  {
    exists k :: 0 <= k < |declared| && mark in ExpandCapped(spec, declared[k].value, depth, seen).marks
  }

  /** An object naming exactly the declared properties, in order, each with the expansion of
      its own schema; its warnings are theirs, and it raises if one of them does. */
  ghost predicate ExpandsEach(spec: Json, declared: seq<Field>, r: Expansion, depth: nat, seen: set<string>) {
    if SomeRaises(spec, declared, depth, seen) then r.Raised?
    else
      && r.Done? && r.value.Obj? && |r.value.fields| == |declared|
      && (forall k :: 0 <= k < |declared| ==> PropertyExpands(spec, declared[k], r.value.fields[k], depth, seen))
      && forall mark :: mark in r.marks <==> SomeMarks(spec, declared, depth, seen, mark)
  }

  lemma SomeOfMore(spec: Json, declared: seq<Field>, depth: nat, seen: set<string>, mark: Mark)
    requires declared != []
    ensures SomeRaises(spec, declared, depth, seen) <==>
            ExpandCapped(spec, declared[0].value, depth, seen).Raised? || SomeRaises(spec, declared[1..], depth, seen)
    ensures !SomeRaises(spec, declared, depth, seen) ==>
              (SomeMarks(spec, declared, depth, seen, mark) <==>
               mark in ExpandCapped(spec, declared[0].value, depth, seen).marks
               || SomeMarks(spec, declared[1..], depth, seen, mark))
  {
    hide ExpandCapped;
    var others := declared[1..];
    assert forall k :: 0 <= k < |others| ==> others[k] == declared[k + 1];
    assert forall k :: 0 < k < |declared| ==> declared[k] == others[k - 1];
  }

  lemma {:induction false} PropertiesMark(spec: Json, declared: seq<Field>, depth: nat, seen: set<string>, mark: Mark)
    ensures var r := ExpandPropertiesCapped(spec, declared, depth, seen);
            if SomeRaises(spec, declared, depth, seen) then r.Raised?
            else r.Done? && (mark in r.marks <==> SomeMarks(spec, declared, depth, seen, mark))
    decreases |declared|
  {
    if declared != [] {
      hide ExpandCapped, SomeRaises, SomeMarks;
      PropertiesMark(spec, declared[1..], depth, seen, mark);
      SomeOfMore(spec, declared, depth, seen, mark);
    }
  }

  lemma {:induction false} PropertiesName(spec: Json, declared: seq<Field>, depth: nat, seen: set<string>)
    requires ExpandPropertiesCapped(spec, declared, depth, seen).Done?
    ensures forall k :: 0 <= k < |declared| ==>
              PropertyExpands(spec, declared[k], ExpandPropertiesCapped(spec, declared, depth, seen).value.fields[k],
                              depth, seen)
    decreases |declared|
  {
    if declared != [] {
      hide ExpandCapped;
      PropertiesName(spec, declared[1..], depth, seen);
      assert forall k :: 0 < k < |declared| ==> declared[k] == declared[1..][k - 1];
    }
  }

  lemma PropertiesExpand(spec: Json, declared: seq<Field>, depth: nat, seen: set<string>)
    ensures ExpandsEach(spec, declared, ExpandPropertiesCapped(spec, declared, depth, seen), depth, seen)
  {
    hide ExpandCapped, ExpandPropertiesCapped, SomeRaises, SomeMarks, PropertyExpands;
    forall mark {
      PropertiesMark(spec, declared, depth, seen, mark);
    }
    PropertiesMark(spec, declared, depth, seen, Missing);
    if !SomeRaises(spec, declared, depth, seen) {
      PropertiesName(spec, declared, depth, seen);
    }
  }

  lemma ObjectExpands(spec: Json, fields: seq<Field>, depth: nat, seen: set<string>)
    requires Get(fields, "$ref").None? && IsObjectSchema(fields) && Declared(fields).Some? && depth <= 8
    ensures ExpandsEach(spec, Declared(fields).value, ExpandCapped(spec, Obj(fields), depth, seen), depth + 1, seen)
  {
    var declared := Declared(fields).value;
    assert ExpandCapped(spec, Obj(fields), depth, seen) == ExpandPropertiesCapped(spec, declared, depth + 1, seen);
    hide ExpandCapped, ExpandPropertiesCapped, ExpandsEach;
    PropertiesExpand(spec, declared, depth + 1, seen);
  }

  /** An array example holds exactly one item, the expansion of `items`. */
  lemma ArrayExpands(spec: Json, fields: seq<Field>, depth: nat, seen: set<string>)
    requires Get(fields, "$ref").None? && TypeIs(fields, "array") && Get(fields, "properties").None? && depth <= 8
    ensures var r, item := ExpandCapped(spec, Obj(fields), depth, seen),
                           ExpandCapped(spec, ItemSchema(fields), depth + 1, seen);
            if item.Raised? then r.Raised? else r == Done(Arr([item.value]), item.marks)
  {
  }

  /** What neither refers, combines, nor holds parts is a sample of its type, a string unless
      the type says otherwise. */
  lemma ScalarExpands(spec: Json, fields: seq<Field>, depth: nat, seen: set<string>)
    requires Get(fields, "$ref").None? && !OnlyCombines(fields) && depth <= 8
    requires !IsObjectSchema(fields) && !TypeIs(fields, "array")
    ensures ExpandCapped(spec, Obj(fields), depth, seen) == Done(
              if TypeIs(fields, "integer") then Int(0)
              else if TypeIs(fields, "number") then Real(0.0)
              else if TypeIs(fields, "boolean") then Bool(false)
              else Str("string"), [])
  {
  }

  /** The remaining schema objects raise: a reference that is no string, properties that are
      no object. */
  lemma MalformedRaises(spec: Json, fields: seq<Field>, depth: nat, seen: set<string>)
    requires depth <= 8
    requires if Get(fields, "$ref").Some? then !Get(fields, "$ref").value.Str? else Declared(fields).None?
    ensures ExpandCapped(spec, Obj(fields), depth, seen) == Raised
  {
  }

  /** The references met in a schema before following any of them. */
  lemma RefsOfMembers(fields: seq<Field>)
    ensures SchemaRefs(Obj(fields)) ==
            match Get(fields, "$ref") {
              case Some(Str(ref)) => {ref}
              case Some(_) => {}
              case None =>
                if OnlyCombines(fields) then {}
                else if IsObjectSchema(fields) then
                  if Declared(fields).Some? then PropertyRefs(Declared(fields).value) else {}
                else if TypeIs(fields, "array") then SchemaRefs(ItemSchema(fields))
                else {}
            }
  {
  }

  lemma {:induction false} RefsOfProperties(properties: seq<Field>, ref: string)
    ensures ref in PropertyRefs(properties) <==>
            exists k :: 0 <= k < |properties| && ref in SchemaRefs(properties[k].value)
  {
    hide SchemaRefs;
    if properties != [] {
      RefsOfProperties(properties[1..], ref);
      if ref in PropertyRefs(properties[1..]) {
        var k :| 0 <= k < |properties[1..]| && ref in SchemaRefs(properties[1..][k].value);
        assert ref in SchemaRefs(properties[k + 1].value);
      }
      forall k | 0 < k < |properties| && ref in SchemaRefs(properties[k].value)
        ensures ref in PropertyRefs(properties[1..])
      {
        assert properties[1..][k - 1] == properties[k];
      }
    }
  }

  /* ---- What a reference names. ---- */

  /** The member of an object, if it is an object that has it. */
  function Member(node: Json, name: string): Option<Json> {
    if node.Obj? then Get(node.fields, name) else None
  }

  /** The reference spelled by these segments. */
  function Spelling(parts: seq<string>): string
    requires parts != []
  {
    "#/" + Join(parts, '/')
  }

  /** What is found at a position, if it is an object. */
  function ObjectAt(found: Option<Json>): Json {
    if found.Some? && found.value.Obj? then found.value else Null
  }

  lemma {:induction false} WalkFromTheEnd(node: Json, parts: seq<string>, name: string)
    ensures Walk(node, parts + [name]) ==
            if Walk(node, parts).Some? then Member(Walk(node, parts).value, name) else None
    decreases |parts|
  {
    if parts == [] {
      assert (parts + [name])[1..] == [];
    } else {
      assert (parts + [name])[1..] == parts[1..] + [name];
      if Member(node, parts[0]).Some? {
        WalkFromTheEnd(Get(node.fields, parts[0]).value, parts[1..], name);
      }
    }
  }

  lemma SpellingWalks(spec: Json, parts: seq<string>)
    requires parts != [] && forall part :: part in parts ==> '/' !in part
    ensures Target(spec, Spelling(parts)) == ObjectAt(Walk(spec, parts))
  {
    SplitAllUnique(parts, '/');
    assert Spelling(parts)[2..] == Join(parts, '/');
  }

  /** A reference of one segment names that member of the document, a longer one the member of
      what the reference without its last segment names: an object, or nothing. A reference
      into another document names nothing. */
  lemma ReferenceNames(spec: Json, parts: seq<string>, name: string, ref: string)
    requires '/' !in name && forall part :: part in parts ==> '/' !in part
    ensures parts == [] ==> Target(spec, Spelling([name])) == ObjectAt(Member(spec, name))
    ensures parts != [] ==>
              Target(spec, Spelling(parts + [name])) == ObjectAt(Member(Target(spec, Spelling(parts)), name))
    ensures !("#/" <= ref) ==> Target(spec, ref) == Null
  {
    hide Walk, Join;
    SpellingWalks(spec, parts + [name]);
    WalkFromTheEnd(spec, parts, name);
    if parts == [] {
      assert parts + [name] == [name];
      WalkNowhere(spec);
    } else {
      SpellingWalks(spec, parts);
    }
  }

  lemma WalkNowhere(node: Json)
    ensures Walk(node, []) == Some(node)
  {
  }
}
