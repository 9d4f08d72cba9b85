/** The wire forms member by member: the keys and tags a reader of the JSON sees, and which
    texts name a reference target or an API version. */
module WireForms {
  import opened Wrappers
  import opened Text
  import opened JsonValue
  import opened BindingCodec
  import opened RequestCodec
  import opened ContractResolution

  /* ---- Bindings. ---- */

  /** A target is a prefix and a name: no other text names one, and each names one only. */
  lemma TargetExactly(s: string, name: string)
    ensures DecodeTarget(s) == Some(WorkflowTarget(name)) <==> s == "workflow/" + name
    ensures DecodeTarget(s) == Some(StepTarget(name)) <==> s == "step/" + name
    ensures DecodeTarget(s).None? <==> !("workflow/" <= s) && !("step/" <= s)
    ensures EncodeTarget(WorkflowTarget(name)) == "workflow/" + name && EncodeTarget(StepTarget(name)) == "step/" + name
  {
    var workflow, step := "workflow/", "step/";
    assert |workflow| == 9 && |step| == 5 && workflow[0] == 'w' && step[0] == 's';
    assert workflow <= s ==> s == workflow + s[9..];
    assert step <= s ==> s == step + s[5..];
    assert (workflow + name)[9..] == name && (step + name)[5..] == name;
  }

  /** The members of an encoded literal, format and mirror. */
  lemma PlainBindingMembers(value: Json, sensitive: bool, text: string, key: string)
    ensures Get(EncodeBinding(Literal(value, sensitive)).fields, key) ==
            if key == "const" then Some(value) else if key == "sensitive" then Some(Bool(sensitive)) else None
    ensures Get(EncodeBinding(Format(text)).fields, key) == if key == "format" then Some(Str(text)) else None
    ensures Get(EncodeBinding(Mirror(text)).fields, key) == if key == "mirror_of" then Some(Str(text)) else None
  {
    hide Get;
    GetOfTwo(Field("const", value), Field("sensitive", Bool(sensitive)), key);
    SoleMember(Field("format", Str(text)), key);
    SoleMember(Field("mirror_of", Str(text)), key);
  }

  /** An operand and a transform are tagged by `kind`. */
  lemma OperandMembers(input: string, value: I64, key: string)
    ensures Get(EncodeOperand(WorkflowInput(input)).fields, key) ==
            if key == "kind" then Some(Str("workflow_input")) else if key == "value" then Some(Str(input)) else None
    ensures Get(EncodeOperand(Integer(value)).fields, key) ==
            if key == "kind" then Some(Str("integer")) else if key == "value" then Some(Int(value)) else None
  {
    hide Get;
    GetOfTwo(Field("kind", Str("workflow_input")), Field("value", Str(input)), key);
    GetOfTwo(Field("kind", Str("integer")), Field("value", Int(value)), key);
  }

  lemma TransformMembers(path: string, operand: ArithmeticOperand, key: string)
    ensures Get(EncodeTransform(JsonPath(path)).fields, key) ==
            if key == "kind" then Some(Str("json_path")) else if key == "path" then Some(Str(path)) else None
    ensures Get(EncodeTransform(Arithmetic(Mul, operand)).fields, key) ==
            if key == "kind" then Some(Str("arithmetic")) else if key == "op" then Some(Str("mul"))
            else if key == "operand" then Some(EncodeOperand(operand)) else None
    ensures Get(EncodeTransform(Arithmetic(Add, operand)).fields, key) ==
            if key == "kind" then Some(Str("arithmetic")) else if key == "op" then Some(Str("add"))
            else if key == "operand" then Some(EncodeOperand(operand)) else None
  {
    hide Get, EncodeOperand;
    var kind, last := Field("kind", Str("arithmetic")), Field("operand", EncodeOperand(operand));
    GetOfTwo(Field("kind", Str("json_path")), Field("path", Str(path)), key);
    GetOfThree(kind, Field("op", Str("mul")), last, key);
    GetOfTwo(Field("op", Str("mul")), last, key);
    GetOfThree(kind, Field("op", Str("add")), last, key);
    GetOfTwo(Field("op", Str("add")), last, key);
  }

  /* ---- What is accepted, member by member; other members are ignored. ---- */

  predicate Says(fields: seq<Field>, name: string, text: string) {
    Get(fields, name) == Some(Str(text))
  }

  /** An optional text: absent and `null` are both none. */
  predicate SaysOptional(fields: seq<Field>, name: string, text: Option<string>) {
    match text
    case None => Get(fields, name).None? || Get(fields, name) == Some(Null)
    case Some(own) => Says(fields, name, own)
  }

  /** An optional boolean: absent is false. */
  predicate SaysFlag(fields: seq<Field>, name: string, flag: bool) {
    Get(fields, name) == Some(Bool(flag)) || (!flag && Get(fields, name).None?)
  }

  lemma OperandExactly(json: Json, input: string, value: I64)
    ensures DecodeOperand(json) == Some(WorkflowInput(input)) <==>
            json.Obj? && Says(json.fields, "kind", "workflow_input") && Says(json.fields, "value", input)
    ensures DecodeOperand(json) == Some(Integer(value)) <==>
            json.Obj? && Says(json.fields, "kind", "integer") && Get(json.fields, "value") == Some(Int(value))
  {
    hide Get;
  }

  lemma TransformExactly(json: Json, path: string, operand: ArithmeticOperand)
    ensures DecodeTransform(json) == Some(JsonPath(path)) <==>
            json.Obj? && Says(json.fields, "kind", "json_path") && Says(json.fields, "path", path)
    ensures DecodeTransform(json) == Some(Arithmetic(Mul, operand)) <==> SaysArithmetic(json, "mul", operand)
    ensures DecodeTransform(json) == Some(Arithmetic(Add, operand)) <==> SaysArithmetic(json, "add", operand)
  {
    hide Get, DecodeOperand;
    assert "json_path"[0] != "arithmetic"[0] && "mul"[0] != "add"[0];
  }

  predicate SaysArithmetic(json: Json, op: string, operand: ArithmeticOperand) {
    && json.Obj? && Says(json.fields, "kind", "arithmetic") && Says(json.fields, "op", op)
    && Get(json.fields, "operand").Some? && DecodeOperand(Get(json.fields, "operand").value) == Some(operand)
  }

  /** The optional transform of a reference: absent and `null` are both none. */
  predicate SaysTransform(fields: seq<Field>, transform: Option<TransformKind>) {
    match transform
    case None => Get(fields, "transform").None? || Get(fields, "transform") == Some(Null)
    case Some(own) =>
      Get(fields, "transform").Some? && Get(fields, "transform").value != Null
      && DecodeTransform(Get(fields, "transform").value) == Some(own)
  }

  predicate SaysReference(fields: seq<Field>, from: ReferenceTarget, output: Option<string>,
          transform: Option<TransformKind>)
  {
    && Says(fields, "from", EncodeTarget(from)) && SaysOptional(fields, "output", output)
    && SaysTransform(fields, transform)
  }

  lemma ReferenceMembersExactly(fields: seq<Field>, from: ReferenceTarget, output: Option<string>,
          transform: Option<TransformKind>)
    ensures DecodeReference(fields) == Some(Reference(from, output, transform)) <==>
            SaysReference(fields, from, output, transform)
  {
    hide Get, DecodeTransform, DecodeTarget, EncodeTarget;
    var text := StringMember(fields, "from");
    if text.Some? {
      TargetExactly(text.value, if from.WorkflowTarget? then from.input else from.id);
    }
  }

  predicate SaysSomeText(fields: seq<Field>, name: string) {
    Get(fields, name).Some? && Get(fields, name).value.Str?
  }

  /** The first of the four variants that the members say. */
  predicate SaysBinding(fields: seq<Field>, binding: BindingSource) {
    match binding
    case Literal(value, sensitive) => Get(fields, "const") == Some(value) && SaysFlag(fields, "sensitive", sensitive)
    case Reference(from, output, transform) =>
      DecodeLiteral(fields).None? && SaysReference(fields, from, output, transform)
    case Format(template) =>
      DecodeLiteral(fields).None? && DecodeReference(fields).None? && Says(fields, "format", template)
    case Mirror(mirrorOf) =>
      && DecodeLiteral(fields).None? && DecodeReference(fields).None? && !SaysSomeText(fields, "format")
      && Says(fields, "mirror_of", mirrorOf)
  }

  /** Which object decodes to which binding. */
  lemma BindingExactly(fields: seq<Field>, binding: BindingSource)
    ensures DecodeBinding(Obj(fields)) == Some(binding) <==> SaysBinding(fields, binding)
  {
    hide Get, SaysReference, DecodeReference;
    if binding.Reference? {
      ReferenceMembersExactly(fields, binding.from, binding.output, binding.transform);
    }
    ReferencesAreReferences(fields);
  }

  lemma ReferencesAreReferences(fields: seq<Field>)
    ensures DecodeReference(fields).Some? ==> DecodeReference(fields).value.Reference?
  {
  }

  /** Which object decodes to which capture. */
  lemma CaptureExactly(json: Json, capture: StepOutputCapture)
    ensures DecodeCapture(json) == Some(capture) <==>
            && json.Obj? && Says(json.fields, "name", capture.name) && Says(json.fields, "path", capture.path)
            && Says(json.fields, "source", "responseBody") && SaysFlag(json.fields, "sensitive", capture.sensitive)
            && (if capture.default.None? then
                  Get(json.fields, "default").None? || Get(json.fields, "default") == Some(Null)
                else Get(json.fields, "default") == capture.default && capture.default != Some(Null))
  {
    hide Get;
  }

  /* ---- Bodies. ---- */

  /** Form parts are tagged by `kind`, and a multipart body is an envelope around them. */
  lemma PartMembers(name: string, value: string, path: string, filename: string, key: string)
    ensures Get(EncodePart(TextPart(name, value)).fields, key) ==
            if key == "kind" then Some(Str("text")) else if key == "name" then Some(Str(name))
            else if key == "value" then Some(Str(value)) else None
    ensures Get(EncodePart(FilePart(name, path, filename)).fields, key) ==
            if key == "kind" then Some(Str("file")) else if key == "name" then Some(Str(name))
            else if key == "path" then Some(Str(path)) else if key == "filename" then Some(Str(filename)) else None
  {
    hide Get;
    var own, text, place, file := Field("name", Str(name)), Field("value", Str(value)), Field("path", Str(path)),
                                Field("filename", Str(filename));
    GetOfThree(Field("kind", Str("text")), own, text, key);
    GetOfTwo(own, text, key);
    assert EncodePart(FilePart(name, path, filename)).fields == [Field("kind", Str("file"))] + [own, place, file];
    GetFirst(Field("kind", Str("file")), [own, place, file], key);
    GetOfThree(own, place, file, key);
    GetOfTwo(place, file, key);
  }

  lemma {:induction false} PartsAreEncodedInOrder(parts: seq<FormPart>)
    ensures |EncodeParts(parts)| == |parts|
    ensures forall i :: 0 <= i < |parts| ==> EncodeParts(parts)[i] == EncodePart(parts[i])
  {
    if parts != [] {
      hide EncodePart;
      PartsAreEncodedInOrder(parts[1..]);
      assert forall i :: 0 < i < |parts| ==> parts[i] == parts[1..][i - 1];
    }
  }

  lemma BodyForm(value: Json, parts: seq<FormPart>, key: string)
    ensures EncodeBody(JsonBody(value)) == value
    ensures Get(EncodeBody(Multipart(parts)).fields, key) ==
            if key == "kind" then Some(Str("multipart"))
            else if key == "value" then Some(Arr(EncodeParts(parts))) else None
    ensures LooksMultipart(value) <==> value.Obj? && Get(value.fields, "kind") == Some(Str("multipart"))
  {
    hide Get;
    GetOfTwo(Field("kind", Str("multipart")), Field("value", Arr(EncodeParts(parts))), key);
  }

  /** Which object decodes to which form part. */
  lemma PartExactly(json: Json, part: FormPart)
    ensures DecodePart(json) == Some(part) <==>
            json.Obj? && if part.TextPart? then SaysText(json.fields, part) else SaysFile(json.fields, part)
  {
    hide Get;
    assert "text"[0] != "file"[0];
  }

  predicate SaysText(fields: seq<Field>, part: FormPart)
    requires part.TextPart?
  {
    Says(fields, "kind", "text") && Says(fields, "name", part.name) && Says(fields, "value", part.value)
  }

  predicate SaysFile(fields: seq<Field>, part: FormPart)
    requires part.FilePart?
  {
    && Says(fields, "kind", "file") && Says(fields, "name", part.name) && Says(fields, "path", part.path)
    && Says(fields, "filename", part.filename)
  }

  /* ---- API versions. ---- */

  /** A selector is a 32-bit numeral behind at most one `v` or `V` and at most one `+`. */
  lemma VersionExactly(raw: string, version: ApiVersion)
    ensures ParseVersion(raw) == Some(version) <==>
            exists digits :: IsNumeral(digits) && NumeralValue(digits) == version
                             && SpellsVersion(raw, digits, {'v', 'V'})
    ensures VersionFromStr(raw) == Some(version) <==>
            exists digits :: IsNumeral(digits) && NumeralValue(digits) == version && SpellsVersion(raw, digits, {'v'})
  {
    hide NumeralValue;
    var selected := if raw != "" && (raw[0] == 'v' || raw[0] == 'V') then raw[1..] else raw;
    var listed := if raw != "" && raw[0] == 'v' then raw[1..] else raw;
    UnsignedExactly(selected, U32_BOUND, version);
    UnsignedExactly(listed, U32_BOUND, version);
    forall digits | IsNumeral(digits)
      ensures SpellsVersion(raw, digits, {'v', 'V'}) <==> selected == digits || selected == "+" + digits
      ensures SpellsVersion(raw, digits, {'v'}) <==> listed == digits || listed == "+" + digits
    {
      VersionSpelling(raw, digits, {'v', 'V'}, selected);
      VersionSpelling(raw, digits, {'v'}, listed);
    }
  }

  predicate SpellsVersion(raw: string, digits: string, marks: set<char>) {
    || raw == digits || raw == "+" + digits
    || (exists mark :: mark in marks && (raw == [mark] + digits || raw == [mark] + ("+" + digits)))
  }

  lemma VersionSpelling(raw: string, digits: string, marks: set<char>, trimmed: string)
    requires IsNumeral(digits) && marks <= {'v', 'V'}
    requires trimmed == if raw != "" && raw[0] in marks then raw[1..] else raw
    ensures SpellsVersion(raw, digits, marks) <==> trimmed == digits || trimmed == "+" + digits
  {
    assert digits[0] in digits && IsDigit(digits[0]);
    assert ("+" + digits)[0] == '+';
    if raw != "" && raw[0] in marks {
      assert raw == [raw[0]] + raw[1..];
      forall mark | raw == [mark] + digits || raw == [mark] + ("+" + digits)
        ensures raw[1..] == digits || raw[1..] == "+" + digits
      {
        assert ([mark] + digits)[1..] == digits && ([mark] + ("+" + digits))[1..] == "+" + digits;
      }
    } else {
      forall mark | mark in marks
        ensures raw != [mark] + digits && raw != [mark] + ("+" + digits)
      {
      }
    }
  }

  /** What an unsigned parse reads: a numeral within the bound behind at most one `+`. */
  lemma UnsignedExactly(s: string, bound: nat, n: nat)
    ensures ParseUnsigned(s, bound) == Some(n) <==>
            n < bound && exists digits :: IsNumeral(digits) && NumeralValue(digits) == n
                                          && (s == digits || s == "+" + digits)
  {
    hide NumeralValue;
    var trimmed := if s != "" && s[0] == '+' then s[1..] else s;
    assert s != "" && s[0] == '+' ==> s == "+" + s[1..];
    forall digits | IsNumeral(digits) && (s == digits || s == "+" + digits)
      ensures trimmed == digits
    {
      assert digits[0] in digits && IsDigit(digits[0]);
      assert ("+" + digits)[1..] == digits;
    }
  }

  /** Why a contract is not resolved: each error names the command, what was asked for and
      everything that could have been. */
  lemma ResolutionErrors(command: string, schema: MethodSchema, scope: Option<string>, version: Option<string>)
    requires Resolve(command, schema, scope, version).Err?
    ensures var error := Resolve(command, schema, scope, version).error;
            var chosen := if scope.Some? then scope else schema.defaultScope;
            if chosen.None? then error.MissingScope? && error.command == command && AllScopes(schema, error.scopes)
            else if !HasScope(schema, chosen.value) then
              && error.UnsupportedScope? && error.command == command && error.requested == chosen.value
              && AllScopes(schema, error.scopes)
            else
              && error.UnsupportedVersion? && error.command == command && error.scope == chosen.value
              && FindScope(schema.scopes, chosen.value).Some?
              && (var row := FindScope(schema.scopes, chosen.value).value;
                  && error.requested == (if version.Some? then version.value else "v" + Decimal(row.defaultVersion))
                  && |error.versions| == |row.contracts|
                  && forall i :: 0 <= i < |row.contracts| ==> error.versions[i] == row.contracts[i].apiVersion)
  {
    hide ParseVersion, Decimal;
    var chosen := if scope.Some? then scope else schema.defaultScope;
    if chosen.Some? {
      FoundScope(schema.scopes, chosen.value);
    }
  }

  predicate AllScopes(schema: MethodSchema, names: seq<string>) {
    |names| == |schema.scopes| && forall i :: 0 <= i < |names| ==> names[i] == schema.scopes[i].scope
  }

  predicate HasScope(schema: MethodSchema, name: string) {
    exists i :: 0 <= i < |schema.scopes| && schema.scopes[i].scope == name
  }
}
