/** The wire forms of step bindings and output captures, and their round trips. */
module BindingCodec {
  import opened Wrappers
  import opened JsonValue

  /* ---- What a step input is bound to. ---- */

  const I64_MIN: int := -0x8000_0000_0000_0000
  const I64_MAX: int := 0x7FFF_FFFF_FFFF_FFFF

  type I64 = i: int | I64_MIN <= i <= I64_MAX

  datatype ReferenceTarget = WorkflowTarget(input: string) | StepTarget(id: string)

  datatype ArithmeticOp = Mul | Add

  datatype ArithmeticOperand = WorkflowInput(input: string) | Integer(value: I64)

  datatype TransformKind = JsonPath(path: string) | Arithmetic(op: ArithmeticOp, operand: ArithmeticOperand)

  datatype BindingSource =
    | Literal(value: Json, sensitive: bool)
    | Reference(from: ReferenceTarget, output: Option<string>, transform: Option<TransformKind>)
    | Format(template: string)
    | Mirror(mirrorOf: string)

  /** `default` is `None` when an unresolved capture fails the step. */
  datatype StepOutputCapture = StepOutputCapture(name: string, path: string, default: Option<Json>, sensitive: bool)

  /* ---- Encoding. ---- */

  function Optional(name: string, value: Option<Json>): seq<Field> {
    if value.Some? then [Field(name, value.value)] else []
  }

  function EncodeTarget(target: ReferenceTarget): string {
    match target
    case WorkflowTarget(input) => "workflow/" + input
    case StepTarget(id) => "step/" + id
  }

  function EncodeOperand(operand: ArithmeticOperand): Json {
    match operand
    case WorkflowInput(input) => Obj([Field("kind", Str("workflow_input")), Field("value", Str(input))])
    case Integer(value) => Obj([Field("kind", Str("integer")), Field("value", Int(value))])
  }

  function EncodeTransform(transform: TransformKind): Json {
    match transform
    case JsonPath(path) => Obj([Field("kind", Str("json_path")), Field("path", Str(path))])
    case Arithmetic(op, operand) =>
      Obj([Field("kind", Str("arithmetic")), Field("op", Str(if op.Mul? then "mul" else "add")),
           Field("operand", EncodeOperand(operand))])
  }

  function EncodeBinding(binding: BindingSource): Json {
    match binding
    case Literal(value, sensitive) => Obj([Field("const", value), Field("sensitive", Bool(sensitive))])
    case Reference(from, output, transform) =>
      Obj([Field("from", Str(EncodeTarget(from)))]
          + Optional("output", if output.Some? then Some(Str(output.value)) else None)
          + Optional("transform", if transform.Some? then Some(EncodeTransform(transform.value)) else None))
    case Format(template) => Obj([Field("format", Str(template))])
    case Mirror(mirrorOf) => Obj([Field("mirror_of", Str(mirrorOf))])
  }

  function EncodeCapture(capture: StepOutputCapture): Json {
    Obj([Field("name", Str(capture.name)), Field("source", Str("responseBody")), Field("path", Str(capture.path))]
        + Optional("default", capture.default)
        + [Field("sensitive", Bool(capture.sensitive))])
  }

  /* ---- Decoding; unknown members are ignored. ---- */

  function StringMember(fields: seq<Field>, name: string): Option<string> {
    match Get(fields, name)
    case Some(Str(s)) => Some(s)
    case _ => None
  }

  /** A defaulted boolean: absent is `false`, anything but a boolean is an error. */
  function FlagMember(fields: seq<Field>, name: string): Option<bool> {
    match Get(fields, name)
    case None => Some(false)
    case Some(Bool(b)) => Some(b)
    case _ => None
  }

  function DecodeTarget(s: string): Option<ReferenceTarget> {
    if "workflow/" <= s then Some(WorkflowTarget(s[|"workflow/"|..]))
    else if "step/" <= s then Some(StepTarget(s[|"step/"|..]))
    else None
  }

  function DecodeOperand(json: Json): Option<ArithmeticOperand> {
    if !json.Obj? then None else
    match (StringMember(json.fields, "kind"), Get(json.fields, "value"))
    case (Some(kind), Some(Str(s))) => if kind == "workflow_input" then Some(WorkflowInput(s)) else None
    case (Some(kind), Some(Int(i))) => if kind == "integer" && I64_MIN <= i <= I64_MAX then Some(Integer(i)) else None
    case _ => None
  }

  function DecodeOp(s: string): Option<ArithmeticOp> {
    if s == "mul" then Some(Mul) else if s == "add" then Some(Add) else None
  }

  function DecodeTransform(json: Json): Option<TransformKind> {
    if !json.Obj? then None else
    var kind := StringMember(json.fields, "kind");
    if kind == Some("json_path") then
      var path := StringMember(json.fields, "path");
      if path.Some? then Some(JsonPath(path.value)) else None
    else if kind == Some("arithmetic") then
      match (StringMember(json.fields, "op"), Get(json.fields, "operand"))
      case (Some(op), Some(operand)) =>
        if DecodeOp(op).Some? && DecodeOperand(operand).Some? then
          Some(Arithmetic(DecodeOp(op).value, DecodeOperand(operand).value))
        else None
      case _ => None
    else None
  }

  function DecodeLiteral(fields: seq<Field>): Option<BindingSource> {
    var value, sensitive := Get(fields, "const"), FlagMember(fields, "sensitive");
    if value.Some? && sensitive.Some? then Some(Literal(value.value, sensitive.value)) else None
  }

  /** An optional member: absent and `null` both mean none; a wrong type is an error. */
  function DecodeOutput(fields: seq<Field>): Result<Option<string>, ()> {
    match Get(fields, "output")
    case None => Ok(None)
    case Some(Null) => Ok(None)
    case Some(Str(s)) => Ok(Some(s))
    case _ => Err(())
  }

  function DecodeTransformMember(fields: seq<Field>): Result<Option<TransformKind>, ()> {
    match Get(fields, "transform")
    case None => Ok(None)
    case Some(Null) => Ok(None)
    case Some(json) => if DecodeTransform(json).Some? then Ok(DecodeTransform(json)) else Err(())
  }

  function DecodeReference(fields: seq<Field>): Option<BindingSource> {
    var from := StringMember(fields, "from");
    if from.None? then None else
    var target := DecodeTarget(from.value);
    var output, transform := DecodeOutput(fields), DecodeTransformMember(fields);
    if target.Some? && output.Ok? && transform.Ok? then Some(Reference(target.value, output.value, transform.value))
    else None
  }

  function DecodeFormat(fields: seq<Field>): Option<BindingSource> {
    var template := StringMember(fields, "format");
    if template.Some? then Some(Format(template.value)) else None
  }

  function DecodeMirror(fields: seq<Field>): Option<BindingSource> {
    var mirrorOf := StringMember(fields, "mirror_of");
    if mirrorOf.Some? then Some(Mirror(mirrorOf.value)) else None
  }

  /** Untagged: the variants are tried in declaration order and the first that fits wins. */
  function DecodeBinding(json: Json): Option<BindingSource> {
    if !json.Obj? then None
    else if DecodeLiteral(json.fields).Some? then DecodeLiteral(json.fields)
    else if DecodeReference(json.fields).Some? then DecodeReference(json.fields)
    else if DecodeFormat(json.fields).Some? then DecodeFormat(json.fields)
    else DecodeMirror(json.fields)
  }

  function DecodeCapture(json: Json): Option<StepOutputCapture> {
    if !json.Obj? then None else
    var name, path := StringMember(json.fields, "name"), StringMember(json.fields, "path");
    var sensitive := FlagMember(json.fields, "sensitive");
    var default := match Get(json.fields, "default") case Some(Null) => None case other => other;
    if name.Some? && path.Some? && sensitive.Some? && StringMember(json.fields, "source") == Some("responseBody") then
      Some(StepOutputCapture(name.value, path.value, default, sensitive.value))
    else None
  }

  /* ---- Round trips. ---- */

  lemma GetFirst(field: Field, rest: seq<Field>, name: string)
    ensures Get([field] + rest, name) == if field.name == name then Some(field.value) else Get(rest, name)
  {
    assert ([field] + rest)[1..] == rest;
  }

  lemma OnlyMember(fields: seq<Field>)
    requires |fields| == 1
    ensures forall name :: Get(fields, name) == if fields[0].name == name then Some(fields[0].value) else None
  {
    assert fields[1..] == [];
  }

  lemma GetOfTwo(a: Field, b: Field, name: string)
    ensures Get([a, b], name) ==
            if a.name == name then Some(a.value) else if b.name == name then Some(b.value) else None
  {
    assert [a, b] == [a] + ([b] + []);
    GetFirst(a, [b] + [], name);
    GetFirst(b, [], name);
  }

  lemma GetOfThree(a: Field, b: Field, c: Field, name: string)
    ensures Get([a, b, c], name) == if a.name == name then Some(a.value) else Get([b, c], name)
  {
    assert [a, b, c] == [a] + [b, c];
    GetFirst(a, [b, c], name);
  }

  lemma TargetRoundTrip(target: ReferenceTarget)
    ensures DecodeTarget(EncodeTarget(target)) == Some(target)
  {
    match target {
      case WorkflowTarget(input) => assert ("workflow/" + input)[|"workflow/"|..] == input;
      case StepTarget(id) =>
        assert EncodeTarget(target)[0] == 's' && "workflow/"[0] == 'w';
        assert ("step/" + id)[|"step/"|..] == id;
    }
  }

  lemma OperandRoundTrip(operand: ArithmeticOperand)
    ensures DecodeOperand(EncodeOperand(operand)) == Some(operand)
  {
    var fields := EncodeOperand(operand).fields;
    GetOfTwo(fields[0], fields[1], "kind");
    GetOfTwo(fields[0], fields[1], "value");
    assert "kind"[0] != "value"[0] && "workflow_input"[0] != "integer"[0];
  }

  lemma TransformRoundTrip(transform: TransformKind)
    ensures EncodeTransform(transform).Obj? && DecodeTransform(EncodeTransform(transform)) == Some(transform)
  {
    var fields := EncodeTransform(transform).fields;
    assert "json_path"[0] != "arithmetic"[0];
    assert "kind"[0] == 'k' && "path"[0] == 'p' && "op"[1] == 'p' && "operand"[0] == 'o';
    if transform.Arithmetic? {
      forall name {:trigger Get(fields, name)} | name in {"kind", "op", "operand"}
        ensures Get(fields, name) == if name == "kind" then Some(fields[0].value)
                                     else if name == "op" then Some(fields[1].value) else Some(fields[2].value)
      {
        GetOfThree(fields[0], fields[1], fields[2], name);
        GetOfTwo(fields[1], fields[2], name);
      }
      OperandRoundTrip(transform.operand);
      assert "mul"[0] != "add"[0];
    } else {
      GetOfTwo(fields[0], fields[1], "kind");
      GetOfTwo(fields[0], fields[1], "path");
    }
  }

  /** Where each member of an encoded reference is found. */
  lemma ReferenceMember(binding: BindingSource, key: string)
    requires binding.Reference?
    ensures Get(EncodeBinding(binding).fields, key) ==
            if key == "from" then Some(Str(EncodeTarget(binding.from)))
            else if key == "output" && binding.output.Some? then Some(Str(binding.output.value))
            else if key == "transform" && binding.transform.Some? then Some(EncodeTransform(binding.transform.value))
            else None
  {
    hide Get, EncodeTarget, EncodeTransform;
    var from := Field("from", Str(EncodeTarget(binding.from)));
    var output := Optional("output", if binding.output.Some? then Some(Str(binding.output.value)) else None);
    var transform := Optional("transform",
                              if binding.transform.Some? then Some(EncodeTransform(binding.transform.value)) else None);
    assert EncodeBinding(binding).fields == [from] + (output + transform);
    GetFirst(from, output + transform, key);
    if binding.output.Some? {
      assert output + transform == [output[0]] + transform;
      GetFirst(output[0], transform, key);
    } else {
      assert output + transform == transform;
    }
    if binding.transform.Some? {
      SoleMember(transform[0], key);
    } else {
      NoMember(key);
    }
  }

  lemma NoMember(key: string)
    ensures Get([], key) == None
  {
  }

  lemma ReferenceRoundTrip(binding: BindingSource)
    requires binding.Reference?
    ensures DecodeLiteral(EncodeBinding(binding).fields).None?
    ensures DecodeReference(EncodeBinding(binding).fields) == Some(binding)
  {
    hide Get, EncodeTarget, EncodeTransform, DecodeTarget, DecodeTransform, EncodeBinding;
    assert "from"[0] == 'f' && "output"[0] == 'o' && "transform"[0] == 't' && "const"[0] == 'c';
    ReferenceMember(binding, "const");
    ReferenceMember(binding, "from");
    ReferenceMember(binding, "output");
    ReferenceMember(binding, "transform");
    TargetRoundTrip(binding.from);
    if binding.transform.Some? {
      TransformRoundTrip(binding.transform.value);
    }
  }

  /** Decoding the untagged encoding of any binding gives it back, although the variants are
      tried in order and none carries a tag. */
  lemma BindingRoundTrip(binding: BindingSource)
    ensures DecodeBinding(EncodeBinding(binding)) == Some(binding)
  {
    var fields := EncodeBinding(binding).fields;
    match binding {
      case Literal(value, sensitive) =>
        GetOfTwo(fields[0], fields[1], "const");
        GetOfTwo(fields[0], fields[1], "sensitive");
      case Reference(_, _, _) => ReferenceRoundTrip(binding);
      case Format(template) =>
        assert "format"[0] == 'f' && "const"[0] == 'c' && |"from"| != |"format"|;
        OnlyMember(fields);
      case Mirror(mirrorOf) =>
        assert "mirror_of"[0] == 'm' && "const"[0] == 'c' && "from"[0] == 'f' && "format"[0] == 'f';
        OnlyMember(fields);
    }
  }

  /** Discrimination by key: no object decodes to a variant whose key it lacks. A `const` key
      selects the literal exactly when `sensitive` is absent or a boolean; otherwise the
      object falls through to whichever later key it carries. */
  lemma KeysDiscriminate(fields: seq<Field>)
    ensures var decoded := DecodeBinding(Obj(fields));
            && (decoded.Some? && decoded.value.Literal? <==>
                  Has(fields, "const") && (Has(fields, "sensitive") ==> Get(fields, "sensitive").value.Bool?))
            && (decoded.Some? && decoded.value.Reference? ==> Has(fields, "from"))
            && (decoded.Some? && decoded.value.Format? ==> Has(fields, "format"))
            && (decoded.Some? && decoded.value.Mirror? ==> Has(fields, "mirror_of"))
  {
    assert DecodeLiteral(fields).Some? <==>
           Has(fields, "const") && (Has(fields, "sensitive") ==> Get(fields, "sensitive").value.Bool?);
  }

  /** Where each member of an encoded capture is found. */
  lemma CaptureMember(capture: StepOutputCapture, key: string)
    ensures Get(EncodeCapture(capture).fields, key) ==
            if key == "name" then Some(Str(capture.name))
            else if key == "source" then Some(Str("responseBody"))
            else if key == "path" then Some(Str(capture.path))
            else if key == "default" && capture.default.Some? then capture.default
            else if key == "sensitive" then Some(Bool(capture.sensitive))
            else None
  {
    hide Get;
    var name, source, path :=
      Field("name", Str(capture.name)), Field("source", Str("responseBody")), Field("path", Str(capture.path));
    var default, sensitive := Optional("default", capture.default), Field("sensitive", Bool(capture.sensitive));
    var tail := default + [sensitive];
    assert EncodeCapture(capture).fields == [name] + ([source] + ([path] + tail));
    GetFirst(name, [source] + ([path] + tail), key);
    GetFirst(source, [path] + tail, key);
    GetFirst(path, tail, key);
    if capture.default.Some? {
      assert tail == [default[0]] + [sensitive];
      GetFirst(default[0], [sensitive], key);
    } else {
      assert tail == [sensitive];
    }
    SoleMember(sensitive, key);
  }

  lemma SoleMember(field: Field, key: string)
    ensures Get([field], key) == if field.name == key then Some(field.value) else None
  {
    OnlyMember([field]);
  }

  /** An output capture round-trips exactly when its default is not an explicit null, which
      comes back as no default at all. */
  lemma CaptureRoundTripsExactly(capture: StepOutputCapture)
    ensures DecodeCapture(EncodeCapture(capture)) ==
            Some(capture.(default := if capture.default == Some(Null) then None else capture.default))
    ensures DecodeCapture(EncodeCapture(capture)) == Some(capture) <==> capture.default != Some(Null)
  {
    hide Get;
    assert "name"[0] == 'n' && "source"[1] == 'o' && "path"[0] == 'p' && "default"[0] == 'd' && "sensitive"[1] == 'e';
    CaptureMember(capture, "name");
    CaptureMember(capture, "source");
    CaptureMember(capture, "path");
    CaptureMember(capture, "default");
    CaptureMember(capture, "sensitive");
  }
}
