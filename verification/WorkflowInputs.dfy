/** The executor's pre-supplied inputs: which declared input gets which request value. */
module WorkflowInputs {
  import opened Wrappers
  import opened Text
  import opened JsonValue
  import opened BindingCodec
  import opened RequestCodec

  datatype InputSpec = InputSpec(name: string, schema: Option<Json>)

  datatype CommandRequest = CommandRequest(
    namespaceName: Option<string>,
    pathParams: map<string, string>,
    queryParams: map<string, string>,
    headerParams: map<string, string>,
    formParams: map<string, string>,
    body: Option<RequestBody>)

  /** The foreign parsers: floating-point numbers and whole JSON documents. */
  datatype Parsers = Parsers(number: string -> Option<Json>, document: string -> Option<Json>)

  /* ---- Coercion. ---- */

  function ParseI64(raw: string): Option<I64> {
    var negative := raw != "" && raw[0] == '-';
    var digits := if raw != "" && (raw[0] == '-' || raw[0] == '+') then raw[1..] else raw;
    if !IsNumeral(digits) then None else
    var value: int := if negative then 0 - NumeralValue(digits) as int else NumeralValue(digits);
    if I64_MIN <= value <= I64_MAX then Some(value) else None
  }

  function Lower(c: char): char {
    if 'A' <= c <= 'Z' then c - 'A' + 'a' else c
  }

  function AsciiLower(s: string): string {
    if s == "" then "" else [Lower(s[0])] + AsciiLower(s[1..])
  }

  function TypeHint(schema: Option<Json>): string {
    if schema.Some? && schema.value.Obj? then
      match Get(schema.value.fields, "type")
      case Some(Str(hint)) => hint
      case _ => "string"
    else "string"
  }

  function Coerce(p: Parsers, raw: string, schema: Option<Json>): Json {
    var hint := TypeHint(schema);
    if hint == "integer" then (if ParseI64(raw).Some? then Int(ParseI64(raw).value) else Str(raw))
    else if hint == "number" then (if p.number(raw).Some? then p.number(raw).value else Str(raw))
    else if hint == "boolean" then
      (if AsciiLower(raw) == "true" then Bool(true) else if AsciiLower(raw) == "false" then Bool(false) else Str(raw))
    else if hint == "array" || hint == "object" then
      (if p.document(raw).Some? then p.document(raw).value else Str(raw))
    else Str(raw)
  }

  /* ---- Declarations and body members. ---- */

  /** Declared schemas by name; the last declaration of a name wins. */
  function Schemas(inputs: seq<InputSpec>): map<string, Option<Json>>
    decreases |inputs|
  {
    if inputs == [] then map[]
    else Schemas(inputs[..|inputs| - 1])[inputs[|inputs| - 1].name := inputs[|inputs| - 1].schema]
  }

  /** The members of an object by name, read as `Get` reads them. */
  function Members(fields: seq<Field>): map<string, Json> {
    if fields == [] then map[]
    else Members(fields[1..])[fields[0].name := fields[0].value]
  }

  lemma {:induction false} MembersAreRead(fields: seq<Field>, name: string)
    ensures name in Members(fields) <==> Has(fields, name)
    ensures name in Members(fields) ==> Get(fields, name) == Some(Members(fields)[name])
  {
    if fields != [] {
      MembersAreRead(fields[1..], name);
    }
  }

  /** The members of a JSON object body; any other body has none. */
  function BodyMembers(body: Option<RequestBody>): map<string, Json> {
    if body.Some? && body.value.JsonBody? && body.value.value.Obj? then Members(body.value.value.fields) else map[]
  }

  /* ---- The reference definition: one winner per input. ---- */

  datatype Source = FromBody | FromNamespace | FromForm | FromHeader | FromQuery | FromPath

  const NAMESPACE := "namespace"

  /** The highest-priority flag naming an input. */
  function FlagWinner(request: CommandRequest, name: string): Option<Source> {
    if name == "namespace" && request.namespaceName.Some? then Some(FromNamespace)
    else if name in request.formParams then Some(FromForm)
    else if name in request.headerParams then Some(FromHeader)
    else if name in request.queryParams then Some(FromQuery)
    else if name in request.pathParams then Some(FromPath)
    else None
  }

  /** The highest-priority source naming an input: the body before any flag. */
  function Winner(request: CommandRequest, name: string): Option<Source> {
    if name in BodyMembers(request.body) then Some(FromBody) else FlagWinner(request, name)
  }

  /** The raw text the winning flag gives an input. */
  function RawText(request: CommandRequest, name: string): string
    requires FlagWinner(request, name).Some?
  {
    match FlagWinner(request, name).value
    case FromNamespace => request.namespaceName.value
    case FromForm => request.formParams[name]
    case FromHeader => request.headerParams[name]
    case FromQuery => request.queryParams[name]
    case FromPath => request.pathParams[name]
  }

  /** What the winning source supplies: body values verbatim, all others coerced by schema. */
  function Value(p: Parsers, request: CommandRequest, name: string, schema: Option<Json>): Json
    requires Winner(request, name).Some?
  {
    if name in BodyMembers(request.body) then BodyMembers(request.body)[name]
    else Coerce(p, RawText(request, name), schema)
  }

  /* ---- The procedure. ---- */

  /** `cli_flags_matching_workflow_inputs`: exactly the declared inputs some source names, each
      with its highest-priority source's value. */
  method MatchingInputs(p: Parsers, inputs: seq<InputSpec>, request: CommandRequest)
    returns (supplied: map<string, Json>)
    ensures forall name :: name in supplied <==> name in Schemas(inputs) && Winner(request, name).Some?
    ensures forall name :: name in supplied ==> supplied[name] == Value(p, request, name, Schemas(inputs)[name])
  {
    var schemas := Schemas(inputs);
    var flags := SupplyFlags((raw, schema) => Coerce(p, raw, schema), schemas, request);
    supplied := SupplyBody(schemas, BodyMembers(request.body), flags);
    forall name
      ensures TopText(Layers(request), name) ==
              if FlagWinner(request, name).Some? then Some(RawText(request, name)) else None
    {
      LayersAreFlags(request, name);
    }
  }

  /** The string-valued flags, lowest priority first. */
  function Layers(request: CommandRequest): seq<map<string, string>> {
    [request.pathParams, request.queryParams, request.headerParams, request.formParams,
     if request.namespaceName.Some? then map[NAMESPACE := request.namespaceName.value] else map[]]
  }

  /** The text of the last layer naming an input. */
  function TopText(layers: seq<map<string, string>>, name: string): Option<string>
    decreases |layers|
  {
    if layers == [] then None
    else if name in layers[|layers| - 1] then Some(layers[|layers| - 1][name])
    else TopText(layers[..|layers| - 1], name)
  }

  ghost predicate Layered(coerce: (string, Option<Json>) -> Json, schemas: map<string, Option<Json>>,
          layers: seq<map<string, string>>, supplied: map<string, Json>)
  {
    && (forall name :: name in supplied <==> name in schemas && TopText(layers, name).Some?)
    && (forall name :: name in supplied ==> supplied[name] == coerce(TopText(layers, name).value, schemas[name]))
  }

  lemma LayersAreFlags(request: CommandRequest, name: string)
    ensures TopText(Layers(request), name) ==
            if FlagWinner(request, name).Some? then Some(RawText(request, name)) else None
  {
    var layers := Layers(request);
    assert layers[..4][..3] == layers[..3] && layers[..3][..2] == layers[..2] && layers[..2][..1] == layers[..1];
    assert layers[..1][..0] == [];
    assert TopText(layers[..1], name) == if name in request.pathParams then Some(request.pathParams[name]) else None;
    assert TopText(layers[..2], name) ==
           if name in request.queryParams then Some(request.queryParams[name]) else TopText(layers[..1], name);
    assert TopText(layers[..3], name) ==
           if name in request.headerParams then Some(request.headerParams[name]) else TopText(layers[..2], name);
    assert TopText(layers[..4], name) ==
           if name in request.formParams then Some(request.formParams[name]) else TopText(layers[..3], name);
  }

  method SupplyFlags(coerce: (string, Option<Json>) -> Json, schemas: map<string, Option<Json>>,
          request: CommandRequest)
    returns (supplied: map<string, Json>)
    ensures Layered(coerce, schemas, Layers(request), supplied)
  {
    var layers := Layers(request);
    supplied := map[];
    var i := 0;
    while i < |layers|
      invariant 0 <= i <= |layers| && Layered(coerce, schemas, layers[..i], supplied)
    {
      supplied := SupplyStrings(coerce, schemas, layers[..i], layers[i], supplied);
      assert layers[..i] + [layers[i]] == layers[..i + 1];
      i := i + 1;
    }
    assert layers[..i] == layers;
  }

  /** Body members are already typed and pass through verbatim. */
  method SupplyBody(schemas: map<string, Option<Json>>, body: map<string, Json>, before: map<string, Json>)
    returns (supplied: map<string, Json>)
    ensures forall name :: name in supplied <==> name in before || (name in body && name in schemas)
    ensures forall name :: name in supplied ==>
              supplied[name] == if name in body && name in schemas then body[name] else before[name]
  {
    supplied := before;
    var pending := body.Keys;
    while pending != {}
      invariant pending <= body.Keys
      invariant forall name :: name in supplied <==> name in before || (name in body.Keys - pending && name in schemas)
      invariant forall name :: name in supplied ==>
                  supplied[name] == if name in body.Keys - pending && name in schemas then body[name] else before[name]
      decreases |pending|
    {
      var name :| name in pending;
      pending := pending - {name};
      if name in schemas {
        supplied := supplied[name := body[name]];
      }
    }
  }

  /** One map of string flags: each declared name is inserted over what was there. */
  method SupplyStrings(coerce: (string, Option<Json>) -> Json, schemas: map<string, Option<Json>>,
          ghost layers: seq<map<string, string>>, params: map<string, string>, before: map<string, Json>)
    returns (supplied: map<string, Json>)
    requires Layered(coerce, schemas, layers, before)
    ensures Layered(coerce, schemas, layers + [params], supplied)
  {
    supplied := before;
    var pending := params.Keys;
    while pending != {}
      invariant pending <= params.Keys
      invariant forall name :: name in supplied <==>
                  name in before || (name in params.Keys - pending && name in schemas)
      invariant forall name :: name in supplied ==>
                  supplied[name] == if name in params.Keys - pending && name in schemas
                                    then coerce(params[name], schemas[name]) else before[name]
      decreases |pending|
    {
      var name :| name in pending;
      pending := pending - {name};
      if name in schemas {
        supplied := supplied[name := coerce(params[name], schemas[name])];
      }
    }
    assert (layers + [params])[..|layers|] == layers;
  }

  /* ---- Theorems about coercion. ---- */

  function DisplayI64(i: I64): string {
    if i < 0 then "-" + Decimal(0 - i as int) else Decimal(i)
  }

  /** Every 64-bit integer survives being typed as a flag of an integer input. */
  lemma IntegerFlagRoundTrip(p: Parsers, i: I64, schema: Option<Json>)
    requires TypeHint(schema) == "integer"
    ensures Coerce(p, DisplayI64(i), schema) == Int(i)
  {
    hide TypeHint, AsciiLower;
    I64RoundTrip(i);
  }

  lemma I64RoundTrip(i: I64)
    ensures ParseI64(DisplayI64(i)) == Some(i)
  {
    hide NumeralValue, Decimal;
    if i < 0 {
      DecimalValue(0 - i as int);
      assert DisplayI64(i)[1..] == Decimal(0 - i as int);
    } else {
      DecimalValue(i);
      assert Decimal(i)[0] in Decimal(i);
    }
  }

  /** Coercion never rejects and never alters text it cannot read: the result has the type
      the schema asks for, or is the raw text. */
  lemma CoercionKeepsTextOrType(p: Parsers, raw: string, schema: Option<Json>)
    requires forall s :: p.number(s).Some? ==> p.number(s).value.Real? || p.number(s).value.Int?
    ensures var value := Coerce(p, raw, schema);
            || value == Str(raw)
            || (value.Int? && TypeHint(schema) == "integer" && I64_MIN <= value.i <= I64_MAX)
            || ((value.Real? || value.Int?) && TypeHint(schema) == "number")
            || (value.Bool? && TypeHint(schema) == "boolean")
            || ((TypeHint(schema) == "array" || TypeHint(schema) == "object") && p.document(raw) == Some(value))
  {
    // One case per type hint.
  }

  /** The type a schema asks for: the text of its `type`, and a string where it has none. */
  lemma HintIsTheType(fields: seq<Field>, hint: string)
    ensures Get(fields, "type") == Some(Str(hint)) ==> TypeHint(Some(Obj(fields))) == hint
    ensures !(Get(fields, "type").Some? && Get(fields, "type").value.Str?) ==> TypeHint(Some(Obj(fields))) == "string"
    ensures TypeHint(None) == "string"
  {
  }

  /** The same letters, in either case. */
  predicate SameLetters(raw: string, word: string) {
    |raw| == |word| && forall i :: 0 <= i < |word| ==> raw[i] == word[i] || raw[i] == Upper(word[i])
  }

  function Upper(c: char): char {
    if 'a' <= c <= 'z' then c - 'a' + 'A' else c
  }

  lemma LowerOrUpper(c: char, letter: char)
    requires 'a' <= letter <= 'z'
    ensures Lower(c) == letter <==> c == letter || c == Upper(letter)
  {
  }

  lemma SameTails(raw: string, word: string)
    requires raw != "" && word != ""
    ensures SameLetters(raw, word) <==>
            (raw[0] == word[0] || raw[0] == Upper(word[0])) && SameLetters(raw[1..], word[1..])
  {
    hide Upper;
    assert forall i :: 0 < i < |word| && i < |raw| ==> raw[i] == raw[1..][i - 1] && word[i] == word[1..][i - 1];
    assert forall i :: 0 <= i < |word[1..]| && i < |raw[1..]| ==>
             raw[1..][i] == raw[i + 1] && word[1..][i] == word[i + 1];
  }

  lemma {:induction false} LowerExactly(raw: string, word: string)
    requires forall c :: c in word ==> 'a' <= c <= 'z'
    ensures AsciiLower(raw) == word <==> SameLetters(raw, word)
  {
    if raw != "" && word != "" {
      hide SameLetters, Lower, Upper;
      assert word == [word[0]] + word[1..] && word[0] in word;
      assert forall c :: c in word[1..] ==> c in word;
      LowerExactly(raw[1..], word[1..]);
      SameTails(raw, word);
      LowerOrUpper(raw[0], word[0]);
      assert AsciiLower(raw)[0] == Lower(raw[0]) && AsciiLower(raw)[1..] == AsciiLower(raw[1..]);
    }
  }

  /** A boolean input is `true` or `false`, in whatever case, or the text as typed. */
  lemma BooleanFlagExactly(p: Parsers, raw: string, schema: Option<Json>)
    requires TypeHint(schema) == "boolean"
    ensures Coerce(p, raw, schema) ==
            if SameLetters(raw, "true") then Bool(true)
            else if SameLetters(raw, "false") then Bool(false)
            else Str(raw)
  {
    hide AsciiLower, SameLetters, TypeHint;
    LowerExactly(raw, "true");
    LowerExactly(raw, "false");
  }

  /** The number a text spells: digits behind at most one sign. */
  predicate Spells(raw: string, digits: string, i: int) {
    && IsNumeral(digits)
    && (((raw == digits || raw == "+" + digits) && i == NumeralValue(digits))
        || (raw == "-" + digits && i == 0 - NumeralValue(digits) as int))
  }

  /** An integer input is a 64-bit number spelled so, or the text as typed. */
  lemma IntegerFlagExactly(p: Parsers, raw: string, schema: Option<Json>, i: int)
    requires TypeHint(schema) == "integer"
    ensures Coerce(p, raw, schema) == Int(i) <==> I64_MIN <= i <= I64_MAX && exists digits :: Spells(raw, digits, i)
    ensures Coerce(p, raw, schema).Int? || Coerce(p, raw, schema) == Str(raw)
  {
    hide NumeralValue, TypeHint;
    var signed := raw != "" && (raw[0] == '-' || raw[0] == '+');
    var digits := if signed then raw[1..] else raw;
    assert signed ==> raw == [raw[0]] + digits;
    forall other | IsNumeral(other) && (raw == other || raw == "+" + other || raw == "-" + other)
      ensures other == digits && (raw == "-" + other <==> raw[0] == '-')
    {
      assert other[0] in other && IsDigit(other[0]);
      assert ("+" + other)[1..] == other && ("-" + other)[1..] == other;
    }
    if Coerce(p, raw, schema) == Int(i) {
      assert Spells(raw, digits, i);
    }
  }

  /** Numbers and documents are what the foreign parsers read, or the text as typed; every
      other type takes the text as typed. */
  lemma OtherFlagsExactly(p: Parsers, raw: string, schema: Option<Json>)
    requires TypeHint(schema) != "integer" && TypeHint(schema) != "boolean"
    ensures var hint := TypeHint(schema);
            Coerce(p, raw, schema) ==
            if hint == "number" && p.number(raw).Some? then p.number(raw).value
            else if (hint == "array" || hint == "object") && p.document(raw).Some? then p.document(raw).value
            else Str(raw)
  {
    hide TypeHint;
    assert "number"[0] == 'n' && "array"[0] == 'a' && "object"[0] == 'o';
  }

  /** The member of a JSON object body, if the body is one and has it. */
  function BodyMember(request: CommandRequest, name: string): Option<Json> {
    if request.body.Some? && request.body.value.JsonBody? && request.body.value.value.Obj? then
      Get(request.body.value.value.fields, name)
    else None
  }

  /** What a name is supplied with, read off the request: the body's own member first, then
      the namespace, form, header, query and path values, coerced. */
  lemma ValueExactly(p: Parsers, request: CommandRequest, name: string, schema: Option<Json>)
    ensures Winner(request, name).Some? <==>
            || BodyMember(request, name).Some? || (name == "namespace" && request.namespaceName.Some?)
            || name in request.formParams || name in request.headerParams || name in request.queryParams
            || name in request.pathParams
    ensures Winner(request, name).Some? ==>
              Value(p, request, name, schema) ==
              if BodyMember(request, name).Some? then BodyMember(request, name).value
              else if name == "namespace" && request.namespaceName.Some? then
                Coerce(p, request.namespaceName.value, schema)
              else if name in request.formParams then Coerce(p, request.formParams[name], schema)
              else if name in request.headerParams then Coerce(p, request.headerParams[name], schema)
              else if name in request.queryParams then Coerce(p, request.queryParams[name], schema)
              else Coerce(p, request.pathParams[name], schema)
    ensures Winner(request, name) == Some(FromBody) <==> BodyMember(request, name).Some?
  {
    hide Coerce, Get, Members;
    if request.body.Some? && request.body.value.JsonBody? && request.body.value.value.Obj? {
      MembersAreRead(request.body.value.value.fields, name);
    }
  }

  lemma {:induction false} DeclaredInputs(inputs: seq<InputSpec>, name: string)
    ensures name in Schemas(inputs) <==> exists i :: 0 <= i < |inputs| && inputs[i].name == name
    decreases |inputs|
  {
    if inputs != [] {
      var init := inputs[..|inputs| - 1];
      DeclaredInputs(init, name);
      if i :| 0 <= i < |inputs| && inputs[i].name == name {
        assert i < |init| ==> init[i] == inputs[i];
      }
    }
  }

  /** Of several declarations of a name the last one counts. */
  lemma {:induction false} LastDeclarationCounts(inputs: seq<InputSpec>, i: nat)
    requires i < |inputs| && forall j :: i < j < |inputs| ==> inputs[j].name != inputs[i].name
    ensures inputs[i].name in Schemas(inputs) && Schemas(inputs)[inputs[i].name] == inputs[i].schema
    decreases |inputs|
  {
    if i < |inputs| - 1 {
      LastDeclarationCounts(inputs[..|inputs| - 1], i);
    }
  }
}
