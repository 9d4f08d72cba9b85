/** Laws of the global pre-scan over all argument lists: concatenation, idempotence,
    the two value forms, the printer's normal form and commutation with the leaf scan. */
module FlagTheorems {
  import opened Wrappers
  import opened Text
  import opened GlobalFlags

  /* ---- Tokens. ---- */

  lemma RecognisedLooksLikeFlag(token: string)
    requires Recognise(token).Some?
    ensures LooksLikeFlag(token) && '=' !in token
    ensures RecogniseSelector(token).None?
  {
  }

  lemma SelectorsAreNotGlobal(token: string)
    requires RecogniseSelector(token).Some?
    ensures Recognise(token).None? && LooksLikeFlag(token) && '=' !in token
  {
  }

  /** Only tokens that look like flags are ever taken out, or wait for a value. */
  lemma TakenLooksLikeFlag(arg: string)
    requires !Classify(arg).Other?
    ensures LooksLikeFlag(arg)
  {
    var split := SplitOnce(arg, '=');
    if split.Some? && Recognise(split.value.0).Some? {
      RecognisedLooksLikeFlag(split.value.0);
      assert arg[0] == split.value.0[0] && |arg| > |split.value.0|;
    } else {
      RecognisedLooksLikeFlag(arg);
    }
  }

  lemma AssignedForm(name: string, text: string)
    requires Recognise(name).Some? && Recognise(name).value.TakesValue()
    ensures Classify(name + "=" + text) == Assigned(Recognise(name).value, text)
  {
    RecognisedLooksLikeFlag(name);
    SplitOnceUnique(name, '=', text);
  }

  lemma BareForm(name: string)
    requires Recognise(name).Some?
    ensures Classify(name) ==
            if Recognise(name).value.TakesValue() then Expects(Recognise(name).value) else Switch(Recognise(name).value)
  {
    RecognisedLooksLikeFlag(name);
  }

  /* ---- Concatenation, idempotence, order. ---- */

  /** Scanning `a + b` is scanning `b` from the flags `a` left, remainders concatenated. */
  lemma {:induction false} ScanConcat(a: seq<string>, b: seq<string>, flags: Flags)
    requires Scan(a, flags).Ok?
    ensures var first := Scan(a, flags).value;
            Scan(a + b, flags) == Prepend(first.remaining, Scan(b, first.flags))
    decreases |a|
  {
    if a == [] {
      assert a + b == b;
      PrependNothing(Scan(b, flags));
    } else {
      assert (a + b)[1..] == a[1..] + b;
      match Classify(a[0]) {
        case Assigned(flag, text) => ScanConcat(a[1..], b, Apply(flags, flag, Some(text)).value);
        case Switch(flag) => ScanConcat(a[1..], b, Apply(flags, flag, None).value);
        case Expects(flag) =>
          assert (a + b)[2..] == a[2..] + b;
          ScanConcat(a[2..], b, Apply(flags, flag, Some(a[1])).value);
        case Other =>
          ScanConcat(a[1..], b, flags);
          var rest := Scan(a[1..], flags).value;
          PrependTwice([a[0]], rest.remaining, Scan(b, rest.flags));
      }
    }
  }

  /** The scan gets to the last argument and finds there a flag still waiting for its value. */
  predicate WaitsAtEnd(args: seq<string>, flags: Flags)
    decreases |args|
  {
    if args == [] then false else
    match Classify(args[0])
    case Assigned(flag, text) => WaitsAfter(Apply(flags, flag, Some(text)), args, 1)
    case Switch(flag) => WaitsAfter(Apply(flags, flag, None), args, 1)
    case Expects(flag) =>
      |args| == 1 || (!LooksLikeFlag(args[1]) && WaitsAfter(Apply(flags, flag, Some(args[1])), args, 2))
    case Other => WaitsAtEnd(args[1..], flags)
  }

  predicate WaitsAfter(applied: Result<Flags, ScanError>, args: seq<string>, consumed: nat)
    requires 0 < consumed <= |args|
    decreases |args|, 0
  {
    applied.Ok? && WaitsAtEnd(args[consumed..], applied.value)
  }

  /** A list the scan rejects is rejected, with the same error, whatever follows; unless the
      list ends in a flag still waiting for its value. */
  lemma {:induction false} RejectionIsFinal(a: seq<string>, b: seq<string>, flags: Flags)
    requires Scan(a, flags).Err? && !WaitsAtEnd(a, flags)
    ensures Scan(a + b, flags) == Scan(a, flags)
    decreases |a|
  {
    hide Apply, LooksLikeFlag, Classify;
    assert (a + b)[1..] == a[1..] + b;
    match Classify(a[0]) {
      case Assigned(flag, text) =>
        if Apply(flags, flag, Some(text)).Ok? {
          RejectionIsFinal(a[1..], b, Apply(flags, flag, Some(text)).value);
        }
      case Switch(flag) =>
        if Apply(flags, flag, None).Ok? {
          RejectionIsFinal(a[1..], b, Apply(flags, flag, None).value);
        }
      case Expects(flag) =>
        if !LooksLikeFlag(a[1]) && Apply(flags, flag, Some(a[1])).Ok? {
          assert (a + b)[2..] == a[2..] + b;
          RejectionIsFinal(a[2..], b, Apply(flags, flag, Some(a[1])).value);
        }
      case Other => RejectionIsFinal(a[1..], b, flags);
    }
  }

  /** A value is what a waiting list lacks: giving one changes the verdict. */
  lemma {:induction false} WaitingIsNotFinal(a: seq<string>, v: string, flags: Flags)
    requires WaitsAtEnd(a, flags) && !LooksLikeFlag(v)
    ensures Scan(a, flags) == Err(MissingValue(a[|a| - 1]))
    ensures Scan(a + [v], flags).Err? ==> !Scan(a + [v], flags).error.MissingValue?
    decreases |a|
  {
    hide Apply, LooksLikeFlag, Classify;
    assert (a + [v])[1..] == a[1..] + [v];
    match Classify(a[0]) {
      case Assigned(flag, text) => WaitingIsNotFinal(a[1..], v, Apply(flags, flag, Some(text)).value);
      case Switch(flag) => WaitingIsNotFinal(a[1..], v, Apply(flags, flag, None).value);
      case Expects(flag) =>
        assert |a| > 1 ==> (a + [v])[2..] == a[2..] + [v];
        if |a| == 1 {
          assert a + [v] == [a[0], v] + [];
          PairThen(a[0], v, [], flags);
          ApplyNeverMissesValues(flags, flag, Some(v));
        } else {
          WaitingIsNotFinal(a[2..], v, Apply(flags, flag, Some(a[1])).value);
        }
      case Other => WaitingIsNotFinal(a[1..], v, flags);
    }
  }

  /** A rejection is final if and only if no flag was still waiting for its value. */
  lemma RejectionIsFinalExactly(a: seq<string>, flags: Flags)
    requires Scan(a, flags).Err?
    ensures (forall b :: Scan(a + b, flags) == Scan(a, flags)) <==> !WaitsAtEnd(a, flags)
  {
    hide Scan, WaitsAtEnd;
    if WaitsAtEnd(a, flags) {
      WaitingIsNotFinal(a, "", flags);
      assert Scan(a + [""], flags) != Scan(a, flags);
    } else {
      forall b
        ensures Scan(a + b, flags) == Scan(a, flags)
      {
        RejectionIsFinal(a, b, flags);
      }
    }
  }

  /** Nothing in what remains is read as a flag, so scanning it again changes nothing. */
  lemma {:induction false} RescanChangesNothing(args: seq<string>, flags: Flags, later: Flags)
    requires Scan(args, flags).Ok?
    ensures var remaining := Scan(args, flags).value.remaining;
            Scan(remaining, later) == Ok(Scanned(later, remaining))
    decreases |args|
  {
    if args != [] {
      match Classify(args[0]) {
        case Assigned(flag, text) => RescanChangesNothing(args[1..], Apply(flags, flag, Some(text)).value, later);
        case Switch(flag) => RescanChangesNothing(args[1..], Apply(flags, flag, None).value, later);
        case Expects(flag) => RescanChangesNothing(args[2..], Apply(flags, flag, Some(args[1])).value, later);
        case Other =>
          RescanChangesNothing(args[1..], flags, later);
          var remaining := Scan(args, flags).value.remaining;
          assert remaining[1..] == Scan(args[1..], flags).value.remaining;
      }
    }
  }

  predicate IsSubsequence(part: seq<string>, whole: seq<string>)
    decreases |whole|
  {
    part == [] ||
    (whole != [] && ((part[0] == whole[0] && IsSubsequence(part[1..], whole[1..])) || IsSubsequence(part, whole[1..])))
  }

  /** What remains is a subsequence of the input in the input's order, and none of it is a
      token the scan would read. */
  lemma {:induction false} RemainingIsASubsequence(args: seq<string>, flags: Flags)
    requires Scan(args, flags).Ok?
    ensures IsSubsequence(Scan(args, flags).value.remaining, args)
    ensures forall arg :: arg in Scan(args, flags).value.remaining ==> Classify(arg).Other?
    decreases |args|
  {
    if args != [] {
      match Classify(args[0]) {
        case Assigned(flag, text) => RemainingIsASubsequence(args[1..], Apply(flags, flag, Some(text)).value);
        case Switch(flag) => RemainingIsASubsequence(args[1..], Apply(flags, flag, None).value);
        case Expects(flag) =>
          RemainingIsASubsequence(args[2..], Apply(flags, flag, Some(args[1])).value);
          assert IsSubsequence(Scan(args, flags).value.remaining, args[1..]) by { assert args[1..][1..] == args[2..]; }
        case Other => RemainingIsASubsequence(args[1..], flags);
      }
    }
  }

  /* ---- The two ways of giving a value. ---- */

  /** `flag v` and `flag=v` mean the same in every context, unless `v` looks like a flag. */
  lemma {:induction false} ValueFormsAgree(a: seq<string>, name: string, v: string, b: seq<string>, flags: Flags)
    requires Recognise(name).Some? && Recognise(name).value.TakesValue() && !LooksLikeFlag(v)
    ensures Scan(a + [name, v] + b, flags) == Scan(a + [name + "=" + v] + b, flags)
    decreases |a|
  {
    hide Apply, Recognise, SplitOnce;
    var apart, joined := a + [name, v] + b, a + [name + "=" + v] + b;
    BareForm(name);
    AssignedForm(name, v);
    RecognisedLooksLikeFlag(name);
    TakenLooksLikeFlag(name + "=" + v);
    if a == [] {
      assert apart[2..] == b && joined[1..] == b;
    } else {
      assert apart[1..] == a[1..] + [name, v] + b && joined[1..] == a[1..] + [name + "=" + v] + b;
      match Classify(a[0]) {
        case Assigned(flag, text) =>
          if Apply(flags, flag, Some(text)).Ok? {
            ValueFormsAgree(a[1..], name, v, b, Apply(flags, flag, Some(text)).value);
          }
        case Switch(flag) =>
          if Apply(flags, flag, None).Ok? {
            ValueFormsAgree(a[1..], name, v, b, Apply(flags, flag, None).value);
          }
        case Expects(flag) =>
          if |a| > 1 {
            assert apart[2..] == a[2..] + [name, v] + b && joined[2..] == a[2..] + [name + "=" + v] + b;
            if Apply(flags, flag, Some(a[1])).Ok? {
              ValueFormsAgree(a[2..], name, v, b, Apply(flags, flag, Some(a[1])).value);
            }
          }
        case Other => ValueFormsAgree(a[1..], name, v, b, flags);
      }
    }
  }

  lemma ApplyNeverMissesValues(flags: Flags, flag: FlagName, text: Option<string>)
    ensures var applied := Apply(flags, flag, text);
            applied.Err? ==> !applied.error.MissingValue?
  {
  }

  lemma ValueFormsDisagreeAlone(name: string, v: string)
    requires Recognise(name).Some? && Recognise(name).value.TakesValue() && LooksLikeFlag(v)
    ensures !FormsAgreeIn([], name, v, [], DEFAULT_FLAGS)
  {
    hide Apply, Recognise, LooksLikeFlag;
    var flag := Recognise(name).value;
    BareForm(name);
    AssignedForm(name, v);
    ApplyNeverMissesValues(DEFAULT_FLAGS, flag, Some(v));
    assert [] + [name, v] + [] == [name, v] && [] + [name + "=" + v] + [] == [name + "=" + v];
    assert Scan([name, v], DEFAULT_FLAGS) == Err(MissingValue(name));
    var applied := Apply(DEFAULT_FLAGS, flag, Some(v));
    assert Scan([name + "=" + v], DEFAULT_FLAGS) == ScanFrom(applied, [name + "=" + v], 1);
    if applied.Ok? {
      OneTokenScan(name + "=" + v, DEFAULT_FLAGS, applied.value);
    }
  }

  /** What a token applies when it is read on its own. */
  function ReadAlone(arg: string, flags: Flags): Result<Flags, ScanError> {
    match Classify(arg)
    case Assigned(flag, text) => Apply(flags, flag, Some(text))
    case Switch(flag) => Apply(flags, flag, None)
    case Expects(_) => Err(MissingValue(arg))
    case Other => Ok(flags)
  }

  lemma OneTokenScan(arg: string, before: Flags, after: Flags)
    requires !Classify(arg).Other? && ReadAlone(arg, before) == Ok(after)
    ensures Scan([arg], before) == Ok(Scanned(after, []))
  {
    assert [arg][1..] == [];
    assert Scan([], after) == Ok(Scanned(after, []));
    assert Scan([arg], before) == ScanFrom(Ok(after), [arg], 1);
  }

  predicate FormsAgreeIn(a: seq<string>, name: string, v: string, b: seq<string>, flags: Flags) {
    Scan(a + [name, v] + b, flags) == Scan(a + [name + "=" + v] + b, flags)
  }

  /** ... and exactly unless: with a value that looks like a flag they already differ alone. */
  lemma ValueFormsAgreeExactly(name: string, v: string)
    requires Recognise(name).Some? && Recognise(name).value.TakesValue()
    ensures (forall a, b, flags :: FormsAgreeIn(a, name, v, b, flags)) <==> !LooksLikeFlag(v)
  {
    if LooksLikeFlag(v) {
      BareForm(name);
      AssignedForm(name, v);
      ValueFormsDisagreeAlone(name, v);
    } else {
      forall a, b, flags
        ensures FormsAgreeIn(a, name, v, b, flags)
      {
        ValueFormsAgree(a, name, v, b, flags);
      }
    }
  }

  /* ---- The printer's normal form. ---- */

  /** What the scan can produce from the defaults: the namespace is not blank, the timeout
      is at least one second, `-` is never a file, and no page limit has been validated. */
  predicate Printable(flags: Flags) {
    && (flags.namespace.Some? ==> !IsBlank(flags.namespace.value))
    && (flags.timeout.Some? ==> flags.timeout.value >= 1)
    && flags.output != Some(File("-"))
    && flags.pageLimit.None?
  }

  lemma ApplyKeepsPrintable(flags: Flags, flag: FlagName, text: Option<string>)
    requires Printable(flags) && Apply(flags, flag, text).Ok?
    ensures Printable(Apply(flags, flag, text).value)
  {
    hide ParseUnsigned, IsBlank, ParseFormat, ParseUi;
  }

  lemma {:induction false} ScanKeepsPrintable(args: seq<string>, flags: Flags)
    requires Printable(flags) && Scan(args, flags).Ok?
    ensures Printable(Scan(args, flags).value.flags)
    decreases |args|
  {
    if args != [] {
      match Classify(args[0]) {
        case Assigned(flag, text) =>
          ApplyKeepsPrintable(flags, flag, Some(text));
          ScanKeepsPrintable(args[1..], Apply(flags, flag, Some(text)).value);
        case Switch(flag) =>
          ApplyKeepsPrintable(flags, flag, None);
          ScanKeepsPrintable(args[1..], Apply(flags, flag, None).value);
        case Expects(flag) =>
          ApplyKeepsPrintable(flags, flag, Some(args[1]));
          ScanKeepsPrintable(args[2..], Apply(flags, flag, Some(args[1])).value);
        case Other => ScanKeepsPrintable(args[1..], flags);
      }
    }
  }

  function Printed(flags: Flags): seq<string> {
    RenderAll(TelemetryPairs(flags))
  }

  /** Scanning the printed `pairs` takes `before` to `after` and leaves nothing. */
  predicate Sets(pairs: seq<Pair>, before: Flags, after: Flags) {
    Scan(RenderAll(pairs), before) == Ok(Scanned(after, []))
  }

  lemma {:induction false} RenderConcat(a: seq<Pair>, b: seq<Pair>)
    ensures RenderAll(a + b) == RenderAll(a) + RenderAll(b)
  {
    if a == [] {
      assert a + b == b;
    } else {
      assert (a + b)[1..] == a[1..] + b;
      RenderConcat(a[1..], b);
    }
  }

  lemma ThenSets(a: seq<Pair>, b: seq<Pair>, first: Flags, middle: Flags, last: Flags)
    requires Sets(a, first, middle) && Sets(b, middle, last)
    ensures Sets(a + b, first, last)
  {
    RenderConcat(a, b);
    ScanConcat(RenderAll(a), RenderAll(b), first);
    PrependNothing(Scan(RenderAll(b), middle));
  }

  /** The defaults with the first `k` printed fields of `flags` filled in. */
  function Partial(flags: Flags, k: nat): Flags {
    Flags(if k >= 2 then flags.verbosity
          else if k == 1 && flags.verbosity.Verbose? then Verbose else Normal,
          k >= 3 && flags.noInput,
          k >= 4 && flags.noColor,
          k >= 5 && flags.autoConfirmed,
          if k >= 6 then flags.format else None,
          if k >= 7 then flags.ui else None,
          if k >= 8 then flags.namespace else None,
          if k >= 9 then flags.profile else None,
          k >= 10 && flags.dryRun,
          k >= 11 && flags.skeleton,
          if k >= 12 then flags.timeout else None,
          k >= 13 && flags.pageAll,
          None,
          if k >= 14 then flags.pageLimitRaw else None,
          if k >= 15 then flags.output else None)
  }

  lemma NameIsRecognised(flag: FlagName)
    ensures Recognise(Name(flag)) == Some(flag)
  {
  }

  /** What the typed texts parse back to. */
  lemma TypedTextParses(flags: Flags, flag: FlagName, before: Flags)
    requires Printable(flags) && flag.TakesValue() && TypedText(flags, flag).Some?
    ensures Apply(before, flag, TypedText(flags, flag)) ==
            match flag
            case FormatFlag => Ok(before.(format := flags.format))
            case UiModeFlag => Ok(before.(ui := flags.ui))
            case NamespaceFlag => Ok(before.(namespace := flags.namespace))
            case ProfileFlag => Ok(before.(profile := flags.profile))
            case TimeoutFlag => Ok(before.(timeout := flags.timeout))
            case PageLimitFlag => Ok(before.(pageLimitRaw := flags.pageLimitRaw))
            case OutputFlag => Ok(before.(output := flags.output))
  {
    if flag.TimeoutFlag? {
      DecimalRoundTrip(flags.timeout.value, U64_BOUND);
    }
  }

  lemma FlagPairSets(flags: Flags, k: nat)
    requires Printable(flags) && k < |PRINT_ORDER|
    ensures Sets(FlagPair(flags, PRINT_ORDER[k]), Partial(flags, k), Partial(flags, k + 1))
  {
    var flag := PRINT_ORDER[k];
    var pairs := FlagPair(flags, flag);
    FlagPairApplies(flags, k, flag);
    if pairs != [] {
      var arg := Render(pairs[0]);
      NameIsRecognised(flag);
      if flag.TakesValue() {
        AssignedForm(Name(flag), TypedText(flags, flag).value);
      } else {
        BareForm(Name(flag));
      }
      OneTokenScan(arg, Partial(flags, k), Partial(flags, k + 1));
      assert pairs[1..] == [];
      assert RenderAll(pairs) == [arg];
    }
  }

  lemma FlagPairApplies(flags: Flags, k: nat, flag: FlagName)
    requires Printable(flags) && k < |PRINT_ORDER| && flag == PRINT_ORDER[k]
    ensures !flag.TakesValue() ==>
              (if SwitchedOn(flags, flag) then Apply(Partial(flags, k), flag, None) else Ok(Partial(flags, k)))
              == Ok(Partial(flags, k + 1))
    ensures flag.TakesValue() ==>
              (if TypedText(flags, flag).Some? then Apply(Partial(flags, k), flag, TypedText(flags, flag))
               else Ok(Partial(flags, k)))
              == Ok(Partial(flags, k + 1))
  {
    hide Apply;
    if flag.TakesValue() {
      if TypedText(flags, flag).Some? {
        TypedTextParses(flags, flag, Partial(flags, k));
      }
    } else {
      SwitchPairApplies(flags, k, flag);
    }
  }

  lemma SwitchPairApplies(flags: Flags, k: nat, flag: FlagName)
    requires k < |PRINT_ORDER| && flag == PRINT_ORDER[k] && !flag.TakesValue()
    ensures (if SwitchedOn(flags, flag) then Apply(Partial(flags, k), flag, None) else Ok(Partial(flags, k)))
            == Ok(Partial(flags, k + 1))
  {
  }

  lemma NothingSetsNothing(flags: Flags)
    ensures Sets(PairsUpTo(flags, 0), DEFAULT_FLAGS, Partial(flags, 0))
  {
    assert RenderAll(PairsUpTo(flags, 0)) == [];
  }

  lemma NextPairSets(flags: Flags, k: nat)
    requires Printable(flags) && k < |PRINT_ORDER|
    requires Sets(PairsUpTo(flags, k), DEFAULT_FLAGS, Partial(flags, k))
    ensures Sets(PairsUpTo(flags, k + 1), DEFAULT_FLAGS, Partial(flags, k + 1))
  {
    var last := Partial(flags, k + 1);
    FlagPairSets(flags, k);
    ThenSets(PairsUpTo(flags, k), FlagPair(flags, PRINT_ORDER[k]), DEFAULT_FLAGS, Partial(flags, k), last);
  }

  lemma {:induction false} PairsUpToSet(flags: Flags, k: nat)
    requires Printable(flags) && k <= |PRINT_ORDER|
    ensures Sets(PairsUpTo(flags, k), DEFAULT_FLAGS, Partial(flags, k))
  {
    if k == 0 {
      NothingSetsNothing(flags);
    } else {
      var j := k - 1;
      PairsUpToSet(flags, j);
      NextPairSets(flags, j);
      assert j + 1 == k;
    }
  }

  /** Printing and scanning again gives the flags back exactly when they are printable. */
  lemma PrintThenScan(flags: Flags)
    ensures Scan(Printed(flags), DEFAULT_FLAGS) == Ok(Scanned(flags, [])) <==> Printable(flags)
  {
    if Printable(flags) {
      PairsUpToSet(flags, |PRINT_ORDER|);
      assert Partial(flags, |PRINT_ORDER|) == flags;
    }
    if Scan(Printed(flags), DEFAULT_FLAGS).Ok? {
      ScanKeepsPrintable(Printed(flags), DEFAULT_FLAGS);
    }
  }

  /** Normal form: whatever argument list produced the flags, printing them and scanning
      that yields the same flags and leaves no argument over. */
  lemma NormalForm(args: seq<string>)
    requires Scan(args, DEFAULT_FLAGS).Ok?
    ensures var flags := Scan(args, DEFAULT_FLAGS).value.flags;
            Scan(Printed(flags), DEFAULT_FLAGS) == Ok(Scanned(flags, []))
  {
    ScanKeepsPrintable(args, DEFAULT_FLAGS);
    PrintThenScan(Scan(args, DEFAULT_FLAGS).value.flags);
  }

  /* ---- Commutation with the leaf-selector scan. ---- */

  lemma GlobalTokenIsNoSelector(arg: string)
    requires !Classify(arg).Other?
    ensures AssignedSelector(arg).None? && RecogniseSelector(arg).None?
  {
    var split := SplitOnce(arg, '=');
    if split.Some? && Recognise(split.value.0).Some? {
      RecognisedLooksLikeFlag(split.value.0);
    } else {
      RecognisedLooksLikeFlag(arg);
    }
    if RecogniseSelector(arg).Some? {
      SelectorsAreNotGlobal(arg);
    }
  }

  /** A value either scan can consume is nothing to the other one. */
  lemma ValuesAreNeutral(v: string)
    requires !LooksLikeFlag(v)
    ensures Classify(v).Other? && AssignedSelector(v).None? && RecogniseSelector(v).None?
  {
    if !Classify(v).Other? {
      TakenLooksLikeFlag(v);
    }
    if AssignedSelector(v).Some? {
      SelectorsAreNotGlobal(SplitOnce(v, '=').value.0);
    }
    if RecogniseSelector(v).Some? {
      SelectorsAreNotGlobal(v);
    }
  }

  /** Both orders succeed, with the same flags, selectors and remaining arguments. */
  predicate Commute(args: seq<string>, flags: Flags, selectors: Selectors)
    requires Scan(args, flags).Ok? && LeafScan(args, selectors).Ok?
  {
    var global, leaf := Scan(args, flags).value, LeafScan(args, selectors).value;
    var globalThenLeaf, leafThenGlobal := LeafScan(global.remaining, selectors), Scan(leaf.remaining, flags);
    && globalThenLeaf.Ok? && leafThenGlobal.Ok?
    && globalThenLeaf.value.selectors == leaf.selectors
    && leafThenGlobal.value.flags == global.flags
    && globalThenLeaf.value.remaining == leafThenGlobal.value.remaining
  }

  /** The scan of `rest` from what was applied so far. */
  function Continue(applied: Result<Flags, ScanError>, rest: seq<string>): ScanResult {
    if applied.Err? then Err(applied.error) else Scan(rest, applied.value)
  }

  /** A token read on its own, then the rest. */
  lemma TokenThen(arg: string, rest: seq<string>, flags: Flags)
    requires Classify(arg).Assigned? || Classify(arg).Switch?
    ensures Scan([arg] + rest, flags) == Continue(ReadAlone(arg, flags), rest)
  {
    hide Apply, Classify;
    assert ([arg] + rest)[1..] == rest;
  }

  /** A flag and the value it takes from the next argument, then the rest. */
  lemma PairThen(arg: string, v: string, rest: seq<string>, flags: Flags)
    requires Classify(arg).Expects? && !LooksLikeFlag(v)
    ensures Scan([arg, v] + rest, flags) == Continue(Apply(flags, Classify(arg).flag, Some(v)), rest)
  {
    hide Apply, Classify, LooksLikeFlag;
    assert ([arg, v] + rest)[2..] == rest;
  }

  /** What neither scan of selectors reads is left where it is. */
  lemma NeutralThen(arg: string, rest: seq<string>, selectors: Selectors)
    requires AssignedSelector(arg).None? && RecogniseSelector(arg).None?
    ensures LeafScan([arg] + rest, selectors) == PrependLeaf([arg], LeafScan(rest, selectors))
  {
    hide AssignedSelector, RecogniseSelector;
    assert ([arg] + rest)[1..] == rest;
  }

  lemma {:induction false} ScansCommute(args: seq<string>, flags: Flags, selectors: Selectors)
    requires Scan(args, flags).Ok? && LeafScan(args, selectors).Ok?
    ensures Commute(args, flags, selectors)
    decreases |args|
  {
    hide Apply, Classify, AssignedSelector, RecogniseSelector, LooksLikeFlag;
    if args == [] {
    } else if Classify(args[0]).Other? {
      CommuteFromLeafToken(args, flags, selectors);
    } else if Classify(args[0]).Expects? {
      CommuteFromPair(args, flags, selectors);
    } else {
      CommuteFromToken(args, flags, selectors);
    }
  }

  lemma {:induction false} CommuteFromToken(args: seq<string>, flags: Flags, selectors: Selectors)
    requires args != [] && !Classify(args[0]).Other? && !Classify(args[0]).Expects?
    requires Scan(args, flags).Ok? && LeafScan(args, selectors).Ok?
    ensures Commute(args, flags, selectors)
    decreases |args|, 0
  {
    hide Apply, Classify, AssignedSelector, RecogniseSelector, LooksLikeFlag;
    var arg, rest := args[0], args[1..];
    assert args == [arg] + rest;
    GlobalTokenIsNoSelector(arg);
    NeutralThen(arg, rest, selectors);
    TokenThen(arg, rest, flags);
    ScansCommute(rest, ReadAlone(arg, flags).value, selectors);
    TokenThen(arg, LeafScan(rest, selectors).value.remaining, flags);
  }

  lemma {:induction false} CommuteFromPair(args: seq<string>, flags: Flags, selectors: Selectors)
    requires args != [] && Classify(args[0]).Expects?
    requires Scan(args, flags).Ok? && LeafScan(args, selectors).Ok?
    ensures Commute(args, flags, selectors)
    decreases |args|, 0
  {
    hide Apply, Classify, AssignedSelector, RecogniseSelector, LooksLikeFlag;
    var arg, v, rest := args[0], args[1], args[2..];
    assert args == [arg, v] + rest && args == [arg] + ([v] + rest);
    GlobalTokenIsNoSelector(arg);
    ValuesAreNeutral(v);
    NeutralThen(arg, [v] + rest, selectors);
    NeutralThen(v, rest, selectors);
    PairThen(arg, v, rest, flags);
    ScansCommute(rest, Apply(flags, Classify(arg).flag, Some(v)).value, selectors);
    var tail := LeafScan(rest, selectors).value.remaining;
    assert LeafScan(args, selectors).value.remaining == [arg, v] + tail;
    PairThen(arg, v, tail, flags);
  }

  lemma {:induction false} CommuteFromLeafToken(args: seq<string>, flags: Flags, selectors: Selectors)
    requires args != [] && Classify(args[0]).Other?
    requires Scan(args, flags).Ok? && LeafScan(args, selectors).Ok?
    ensures Commute(args, flags, selectors)
    decreases |args|, 0
  {
    var global := Scan(args, flags).value;
    var rest := Scan(args[1..], flags).value;
    assert global.remaining == [args[0]] + rest.remaining && global.remaining[1..] == rest.remaining;
    if AssignedSelector(args[0]).Some? {
      var (name, text) := AssignedSelector(args[0]).value;
      ScansCommute(args[1..], flags, Select(selectors, name, text));
    } else if RecogniseSelector(args[0]).Some? {
      ValuesAreNeutral(args[1]);
      assert args[1..][1..] == args[2..];
      ScansCommute(args[2..], flags, Select(selectors, RecogniseSelector(args[0]).value, args[1]));
      var tail := Scan(args[2..], flags).value;
      assert global.remaining == [args[0], args[1]] + tail.remaining && global.remaining[2..] == tail.remaining;
    } else {
      ScansCommute(args[1..], flags, selectors);
      var leaf := LeafScan(args, selectors).value;
      assert leaf.remaining[1..] == LeafScan(args[1..], selectors).value.remaining;
    }
  }

  /** Success of both scans is needed: the leaf scan can hide a missing value. */
  lemma CommutationNeedsBothToSucceed(name: string, selector: string, scope: string, text: string)
    requires Recognise(name) == Some(NamespaceFlag) && RecogniseSelector(selector) == Some(ScopeSelector)
    requires !StartsWithDash(scope) && !StartsWithDash(text) && !IsBlank(text)
    ensures var args := [name, selector, scope, text];
            && Scan(args, DEFAULT_FLAGS) == Err(MissingValue(name))
            && LeafScan(args, NO_SELECTORS) == Ok(Selected(NO_SELECTORS.(apiScope := Some(scope)), [name, text]))
            && Scan([name, text], DEFAULT_FLAGS) == Ok(Scanned(DEFAULT_FLAGS.(namespace := Some(text)), []))
  {
    var args := [name, selector, scope, text];
    BareForm(name);
    GlobalTokenIsNoSelector(name);
    ValuesAreNeutral(text);
    SelectorsAreNotGlobal(selector);
    var chosen := NO_SELECTORS.(apiScope := Some(scope));
    assert [text][1..] == [] && [text] + [] == [text] && LeafScan([], chosen) == Ok(Selected(chosen, []));
    assert LeafScan([text], chosen) == Ok(Selected(chosen, [text]));
    assert LeafScan(args[1..], NO_SELECTORS) == LeafScan([text], chosen) by { assert args[1..][2..] == [text]; }
    assert [name] + [text] == [name, text];
    var applied := DEFAULT_FLAGS.(namespace := Some(text));
    assert [name, text][2..] == [] && Scan([], applied) == Ok(Scanned(applied, []));
    assert Scan([name, text], DEFAULT_FLAGS) == ScanFrom(Ok(applied), [name, text], 2);
  }
}
