/** What each flag means: the field it sets, its short form, and the values it takes. */
module FlagMeaning {
  import opened Wrappers
  import opened Text
  import opened GlobalFlags
  import opened FlagTheorems

  /* ---- Long forms. ---- */

  /** A scan that ended here, with these flags and nothing left over. */
  predicate Sets(args: seq<string>, before: Flags, after: Flags) {
    Scan(args, before) == Ok(Scanned(after, []))
  }

  lemma SwitchSets(name: string, flag: FlagName, flags: Flags, after: Flags)
    requires Recognise(name) == Some(flag) && !flag.TakesValue() && Apply(flags, flag, None) == Ok(after)
    ensures Scan([name], flags) == Ok(Scanned(after, []))
  {
    hide Recognise, Apply;
    BareForm(name);
    OneTokenScan(name, flags, after);
  }

  /** Every switch sets its own field and no other. */
  lemma SwitchesMean(flags: Flags)
    ensures Sets(["--verbose"], flags, flags.(verbosity := Verbose))
    ensures Sets(["--quiet"], flags, flags.(verbosity := Quiet))
    ensures Sets(["--no-input"], flags, flags.(noInput := true))
    ensures Sets(["--no-color"], flags, flags.(noColor := true))
    ensures Sets(["--yes"], flags, flags.(autoConfirmed := true))
    ensures Sets(["--dry-run"], flags, flags.(dryRun := true))
    ensures Sets(["--skeleton"], flags, flags.(skeleton := true))
    ensures Sets(["--page-all"], flags, flags.(pageAll := true))
  {
    hide Sets;
    OutputSwitchesMean(flags);
    RunSwitchesMean(flags);
    BodySwitchesMean(flags);
  }

  lemma OutputSwitchesMean(flags: Flags)
    ensures Sets(["--verbose"], flags, flags.(verbosity := Verbose))
    ensures Sets(["--quiet"], flags, flags.(verbosity := Quiet))
    ensures Sets(["--no-input"], flags, flags.(noInput := true))
    ensures Sets(["--no-color"], flags, flags.(noColor := true))
  {
    hide Scan;
    SwitchSets("--verbose", VerboseFlag, flags, flags.(verbosity := Verbose));
    SwitchSets("--quiet", QuietFlag, flags, flags.(verbosity := Quiet));
    SwitchSets("--no-input", NoInputFlag, flags, flags.(noInput := true));
    SwitchSets("--no-color", NoColorFlag, flags, flags.(noColor := true));
  }

  lemma RunSwitchesMean(flags: Flags)
    ensures Sets(["--yes"], flags, flags.(autoConfirmed := true))
    ensures Sets(["--dry-run"], flags, flags.(dryRun := true))
  {
    hide Scan;
    SwitchSets("--yes", YesFlag, flags, flags.(autoConfirmed := true));
    SwitchSets("--dry-run", DryRunFlag, flags, flags.(dryRun := true));
  }

  lemma BodySwitchesMean(flags: Flags)
    ensures Sets(["--skeleton"], flags, flags.(skeleton := true))
    ensures Sets(["--page-all"], flags, flags.(pageAll := true))
  {
    hide Scan;
    SwitchSets("--skeleton", SkeletonFlag, flags, flags.(skeleton := true));
    SwitchSets("--page-all", PageAllFlag, flags, flags.(pageAll := true));
  }

  /** A value-taking flag given a value: the field it sets, or the error it reports. */
  lemma ValueSets(name: string, flag: FlagName, v: string, flags: Flags)
    requires Recognise(name) == Some(flag) && flag.TakesValue() && !LooksLikeFlag(v)
    ensures Scan([name, v], flags) == Continue(Apply(flags, flag, Some(v)), [])
  {
    hide Recognise, Apply, LooksLikeFlag;
    BareForm(name);
    assert [name, v] + [] == [name, v];
    PairThen(name, v, [], flags);
  }

  /** A value not looking like a flag is taken as it stands; an output is a file unless it is
      the lone `-`; a namespace must not be blank. */
  lemma TextFlagsMean(v: string, flags: Flags)
    requires v == "" || v[0] != '-' || v == "-"
    ensures Sets(["--profile", v], flags, flags.(profile := Some(v)))
    ensures Sets(["--page-limit", v], flags, flags.(pageLimitRaw := Some(v)))
    ensures Sets(["--output", v], flags, flags.(output := Some(if v == "-" then Stdout else File(v))))
    ensures if forall c :: c in v ==> IsWhitespace(c) then Scan(["--namespace", v], flags) == Err(BlankNamespace)
            else Sets(["--namespace", v], flags, flags.(namespace := Some(v)))
  {
    hide Scan, IsWhitespace;
    PlainTextFlagsMean(v, flags);
    ValueSets("--namespace", NamespaceFlag, v, flags);
    NothingLeft(flags.(namespace := Some(v)));
  }

  lemma PlainTextFlagsMean(v: string, flags: Flags)
    requires v == "" || v[0] != '-' || v == "-"
    ensures Sets(["--profile", v], flags, flags.(profile := Some(v)))
    ensures Sets(["--page-limit", v], flags, flags.(pageLimitRaw := Some(v)))
    ensures Sets(["--output", v], flags, flags.(output := Some(if v == "-" then Stdout else File(v))))
  {
    hide Scan;
    ValueSets("--profile", ProfileFlag, v, flags);
    ValueSets("--page-limit", PageLimitFlag, v, flags);
    ValueSets("--output", OutputFlag, v, flags);
    NothingLeft(flags.(profile := Some(v)));
    NothingLeft(flags.(pageLimitRaw := Some(v)));
    NothingLeft(flags.(output := Some(if v == "-" then Stdout else File(v))));
  }

  lemma NothingLeft(flags: Flags)
    ensures Scan([], flags) == Ok(Scanned(flags, []))
  {
  }

  /** The choices of `--format` and `--ui`, and nothing else. */
  lemma ChoiceFlagsMean(v: string, flags: Flags)
    requires v == "" || v[0] != '-' || v == "-"
    ensures Scan(["--format", v], flags) ==
            if v == "human" then Ok(Scanned(flags.(format := Some(Human)), []))
            else if v == "json" then Ok(Scanned(flags.(format := Some(Json)), []))
            else Err(UnknownFormat(v))
    ensures Scan(["--ui", v], flags) ==
            if v == "auto" then Ok(Scanned(flags.(ui := Some(Auto)), []))
            else if v == "plain" then Ok(Scanned(flags.(ui := Some(Plain)), []))
            else if v == "inline" then Ok(Scanned(flags.(ui := Some(Inline)), []))
            else if v == "fullscreen" then Ok(Scanned(flags.(ui := Some(Fullscreen)), []))
            else Err(UnknownUi(v))
  {
    hide Scan;
    ValueSets("--format", FormatFlag, v, flags);
    ValueSets("--ui", UiModeFlag, v, flags);
    NothingLeft(flags.(format := Some(Human)));
    NothingLeft(flags.(format := Some(Json)));
    NothingLeft(flags.(ui := Some(Auto)));
    NothingLeft(flags.(ui := Some(Plain)));
    NothingLeft(flags.(ui := Some(Inline)));
    NothingLeft(flags.(ui := Some(Fullscreen)));
  }

  /** A timeout is a positive 64-bit number of seconds. */
  lemma TimeoutMeans(v: string, n: nat, flags: Flags)
    requires IsNumeral(v) && NumeralValue(v) == n
    ensures if n == 0 then Scan(["--timeout", v], flags) == Err(ZeroTimeout)
            else if n < U64_BOUND then Sets(["--timeout", v], flags, flags.(timeout := Some(n)))
            else Scan(["--timeout", v], flags) == Err(InvalidTimeout(v))
  {
    hide Scan, NumeralValue;
    assert v[0] in v && IsDigit(v[0]);
    ValueSets("--timeout", TimeoutFlag, v, flags);
    if 0 < n < U64_BOUND {
      NothingLeft(flags.(timeout := Some(n)));
    }
  }

  /** A flag taking a value refuses one that starts with a dash, unless it is the lone `-`,
      and refuses to stand last. */
  lemma DashIsNoValue(name: string, v: string, b: seq<string>, flags: Flags)
    requires Recognise(name).Some? && Recognise(name).value.TakesValue()
    requires v != "" && v[0] == '-' && v != "-"
    ensures Scan([name, v] + b, flags) == Err(MissingValue(name))
    ensures Scan([name], flags) == Err(MissingValue(name))
  {
    hide Recognise, Apply;
    BareForm(name);
    assert ([name, v] + b)[1] == v;
  }

  /* ---- Short forms. ---- */

  /** Nothing that can be a value comes next. */
  predicate NoValueIn(b: seq<string>) {
    b == [] || (b[0] != "" && b[0][0] == '-' && b[0] != "-")
  }

  /** Two names of one flag scan alike wherever they stand; left waiting for a value, each is
      refused under its own name. */
  predicate SameMeaning(short: string, long: string, takesValue: bool, b: seq<string>, flags: Flags) {
    if takesValue && NoValueIn(b) then
      Scan([short] + b, flags) == Err(MissingValue(short)) && Scan([long] + b, flags) == Err(MissingValue(long))
    else Scan([short] + b, flags) == Scan([long] + b, flags)
  }

  lemma SameFlagSameScan(short: string, long: string, b: seq<string>, flags: Flags)
    requires Recognise(short).Some? && Recognise(short) == Recognise(long)
    ensures SameMeaning(short, long, Recognise(short).value.TakesValue(), b, flags)
  {
    hide Recognise, Apply;
    var flag := Recognise(short).value;
    BareForm(short);
    BareForm(long);
    if !flag.TakesValue() {
      TokenThen(short, b, flags);
      TokenThen(long, b, flags);
    } else if !NoValueIn(b) {
      assert [short] + b == [short, b[0]] + b[1..] && [long] + b == [long, b[0]] + b[1..];
      PairThen(short, b[0], b[1..], flags);
      PairThen(long, b[0], b[1..], flags);
    } else if b != [] {
      assert ([short] + b)[1] == b[0] && ([long] + b)[1] == b[0];
    }
  }

  /** The four short forms. */
  lemma ShortFormsMean(b: seq<string>, flags: Flags)
    ensures SameMeaning("-v", "--verbose", false, b, flags) && SameMeaning("-q", "--quiet", false, b, flags)
    ensures SameMeaning("-y", "--yes", false, b, flags) && SameMeaning("-n", "--namespace", true, b, flags)
  {
    hide SameMeaning;
    SameFlagSameScan("-v", "--verbose", b, flags);
    SameFlagSameScan("-q", "--quiet", b, flags);
    SameFlagSameScan("-y", "--yes", b, flags);
    SameFlagSameScan("-n", "--namespace", b, flags);
  }

  /* ---- Everything else. ---- */

  const SWITCH_NAMES := ["--verbose", "-v", "--quiet", "-q", "--no-input", "--no-color", "--yes", "-y", "--dry-run",
                         "--skeleton", "--page-all"]

  const VALUE_NAMES := ["--format", "--ui", "--namespace", "-n", "--output", "--profile", "--timeout", "--page-limit"]

  /** An argument naming none of the flags, nor assigning to one that takes a value, is left
      where it stands. */
  lemma OthersAreLeft(arg: string, flags: Flags)
    requires arg !in SWITCH_NAMES && arg !in VALUE_NAMES
    requires forall name :: name in VALUE_NAMES ==> !(name + "=" <= arg)
    ensures Scan([arg], flags) == Ok(Scanned(flags, [arg]))
  {
    OthersAreNotRecognised(arg);
    var split := SplitOnce(arg, '=');
    if split.Some? {
      var before := split.value.0;
      assert before + "=" <= arg;
      OthersTakeNoValue(before);
    }
    hide Recognise;
    assert Classify(arg).Other?;
    NothingLeft(flags);
    assert [arg][1..] == [] && [arg] + [] == [arg];
  }

  lemma OthersAreNotRecognised(token: string)
    requires token !in SWITCH_NAMES && token !in VALUE_NAMES
    ensures Recognise(token).None?
  {
    var s, v := SWITCH_NAMES, VALUE_NAMES;
    assert forall k :: 0 <= k < |s| ==> token != s[k];
    assert forall k :: 0 <= k < |v| ==> token != v[k];
  }

  lemma OthersTakeNoValue(token: string)
    requires token !in VALUE_NAMES
    ensures Recognise(token).None? || !Recognise(token).value.TakesValue()
  {
    var v := VALUE_NAMES;
    assert forall k :: 0 <= k < |v| ==> token != v[k];
  }

  /* ---- Leaf selectors. ---- */

  lemma SelectorSets(name: string, selector: SelectorName, v: string, selectors: Selectors)
    requires RecogniseSelector(name) == Some(selector) && '=' !in name && !StartsWithDash(v)
    ensures LeafScan([name, v], selectors) == Ok(Selected(Select(selectors, selector, v), []))
    ensures LeafScan([name + "=" + v], selectors) == Ok(Selected(Select(selectors, selector, v), []))
  {
    hide RecogniseSelector, Select, StartsWithDash;
    assert AssignedSelector(name).None?;
    assert [name, v][2..] == [] && [name + "=" + v][1..] == [];
    SplitOnceUnique(name, '=', v);
    assert name + "=" + v == name + ['='] + v;
    NoSelectorsLeft(Select(selectors, selector, v));
  }

  lemma NoSelectorsLeft(selectors: Selectors)
    ensures LeafScan([], selectors) == Ok(Selected(selectors, []))
  {
  }

  /** A selector refuses, as its value, whatever starts with a dash, the lone `-` included, and
      refuses to stand last. */
  lemma DashIsNoSelectorValue(name: string, v: string, b: seq<string>, selectors: Selectors)
    requires RecogniseSelector(name).Some? && '=' !in name && v != "" && v[0] == '-'
    ensures LeafScan([name, v] + b, selectors) == Err(MissingValue(name))
    ensures LeafScan([name], selectors) == Err(MissingValue(name))
  {
    hide RecogniseSelector, Select;
    assert AssignedSelector(name).None?;
    assert ([name, v] + b)[1] == v;
  }

  /** Each selector sets its own field, in both forms. */
  lemma SelectorsMean(v: string, selectors: Selectors)
    requires v == "" || v[0] != '-'
    ensures LeafScan(["--api-scope", v], selectors) == Ok(Selected(selectors.(apiScope := Some(v)), []))
    ensures LeafScan(["--api-version", v], selectors) == Ok(Selected(selectors.(apiVersion := Some(v)), []))
    ensures LeafScan(["--api-scope" + "=" + v], selectors) == Ok(Selected(selectors.(apiScope := Some(v)), []))
    ensures LeafScan(["--api-version" + "=" + v], selectors) == Ok(Selected(selectors.(apiVersion := Some(v)), []))
  {
    hide LeafScan;
    SelectorSets("--api-scope", ScopeSelector, v, selectors);
    SelectorSets("--api-version", VersionSelector, v, selectors);
  }
}
