/** The pre-scans as the source runs them: index-driven loops over argv that write the
    fields of a flag record and push onto the remaining arguments. */
module FlagScanner {
  import opened Wrappers
  import opened Text
  import opened GlobalFlags

  class FlagRecord {
    var verbosity: Verbosity
    var noInput: bool
    var noColor: bool
    var autoConfirmed: bool
    var format: Option<OutputFormat>
    var ui: Option<UiFlag>
    var namespace: Option<string>
    var profile: Option<string>
    var dryRun: bool
    var skeleton: bool
    var timeout: Option<U64>
    var pageAll: bool
    var pageLimit: Option<U64>
    var pageLimitRaw: Option<string>
    var output: Option<OutputDestination>

    function Contents(): Flags
      reads this
    {
      Flags(verbosity, noInput, noColor, autoConfirmed, format, ui, namespace, profile, dryRun, skeleton, timeout,
            pageAll, pageLimit, pageLimitRaw, output)
    }

    constructor ()
      ensures Contents() == DEFAULT_FLAGS
    {
      verbosity := Normal;
      noInput, noColor, autoConfirmed, dryRun, skeleton, pageAll := false, false, false, false, false, false;
      format, ui, namespace, profile, timeout, pageLimit, pageLimitRaw, output :=
        None, None, None, None, None, None, None, None;
    }

    /** A rejected value leaves the record as it was. */
    method ApplyFlag(flag: FlagName, text: Option<string>) returns (error: Option<ScanError>)
      modifies this
      ensures Apply(old(Contents()), flag, text) == if error.None? then Ok(Contents()) else Err(error.value)
      ensures error.Some? ==> Contents() == old(Contents())
    {
      error := None;
      match flag {
        case VerboseFlag => verbosity := Verbose;
        case QuietFlag => verbosity := Quiet;
        case NoInputFlag => noInput := true;
        case NoColorFlag => noColor := true;
        case YesFlag => autoConfirmed := true;
        case DryRunFlag => dryRun := true;
        case SkeletonFlag => skeleton := true;
        case PageAllFlag => pageAll := true;
        case _ =>
          if text.Some? {
            error := ApplyText(flag, text.value);
          }
      }
    }

    method ApplyText(flag: FlagName, v: string) returns (error: Option<ScanError>)
      requires flag.TakesValue()
      modifies this
      ensures ApplyValue(old(Contents()), flag, v) == if error.None? then Ok(Contents()) else Err(error.value)
      ensures error.Some? ==> Contents() == old(Contents())
    {
      error := None;
      match flag {
        case FormatFlag =>
          var parsed := ParseFormat(v);
          if parsed.None? { return Some(UnknownFormat(v)); }
          format := parsed;
        case UiModeFlag =>
          var parsed := ParseUi(v);
          if parsed.None? { return Some(UnknownUi(v)); }
          ui := parsed;
        case NamespaceFlag =>
          if IsBlank(v) { return Some(BlankNamespace); }
          namespace := Some(v);
        case OutputFlag => output := Some(ParseOutput(v));
        case ProfileFlag => profile := Some(v);
        case TimeoutFlag =>
          var parsed := ParseUnsigned(v, U64_BOUND);
          if parsed.None? { return Some(InvalidTimeout(v)); }
          if parsed.value == 0 { return Some(ZeroTimeout); }
          timeout := Some(parsed.value);
        case PageLimitFlag => pageLimitRaw := Some(v);
      }
    }

    /** Rebuild the pairs the user typed, field by field. */
    method CollectTelemetryPairs() returns (pairs: seq<Pair>)
      ensures pairs == TelemetryPairs(Contents())
    {
      pairs := PushLeadingSwitches([]);
      pairs := PushNamedValues(pairs);
      pairs := PushRunFlags(pairs);
      pairs := PushPagingAndOutput(pairs);
    }

    method PushLeadingSwitches(before: seq<Pair>) returns (pairs: seq<Pair>)
      requires before == PairsUpTo(Contents(), 0)
      ensures pairs == PairsUpTo(Contents(), 5)
    {
      pairs := before;
      if verbosity.Verbose? { pairs := pairs + [("--verbose", None)]; }
      assert pairs == PairsUpTo(Contents(), 1);
      if verbosity.Quiet? { pairs := pairs + [("--quiet", None)]; }
      assert pairs == PairsUpTo(Contents(), 2);
      if noInput { pairs := pairs + [("--no-input", None)]; }
      assert pairs == PairsUpTo(Contents(), 3);
      if noColor { pairs := pairs + [("--no-color", None)]; }
      assert pairs == PairsUpTo(Contents(), 4);
      if autoConfirmed { pairs := pairs + [("--yes", None)]; }
      assert pairs == PairsUpTo(Contents(), 5);
    }

    method PushNamedValues(before: seq<Pair>) returns (pairs: seq<Pair>)
      requires before == PairsUpTo(Contents(), 5)
      ensures pairs == PairsUpTo(Contents(), 9)
    {
      pairs := before;
      if format.Some? { pairs := pairs + [("--format", Some(FormatText(format.value)))]; }
      assert pairs == PairsUpTo(Contents(), 6);
      if ui.Some? { pairs := pairs + [("--ui", Some(UiText(ui.value)))]; }
      assert pairs == PairsUpTo(Contents(), 7);
      if namespace.Some? { pairs := pairs + [("--namespace", Some(namespace.value))]; }
      assert pairs == PairsUpTo(Contents(), 8);
      if profile.Some? { pairs := pairs + [("--profile", Some(profile.value))]; }
      assert pairs == PairsUpTo(Contents(), 9);
    }

    method PushRunFlags(before: seq<Pair>) returns (pairs: seq<Pair>)
      requires before == PairsUpTo(Contents(), 9)
      ensures pairs == PairsUpTo(Contents(), 12)
    {
      pairs := before;
      if dryRun { pairs := pairs + [("--dry-run", None)]; }
      assert pairs == PairsUpTo(Contents(), 10);
      if skeleton { pairs := pairs + [("--skeleton", None)]; }
      assert pairs == PairsUpTo(Contents(), 11);
      if timeout.Some? { pairs := pairs + [("--timeout", Some(Decimal(timeout.value)))]; }
      assert pairs == PairsUpTo(Contents(), 12);
    }

    method PushPagingAndOutput(before: seq<Pair>) returns (pairs: seq<Pair>)
      requires before == PairsUpTo(Contents(), 12)
      ensures pairs == PairsUpTo(Contents(), 15)
    {
      pairs := before;
      if pageAll { pairs := pairs + [("--page-all", None)]; }
      assert pairs == PairsUpTo(Contents(), 13);
      if pageLimitRaw.Some? { pairs := pairs + [("--page-limit", Some(pageLimitRaw.value))]; }
      assert pairs == PairsUpTo(Contents(), 14);
      if output.Some? { pairs := pairs + [("--output", Some(OutputText(output.value)))]; }
      assert pairs == PairsUpTo(Contents(), 15);
    }
  }

  /** The loop agrees with the scan from the defaults, errors included. */
  method PreScanGlobalFlags(args: seq<string>)
    returns (flags: FlagRecord, remaining: seq<string>, error: Option<ScanError>)
    ensures fresh(flags)
    ensures Scan(args, DEFAULT_FLAGS) ==
            if error.None? then Ok(Scanned(flags.Contents(), remaining)) else Err(error.value)
  {
    flags := new FlagRecord();
    remaining := [];
    error := None;
    var i := 0;
    assert args[0..] == args;
    PrependNothing(Scan(args, flags.Contents()));
    while i < |args|
      invariant 0 <= i <= |args| && fresh(flags) && error.None?
      invariant Scan(args, DEFAULT_FLAGS) == Prepend(remaining, Scan(args[i..], flags.Contents()))
    {
      var rest := args[i..];
      assert rest[0] == args[i] && rest[1..] == args[i + 1..];
      match Classify(args[i]) {
        case Assigned(flag, text) =>
          error := flags.ApplyFlag(flag, Some(text));
          if error.Some? { return; }
          i := i + 1;
        case Expects(flag) =>
          if i + 1 == |args| || LooksLikeFlag(args[i + 1]) {
            error := Some(MissingValue(args[i]));
            return;
          }
          assert rest[1] == args[i + 1] && rest[2..] == args[i + 2..];
          error := flags.ApplyFlag(flag, Some(args[i + 1]));
          if error.Some? { return; }
          i := i + 2;
        case Switch(flag) =>
          error := flags.ApplyFlag(flag, None);
          if error.Some? { return; }
          i := i + 1;
        case Other =>
          PrependTwice(remaining, [args[i]], Scan(args[i + 1..], flags.Contents()));
          remaining := remaining + [args[i]];
          i := i + 1;
      }
    }
    assert args[i..] == [] && remaining + [] == remaining;
  }

  /** The leaf-selector loop agrees with its scan, errors included. */
  method PreScanLeafSelectors(args: seq<string>) returns (r: LeafResult)
    ensures r == LeafScan(args, NO_SELECTORS)
  {
    var selectors, remaining := NO_SELECTORS, [];
    var i := 0;
    assert args[0..] == args;
    PrependLeafNothing(LeafScan(args, NO_SELECTORS));
    while i < |args|
      invariant 0 <= i <= |args|
      invariant LeafScan(args, NO_SELECTORS) == PrependLeaf(remaining, LeafScan(args[i..], selectors))
    {
      var rest := args[i..];
      assert rest[0] == args[i] && rest[1..] == args[i + 1..];
      var withValue := AssignedSelector(args[i]);
      if withValue.Some? {
        selectors := Select(selectors, withValue.value.0, withValue.value.1);
        i := i + 1;
        continue;
      }
      var name := RecogniseSelector(args[i]);
      if name.Some? {
        if i + 1 == |args| || StartsWithDash(args[i + 1]) {
          return Err(MissingValue(args[i]));
        }
        assert rest[1] == args[i + 1] && rest[2..] == args[i + 2..];
        selectors := Select(selectors, name.value, args[i + 1]);
        i := i + 2;
        continue;
      }
      PrependLeafTwice(remaining, [args[i]], LeafScan(args[i + 1..], selectors));
      remaining := remaining + [args[i]];
      i := i + 1;
    }
    assert args[i..] == [] && remaining + [] == remaining;
    r := Ok(Selected(selectors, remaining));
  }
}
