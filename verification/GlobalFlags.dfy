/** The global-flag and leaf-selector pre-scans as functions of an argument list. */
module GlobalFlags {
  import opened Wrappers
  import opened Text

  datatype Verbosity = Quiet | Normal | Verbose

  datatype OutputFormat = Human | Json

  datatype UiFlag = Auto | Plain | Inline | Fullscreen

  datatype OutputDestination = Stdout | File(path: string)

  /** Every global flag the pre-scan recognises; short forms share the constructor. */
  datatype FlagName =
    | VerboseFlag | QuietFlag | NoInputFlag | NoColorFlag | YesFlag | FormatFlag | UiModeFlag | NamespaceFlag
    | OutputFlag | ProfileFlag | DryRunFlag | SkeletonFlag | TimeoutFlag | PageAllFlag | PageLimitFlag
  {
    predicate TakesValue() {
      FormatFlag? || UiModeFlag? || NamespaceFlag? || OutputFlag? || ProfileFlag? || TimeoutFlag? || PageLimitFlag?
    }
  }

  function Recognise(token: string): Option<FlagName> {
    if token == "--verbose" || token == "-v" then Some(VerboseFlag)
    else if token == "--quiet" || token == "-q" then Some(QuietFlag)
    else if token == "--no-input" then Some(NoInputFlag)
    else if token == "--no-color" then Some(NoColorFlag)
    else if token == "--yes" || token == "-y" then Some(YesFlag)
    else if token == "--format" then Some(FormatFlag)
    else if token == "--ui" then Some(UiModeFlag)
    else if token == "--namespace" || token == "-n" then Some(NamespaceFlag)
    else if token == "--output" then Some(OutputFlag)
    else if token == "--profile" then Some(ProfileFlag)
    else if token == "--dry-run" then Some(DryRunFlag)
    else if token == "--skeleton" then Some(SkeletonFlag)
    else if token == "--timeout" then Some(TimeoutFlag)
    else if token == "--page-all" then Some(PageAllFlag)
    else if token == "--page-limit" then Some(PageLimitFlag)
    else None
  }

  datatype Flags = Flags(
    verbosity: Verbosity,
    noInput: bool,
    noColor: bool,
    autoConfirmed: bool,
    format: Option<OutputFormat>,
    ui: Option<UiFlag>,
    namespace: Option<string>,
    profile: Option<string>,
    dryRun: bool,
    skeleton: bool,
    timeout: Option<U64>,
    pageAll: bool,
    pageLimit: Option<U64>,
    pageLimitRaw: Option<string>,
    output: Option<OutputDestination>)

  const DEFAULT_FLAGS :=
    Flags(Normal, false, false, false, None, None, None, None, false, false, None, false, None, None, None)

  datatype ScanError =
    | MissingValue(flag: string)
    | UnknownFormat(text: string)
    | UnknownUi(text: string)
    | BlankNamespace
    | InvalidTimeout(text: string)
    | ZeroTimeout

  function ParseFormat(text: string): Option<OutputFormat> {
    if text == "human" then Some(Human) else if text == "json" then Some(Json) else None
  }

  function ParseUi(text: string): Option<UiFlag> {
    if text == "auto" then Some(Auto)
    else if text == "plain" then Some(Plain)
    else if text == "inline" then Some(Inline)
    else if text == "fullscreen" then Some(Fullscreen)
    else None
  }

  function ParseOutput(text: string): OutputDestination {
    if text == "-" then Stdout else File(text)
  }

  /** Set the field of a matched flag. A value-taking flag without a value changes nothing. */
  function Apply(flags: Flags, flag: FlagName, text: Option<string>): Result<Flags, ScanError> {
    match flag
    case VerboseFlag => Ok(flags.(verbosity := Verbose))
    case QuietFlag => Ok(flags.(verbosity := Quiet))
    case NoInputFlag => Ok(flags.(noInput := true))
    case NoColorFlag => Ok(flags.(noColor := true))
    case YesFlag => Ok(flags.(autoConfirmed := true))
    case DryRunFlag => Ok(flags.(dryRun := true))
    case SkeletonFlag => Ok(flags.(skeleton := true))
    case PageAllFlag => Ok(flags.(pageAll := true))
    case _ => if text.None? then Ok(flags) else ApplyValue(flags, flag, text.value)
  }

  function ApplyValue(flags: Flags, flag: FlagName, v: string): Result<Flags, ScanError>
    requires flag.TakesValue()
  {
    match flag
    case FormatFlag =>
      var format := ParseFormat(v);
      if format.None? then Err(UnknownFormat(v)) else Ok(flags.(format := format))
    case UiModeFlag =>
      var ui := ParseUi(v);
      if ui.None? then Err(UnknownUi(v)) else Ok(flags.(ui := ui))
    case NamespaceFlag => if IsBlank(v) then Err(BlankNamespace) else Ok(flags.(namespace := Some(v)))
    case OutputFlag => Ok(flags.(output := Some(ParseOutput(v))))
    case ProfileFlag => Ok(flags.(profile := Some(v)))
    case TimeoutFlag =>
      var parsed := ParseUnsigned(v, U64_BOUND);
      if parsed.None? then Err(InvalidTimeout(v))
      else if parsed.value == 0 then Err(ZeroTimeout)
      else Ok(flags.(timeout := Some(parsed.value)))
    case PageLimitFlag => Ok(flags.(pageLimitRaw := Some(v)))
  }

  /** How the scan reads one token. */
  datatype Token = Assigned(flag: FlagName, text: string) | Expects(flag: FlagName) | Switch(flag: FlagName) | Other

  function Classify(arg: string): Token {
    var split := SplitOnce(arg, '=');
    if split.Some? && Recognise(split.value.0).Some? && Recognise(split.value.0).value.TakesValue() then
      Assigned(Recognise(split.value.0).value, split.value.1)
    else
      match Recognise(arg)
      case None => Other
      case Some(flag) => if flag.TakesValue() then Expects(flag) else Switch(flag)
  }

  /** The lone `-` is the stdout/stdin sentinel: a value, not a flag. */
  predicate LooksLikeFlag(arg: string) {
    arg != "" && arg[0] == '-' && arg != "-"
  }

  datatype Scanned = Scanned(flags: Flags, remaining: seq<string>)

  type ScanResult = Result<Scanned, ScanError>

  function Prepend(args: seq<string>, r: ScanResult): ScanResult {
    match r
    case Err(_) => r
    case Ok(s) => Ok(Scanned(s.flags, args + s.remaining))
  }

  lemma PrependNothing(r: ScanResult)
    ensures Prepend([], r) == r
  {
    if r.Ok? {
      assert [] + r.value.remaining == r.value.remaining;
    }
  }

  lemma PrependTwice(a: seq<string>, b: seq<string>, r: ScanResult)
    ensures Prepend(a, Prepend(b, r)) == Prepend(a + b, r)
  {
    if r.Ok? {
      assert a + (b + r.value.remaining) == (a + b) + r.value.remaining;
    }
  }

  /** The global scan, continued from `flags`. */
  function Scan(args: seq<string>, flags: Flags): ScanResult
    decreases |args|
  {
    if args == [] then Ok(Scanned(flags, [])) else
    match Classify(args[0])
    case Assigned(flag, text) => ScanFrom(Apply(flags, flag, Some(text)), args, 1)
    case Switch(flag) => ScanFrom(Apply(flags, flag, None), args, 1)
    case Expects(flag) =>
      if |args| == 1 || LooksLikeFlag(args[1]) then Err(MissingValue(args[0]))
      else ScanFrom(Apply(flags, flag, Some(args[1])), args, 2)
    case Other => Prepend([args[0]], Scan(args[1..], flags))
  }

  function ScanFrom(applied: Result<Flags, ScanError>, args: seq<string>, consumed: nat): ScanResult
    requires 0 < consumed <= |args|
    decreases |args|, 0
  {
    match applied
    case Err(error) => Err(error)
    case Ok(next) => Scan(args[consumed..], next)
  }

  /* ---- The printer. ---- */

  type Pair = (string, Option<string>)

  /** The name telemetry reports for a flag: its long form. */
  function Name(flag: FlagName): string {
    match flag
    case VerboseFlag => "--verbose"
    case QuietFlag => "--quiet"
    case NoInputFlag => "--no-input"
    case NoColorFlag => "--no-color"
    case YesFlag => "--yes"
    case FormatFlag => "--format"
    case UiModeFlag => "--ui"
    case NamespaceFlag => "--namespace"
    case OutputFlag => "--output"
    case ProfileFlag => "--profile"
    case DryRunFlag => "--dry-run"
    case SkeletonFlag => "--skeleton"
    case TimeoutFlag => "--timeout"
    case PageAllFlag => "--page-all"
    case PageLimitFlag => "--page-limit"
  }

  function FormatText(format: OutputFormat): string {
    match format case Human => "human" case Json => "json"
  }

  function UiText(ui: UiFlag): string {
    match ui case Auto => "auto" case Plain => "plain" case Inline => "inline" case Fullscreen => "fullscreen"
  }

  function OutputText(output: OutputDestination): string {
    match output case Stdout => "-" case File(path) => path
  }

  predicate SwitchedOn(flags: Flags, flag: FlagName)
    requires !flag.TakesValue()
  {
    match flag
    case VerboseFlag => flags.verbosity.Verbose?
    case QuietFlag => flags.verbosity.Quiet?
    case NoInputFlag => flags.noInput
    case NoColorFlag => flags.noColor
    case YesFlag => flags.autoConfirmed
    case DryRunFlag => flags.dryRun
    case SkeletonFlag => flags.skeleton
    case PageAllFlag => flags.pageAll
  }

  /** The text a user would have typed for a value-taking flag that is set. */
  function TypedText(flags: Flags, flag: FlagName): Option<string>
    requires flag.TakesValue()
  {
    match flag
    case FormatFlag => if flags.format.Some? then Some(FormatText(flags.format.value)) else None
    case UiModeFlag => if flags.ui.Some? then Some(UiText(flags.ui.value)) else None
    case NamespaceFlag => flags.namespace
    case ProfileFlag => flags.profile
    case TimeoutFlag => if flags.timeout.Some? then Some(Decimal(flags.timeout.value)) else None
    case PageLimitFlag => flags.pageLimitRaw
    case OutputFlag => if flags.output.Some? then Some(OutputText(flags.output.value)) else None
  }

  /** The pair one flag contributes. */
  function FlagPair(flags: Flags, flag: FlagName): seq<Pair> {
    if flag.TakesValue() then
      var text := TypedText(flags, flag);
      if text.Some? then [(Name(flag), text)] else []
    else
      if SwitchedOn(flags, flag) then [(Name(flag), None)] else []
  }

  /** The order in which the pairs are printed. */
  const PRINT_ORDER: seq<FlagName> :=
    [VerboseFlag, QuietFlag, NoInputFlag, NoColorFlag, YesFlag, FormatFlag, UiModeFlag, NamespaceFlag, ProfileFlag,
     DryRunFlag, SkeletonFlag, TimeoutFlag, PageAllFlag, PageLimitFlag, OutputFlag]

  function PairsUpTo(flags: Flags, k: nat): seq<Pair>
    requires k <= |PRINT_ORDER|
  {
    if k == 0 then [] else PairsUpTo(flags, k - 1) + FlagPair(flags, PRINT_ORDER[k - 1])
  }

  function TelemetryPairs(flags: Flags): seq<Pair> {
    PairsUpTo(flags, |PRINT_ORDER|)
  }

  /** A pair as one argument. */
  function Render(pair: Pair): string {
    if pair.1.None? then pair.0 else pair.0 + "=" + pair.1.value
  }

  function RenderAll(pairs: seq<Pair>): seq<string> {
    if pairs == [] then [] else [Render(pairs[0])] + RenderAll(pairs[1..])
  }

  /* ---- The leaf-selector scan. ---- */

  datatype Selectors = Selectors(apiScope: Option<string>, apiVersion: Option<string>)

  const NO_SELECTORS := Selectors(None, None)

  datatype SelectorName = ScopeSelector | VersionSelector

  function RecogniseSelector(token: string): Option<SelectorName> {
    if token == "--api-scope" then Some(ScopeSelector)
    else if token == "--api-version" then Some(VersionSelector)
    else None
  }

  function Select(selectors: Selectors, name: SelectorName, text: string): Selectors {
    match name
    case ScopeSelector => selectors.(apiScope := Some(text))
    case VersionSelector => selectors.(apiVersion := Some(text))
  }

  /** The leaf scan does not except the lone `-`. */
  predicate StartsWithDash(arg: string) {
    arg != "" && arg[0] == '-'
  }

  datatype Selected = Selected(selectors: Selectors, remaining: seq<string>)

  type LeafResult = Result<Selected, ScanError>

  function PrependLeaf(args: seq<string>, r: LeafResult): LeafResult {
    match r
    case Err(_) => r
    case Ok(s) => Ok(Selected(s.selectors, args + s.remaining))
  }

  lemma PrependLeafNothing(r: LeafResult)
    ensures PrependLeaf([], r) == r
  {
    if r.Ok? {
      assert [] + r.value.remaining == r.value.remaining;
    }
  }

  lemma PrependLeafTwice(a: seq<string>, b: seq<string>, r: LeafResult)
    ensures PrependLeaf(a, PrependLeaf(b, r)) == PrependLeaf(a + b, r)
  {
    if r.Ok? {
      assert a + (b + r.value.remaining) == (a + b) + r.value.remaining;
    }
  }

  /** The selector an argument assigns with `=`, if any. */
  function AssignedSelector(arg: string): Option<(SelectorName, string)> {
    match SplitOnce(arg, '=')
    case None => None
    case Some((before, after)) =>
      match RecogniseSelector(before)
      case None => None
      case Some(name) => Some((name, after))
  }

  function LeafScan(args: seq<string>, selectors: Selectors): LeafResult
    decreases |args|
  {
    if args == [] then Ok(Selected(selectors, [])) else
    match AssignedSelector(args[0])
    case Some((name, text)) => LeafScan(args[1..], Select(selectors, name, text))
    case None =>
      match RecogniseSelector(args[0])
      case Some(name) =>
        if |args| == 1 || StartsWithDash(args[1]) then Err(MissingValue(args[0]))
        else LeafScan(args[2..], Select(selectors, name, args[1]))
      case None => PrependLeaf([args[0]], LeafScan(args[1..], selectors))
  }
}
