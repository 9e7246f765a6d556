/** The restic command lines the service builds and how restic reads them back
    (crates/resticpal-core/src/restic.rs, config.rs). */
module Command {
  import opened Common
  import opened Config
  import opened WindowsPath

  // ---------------------------------------------------------------- authorization

  datatype ResticOperation =
    | Backup | Unlock | Probe | Snapshots | Check | Initialize
    | Forget | Prune | Rewrite | Migrate | Repair | RemoveKey

  predicate AllowedIn(operation: ResticOperation, mode: RepositoryMode) {
    mode == Standard || operation in {Backup, Unlock, Probe, Snapshots, Check}
  }

  datatype InvocationError =
    | WrongKind
    | ForbiddenByRepositoryMode
    | SnapshotDisablingOption
    | InvalidConfiguration
    | MissingRepository
    | NoBackupPaths
    | ProtectedBackupSource

  /** What is handed to the process: secrets only by reference, never as arguments. */
  datatype Invocation = Invocation(
    operation: ResticOperation,
    arguments: seq<string>,
    repository: string,
    secrets: map<SecretVariable, string>)

  // ---------------------------------------------------------------- validation

  predicate IsAlphanumeric(c: char) {
    'a' <= c <= 'z' || 'A' <= c <= 'Z' || '0' <= c <= '9'
  }

  predicate IsValidOptionName(name: string) {
    && name != [] && IsAlphanumeric(name[0])
    && forall i :: 0 <= i < |name| ==> IsAlphanumeric(name[i]) || name[i] in {'.', '_', '-'}
  }

  function LowerAscii(text: string): string {
    seq(|text|, i requires 0 <= i < |text| => LowerChar(text[i]))
  }

  predicate DisablesSnapshots(option: string) {
    LowerAscii(option) == "vss.exclude-volumes" || LowerAscii(option) == "vss.exclude-all-mount-points"
  }

  predicate OneLine(text: string) {
    forall i :: 0 <= i < |text| ==> text[i] !in {'\0', '\r', '\n'}
  }

  predicate IsBlank(text: string) {
    forall i :: 0 <= i < |text| ==> text[i] in {' ', '\t', '\r', '\n'}
  }

  /** Sources are absolute paths on a local drive. */
  predicate ValidSource(text: string) {
    var path := ParsePath(text);
    && text != [] && |text| <= 32_767 && '\0' !in text
    && IsAbsolute(path) && (path.prefix.value.Disk? || path.prefix.value.VerbatimDisk?)
  }

  predicate ValidOptions(options: map<string, string>) {
    && |options| <= 64
    && forall k :: k in options ==>
         !DisablesSnapshots(k) && IsValidOptionName(k) && |options[k]| <= 4096 && OneLine(options[k])
  }

  predicate Valid(config: EffectiveConfig) {
    && (config.repository.url.Some? ==>
          && !IsBlank(config.repository.url.value) && |config.repository.url.value| <= 8192
          && OneLine(config.repository.url.value))
    && 1 <= config.schedule.intervalHours <= 24 * 365
    && config.schedule.wakeGraceSeconds <= 24 * 60 * 60
    && 1 <= config.schedule.wakeLockTimeoutSeconds <= 24 * 60 * 60
    && |config.paths| <= 128 && (forall p :: p in config.paths ==> ValidSource(p))
    && |config.exclusions| <= 512
    && (forall e :: e in config.exclusions ==> e != [] && |e| <= 1024 && OneLine(e))
    && ValidOptions(config.repository.options)
    && ValidRetention(config.retention)
  }

  predicate ValidRetention(retention: RetentionConfig) {
    && retention.daily <= 10_000 && retention.weekly <= 10_000
    && retention.monthly <= 10_000 && retention.yearly <= 10_000
    && !(retention.daily == retention.weekly == retention.monthly == retention.yearly == 0)
    && 1 <= retention.pruneIntervalDays <= 365
  }

  // ---------------------------------------------------------------- argument vectors

  /** The order in which an ordered map hands out its keys. */
  predicate Enumerates(order: seq<string>, options: map<string, string>) {
    Distinct(order) && (set k | k in order) == options.Keys
  }

  function OptionArguments(order: seq<string>, options: map<string, string>): seq<string>
    requires forall k :: k in order ==> k in options
  {
    if order == [] then []
    else ["--option", order[0] + ("=" + options[order[0]])] + OptionArguments(order[1..], options)
  }

  function Repeated(flag: string, values: seq<string>): seq<string> {
    if values == [] then [] else [flag, values[0]] + Repeated(flag, values[1..])
  }

  function BackupCommand(rest: seq<string>): seq<string> {
    ["--cleanup-cache"] + (["backup"] + (["--json"] + (["--use-fs-snapshot"] + rest)))
  }

  function BackupArguments(config: EffectiveConfig, order: seq<string>, required: seq<string>): seq<string>
    requires forall k :: k in order ==> k in config.repository.options
  {
    OptionArguments(order, config.repository.options)
    + BackupCommand(Repeated("--exclude", config.exclusions) + (Repeated("--iexclude", required) + config.paths))
  }

  // ---------------------------------------------------------------- how restic reads them

  datatype CommandLine = CommandLine(
    options: seq<(string, string)>,
    cleanupCache: bool,
    json: bool,
    fsSnapshot: bool,
    excludes: seq<string>,
    iexcludes: seq<string>,
    positionals: seq<string>)

  const NOTHING := CommandLine([], false, false, false, [], [], [])

  datatype Flag = OptionFlag | ExcludeFlag | IexcludeFlag | CleanupFlag | JsonFlag | SnapshotFlag | UnknownFlag | NoFlag

  function FlagOf(argument: string): Flag {
    if argument == [] || argument[0] != '-' then NoFlag
    else if argument == "--option" then OptionFlag
    else if argument == "--exclude" then ExcludeFlag
    else if argument == "--iexclude" then IexcludeFlag
    else if argument == "--cleanup-cache" then CleanupFlag
    else if argument == "--json" then JsonFlag
    else if argument == "--use-fs-snapshot" then SnapshotFlag
    else UnknownFlag
  }

  function BeforeEquals(text: string): string {
    if text == [] || text[0] == '=' then [] else [text[0]] + BeforeEquals(text[1..])
  }

  function KeyValue(text: string): (string, string) {
    var key := BeforeEquals(text);
    (key, if |key| + 1 <= |text| then text[|key| + 1..] else [])
  }

  predicate TakesValue(flag: Flag) {
    flag.OptionFlag? || flag.ExcludeFlag? || flag.IexcludeFlag?
  }

  function WithValue(line: CommandLine, flag: Flag, value: string): CommandLine {
    if flag.OptionFlag? then line.(options := line.options + [KeyValue(value)])
    else if flag.ExcludeFlag? then line.(excludes := line.excludes + [value])
    else line.(iexcludes := line.iexcludes + [value])
  }

  function WithArgument(line: CommandLine, flag: Flag, argument: string): CommandLine {
    if flag.CleanupFlag? then line.(cleanupCache := true)
    else if flag.JsonFlag? then line.(json := true)
    else if flag.SnapshotFlag? then line.(fsSnapshot := true)
    else line.(positionals := line.positionals + [argument])
  }

  /** Flags and positional arguments in any order; a flag with a value takes the next argument, whatever it is. */
  function Decode(arguments: seq<string>, line: CommandLine): Option<CommandLine> {
    if arguments == [] then Some(line)
    else
      var flag := FlagOf(arguments[0]);
      if flag.UnknownFlag? || (TakesValue(flag) && |arguments| < 2) then None
      else if TakesValue(flag) then Decode(arguments[2..], WithValue(line, flag, arguments[1]))
      else Decode(arguments[1..], WithArgument(line, flag, arguments[0]))
  }

  lemma DecodeOne(argument: string, rest: seq<string>, line: CommandLine)
    requires !FlagOf(argument).UnknownFlag? && !TakesValue(FlagOf(argument))
    ensures Decode([argument] + rest, line) == Decode(rest, WithArgument(line, FlagOf(argument), argument))
  {
    DropConcat([argument], rest);
  }

  lemma KnownFlags()
    ensures FlagOf("--option") == OptionFlag && FlagOf("--exclude") == ExcludeFlag
            && FlagOf("--iexclude") == IexcludeFlag
    ensures FlagOf("--cleanup-cache") == CleanupFlag && FlagOf("--json") == JsonFlag
    ensures FlagOf("--use-fs-snapshot") == SnapshotFlag && FlagOf("backup") == NoFlag
  {
    assert |"--option"| == 8 && |"--exclude"| == 9 && |"--iexclude"| == 10 && |"--cleanup-cache"| == 15
           && |"--json"| == 6 && |"--use-fs-snapshot"| == 17;
  }

  lemma {:induction false} KeyValueOfOption(key: string, value: string)
    requires '=' !in key
    ensures KeyValue(key + ("=" + value)) == (key, value)
  {
    BeforeEqualsOfKey(key, value);
    assert (key + ("=" + value))[|key| + 1..] == value;
  }

  lemma {:induction false} BeforeEqualsOfKey(key: string, value: string)
    requires '=' !in key
    ensures BeforeEquals(key + ("=" + value)) == key
  {
    var text := key + ("=" + value);
    if key == [] {
      assert text[0] == '=';
    } else {
      assert text[0] == key[0] && text[1..] == key[1..] + ("=" + value);
      BeforeEqualsOfKey(key[1..], value);
      assert [key[0]] + key[1..] == key;
    }
  }

  function OptionPairs(order: seq<string>, options: map<string, string>): (pairs: seq<(string, string)>)
    requires forall k :: k in order ==> k in options
    ensures |pairs| == |order| && forall i :: 0 <= i < |order| ==> pairs[i] == (order[i], options[order[i]])
  {
    if order == [] then [] else [(order[0], options[order[0]])] + OptionPairs(order[1..], options)
  }

  lemma {:induction false} DecodeOptions(order: seq<string>, options: map<string, string>, rest: seq<string>,
                                         line: CommandLine)
    requires forall k :: k in order ==> k in options && '=' !in k
    ensures Decode(OptionArguments(order, options) + rest, line) ==
            Decode(rest, line.(options := line.options + OptionPairs(order, options)))
    decreases |order|
  {
    if order == [] {
      assert OptionArguments(order, options) + rest == rest;
      assert line.options + OptionPairs(order, options) == line.options;
    } else {
      var text := order[0] + ("=" + options[order[0]]);
      var tail := OptionArguments(order[1..], options) + rest;
      KnownFlags();
      KeyValueOfOption(order[0], options[order[0]]);
      TwoThen("--option", text, OptionArguments(order[1..], options), rest);
      var next := line.(options := line.options + [(order[0], options[order[0]])]);
      DecodeOptions(order[1..], options, rest, next);
      ConcatAssociates(line.options, [(order[0], options[order[0]])], OptionPairs(order[1..], options));
    }
  }

  /** Two arguments in front of a vector come off again. */
  lemma TwoThen(a: string, b: string, middle: seq<string>, rest: seq<string>)
    ensures
      var all := [a, b] + middle + rest;
      |all| >= 2 && all[0] == a && all[1] == b && all[2..] == middle + rest
  {
  }

  function WithValues(line: CommandLine, flag: Flag, values: seq<string>): CommandLine {
    if flag.ExcludeFlag? then line.(excludes := line.excludes + values) else line.(iexcludes := line.iexcludes + values)
  }

  /** Whatever the values look like, even like flags, they are read as values. */
  lemma {:induction false} DecodeRepeated(flag: string, values: seq<string>, rest: seq<string>, line: CommandLine)
    requires FlagOf(flag).ExcludeFlag? || FlagOf(flag).IexcludeFlag?
    ensures Decode(Repeated(flag, values) + rest, line) == Decode(rest, WithValues(line, FlagOf(flag), values))
    decreases |values|
  {
    if values == [] {
      assert Repeated(flag, values) + rest == rest;
      assert line.excludes + values == line.excludes && line.iexcludes + values == line.iexcludes;
    } else {
      TwoThen(flag, values[0], Repeated(flag, values[1..]), rest);
      DecodeRepeated(flag, values[1..], rest, WithValues(line, FlagOf(flag), [values[0]]));
      assert values == [values[0]] + values[1..];
      ConcatAssociates(line.excludes, [values[0]], values[1..]);
      ConcatAssociates(line.iexcludes, [values[0]], values[1..]);
    }
  }

  lemma {:induction false} DecodePositionals(arguments: seq<string>, line: CommandLine)
    requires forall a :: a in arguments ==> FlagOf(a) == NoFlag
    ensures Decode(arguments, line) == Some(line.(positionals := line.positionals + arguments))
    decreases |arguments|
  {
    if arguments == [] {
      assert line.positionals + arguments == line.positionals;
    } else {
      DecodePositionals(arguments[1..], line.(positionals := line.positionals + [arguments[0]]));
      assert arguments == [arguments[0]] + arguments[1..];
      ConcatAssociates(line.positionals, [arguments[0]], arguments[1..]);
    }
  }

  lemma DecodeCommand(rest: seq<string>, line: CommandLine)
    ensures Decode(BackupCommand(rest), line) ==
            Decode(rest, line.(cleanupCache := true, json := true, fsSnapshot := true,
                               positionals := line.positionals + ["backup"]))
  {
    KnownFlags();
    var l1 := line.(cleanupCache := true);
    var l2 := l1.(positionals := line.positionals + ["backup"]);
    DecodeOne("--cleanup-cache", ["backup"] + (["--json"] + (["--use-fs-snapshot"] + rest)), line);
    DecodeOne("backup", ["--json"] + (["--use-fs-snapshot"] + rest), l1);
    DecodeOne("--json", ["--use-fs-snapshot"] + rest, l2);
    DecodeOne("--use-fs-snapshot", rest, l2.(json := true));
  }

  lemma ValidKeysHaveNoEquals(options: map<string, string>, order: seq<string>)
    requires ValidOptions(options) && Enumerates(order, options)
    ensures forall k :: k in order ==> k in options && '=' !in k
  {
    forall k | k in order
      ensures k in options && '=' !in k
    {
      assert k in (set x | x in order);
      assert IsValidOptionName(k);
    }
  }

  lemma DecodeVector(order: seq<string>, options: map<string, string>, exclusions: seq<string>, required: seq<string>,
                     paths: seq<string>)
    requires forall k :: k in order ==> k in options && '=' !in k
    requires forall p :: p in paths ==> FlagOf(p) == NoFlag
    ensures Decode(OptionArguments(order, options)
                   + BackupCommand(Repeated("--exclude", exclusions) + (Repeated("--iexclude", required) + paths)),
                   NOTHING) ==
            Some(CommandLine(OptionPairs(order, options), true, true, true, exclusions, required, ["backup"] + paths))
  {
    var tail := Repeated("--iexclude", required) + paths;
    var middle := Repeated("--exclude", exclusions) + tail;
    DecodeOptions(order, options, BackupCommand(middle), NOTHING);
    var l1 := NOTHING.(options := OptionPairs(order, options));
    assert [] + OptionPairs(order, options) == OptionPairs(order, options) && [] + ["backup"] == ["backup"];
    DecodeCommand(middle, l1);
    DecodeTail(exclusions, required, paths,
               l1.(cleanupCache := true, json := true, fsSnapshot := true, positionals := ["backup"]));
  }

  lemma DecodeTail(exclusions: seq<string>, required: seq<string>, paths: seq<string>, line: CommandLine)
    requires line.excludes == [] && line.iexcludes == [] && forall p :: p in paths ==> FlagOf(p) == NoFlag
    ensures Decode(Repeated("--exclude", exclusions) + (Repeated("--iexclude", required) + paths), line) ==
            Some(line.(excludes := exclusions, iexcludes := required, positionals := line.positionals + paths))
  {
    KnownFlags();
    DecodeRepeated("--exclude", exclusions, Repeated("--iexclude", required) + paths, line);
    assert [] + exclusions == exclusions && [] + required == required;
    var l1 := line.(excludes := exclusions);
    DecodeRepeated("--iexclude", required, paths, l1);
    DecodePositionals(paths, l1.(iexcludes := required));
  }

  /** The command line of every validated configuration reads back as exactly its options, exclusions, required
      exclusions and sources, whatever their contents. */
  lemma BackupArgumentsDecode(config: EffectiveConfig, order: seq<string>, required: seq<string>)
    requires Valid(config) && Enumerates(order, config.repository.options)
    requires forall k :: k in order ==> k in config.repository.options
    ensures Decode(BackupArguments(config, order, required), NOTHING) ==
            Some(CommandLine(OptionPairs(order, config.repository.options), true, true, true, config.exclusions,
                             required, ["backup"] + config.paths))
    ensures (set p | p in OptionPairs(order, config.repository.options)) == config.repository.options.Items
  {
    ValidKeysHaveNoEquals(config.repository.options, order);
    PairsAreItems(order, config.repository.options);
    SourcesArePositional(config.paths);
    hide Decode, OptionArguments, Repeated, BackupCommand, OptionPairs;
    DecodeVector(order, config.repository.options, config.exclusions, required, config.paths);
  }

  /** Two validated configurations with the same command line agree on everything it carries. */
  lemma BackupArgumentsAreUnique(a: EffectiveConfig, b: EffectiveConfig, orderA: seq<string>, orderB: seq<string>,
                                 requiredA: seq<string>, requiredB: seq<string>)
    requires Valid(a) && Valid(b)
    requires Enumerates(orderA, a.repository.options) && Enumerates(orderB, b.repository.options)
    requires forall k :: k in orderA ==> k in a.repository.options
    requires forall k :: k in orderB ==> k in b.repository.options
    requires BackupArguments(a, orderA, requiredA) == BackupArguments(b, orderB, requiredB)
    ensures a.repository.options.Items == b.repository.options.Items
    ensures a.exclusions == b.exclusions && requiredA == requiredB && a.paths == b.paths
  {
    hide Decode, BackupArguments, OptionPairs, Valid;
    BackupArgumentsDecode(a, orderA, requiredA);
    BackupArgumentsDecode(b, orderB, requiredB);
    DropConcat(["backup"], a.paths);
    DropConcat(["backup"], b.paths);
  }

  lemma SourcesArePositional(paths: seq<string>)
    requires forall p :: p in paths ==> ValidSource(p)
    ensures forall p :: p in paths ==> FlagOf(p) == NoFlag
  {
    forall p | p in paths
      ensures FlagOf(p) == NoFlag
    {
      AbsoluteIsNoFlag(p);
    }
  }

  lemma PairsAreItems(order: seq<string>, options: map<string, string>)
    requires Enumerates(order, options) && forall k :: k in order ==> k in options
    ensures (set p | p in OptionPairs(order, options)) == options.Items
  {
    var pairs := OptionPairs(order, options);
    forall p | p in options.Items
      ensures p in pairs
    {
      assert p.0 in (set k | k in order);
      var i :| 0 <= i < |order| && order[i] == p.0;
      assert pairs[i] == p;
    }
  }

  // ---------------------------------------------------------------- the builders

  /** Why a backup command is refused, in the order the checks are made. */
  function BackupRefusal(config: EffectiveConfig, required: seq<string>,
                         lower: string -> string): (r: Option<InvocationError>)
    ensures r.None? ==> config.repository.url.Some?
  {
    if exists k :: k in config.repository.options && DisablesSnapshots(k) then Some(SnapshotDisablingOption)
    else if !Valid(config) then Some(InvalidConfiguration)
    else if config.repository.url.None? then Some(MissingRepository)
    else if config.paths == [] then Some(NoBackupPaths)
    else if Touches(config.paths, required, lower) then Some(ProtectedBackupSource)
    else None
  }

  /** Some source is or lies below a required exclusion. */
  predicate Touches(paths: seq<string>, required: seq<string>, lower: string -> string) {
    exists s, x :: s in paths && x in required && Contains(ParsePath(x), ParsePath(s), lower)
  }

  /** Builds the backup command. `order` is the order of the option map. */
  method BuildBackup(config: EffectiveConfig, order: seq<string>, required: seq<string>, lower: string -> string)
    returns (r: Result<Invocation, InvocationError>)
    requires Enumerates(order, config.repository.options) && forall k :: k in order ==> k in config.repository.options
    ensures r == match BackupRefusal(config, required, lower)
                 case Some(error) => Err(error)
                 case None => Ok(Invocation(Backup, BackupArguments(config, order, required),
                                            config.repository.url.value, config.repository.secretRefs))
  {
    var refusal := BackupRefusal(config, required, lower);
    if refusal.Some? {
      return Err(refusal.value);
    }
    var arguments := CollectArguments(config, order, required);
    return Ok(Invocation(Backup, arguments, config.repository.url.value, config.repository.secretRefs));
  }

  /** An accepted backup was validated, its arguments read back as what the configuration says, and none of its sources
      lies in a required exclusion. */
  lemma AcceptedBackup(config: EffectiveConfig, order: seq<string>, required: seq<string>, lower: string -> string)
    requires Enumerates(order, config.repository.options) && forall k :: k in order ==> k in config.repository.options
    requires BackupRefusal(config, required, lower).None?
    ensures AllowedIn(Backup, config.repository.mode)
    ensures Decode(BackupArguments(config, order, required), NOTHING) ==
            Some(CommandLine(OptionPairs(order, config.repository.options), true, true, true, config.exclusions,
                             required, ["backup"] + config.paths))
    ensures config.paths != [] && !Touches(config.paths, required, lower)
  {
    hide Valid, Touches, Decode, BackupArguments, OptionPairs, DisablesSnapshots;
    BackupArgumentsDecode(config, order, required);
  }

  lemma Assemble(options: seq<string>, excluded: seq<string>, protected: seq<string>, paths: seq<string>)
    ensures options + ["--cleanup-cache"] + ["backup"] + ["--json"] + ["--use-fs-snapshot"]
              + excluded + protected + paths ==
            options + BackupCommand(excluded + (protected + paths))
  {
    var tail := excluded + (protected + paths);
    ConcatAssociates(options + ["--cleanup-cache"] + ["backup"] + ["--json"] + ["--use-fs-snapshot"], excluded,
                     protected);
    ConcatAssociates(options + ["--cleanup-cache"] + ["backup"] + ["--json"] + ["--use-fs-snapshot"],
                     excluded + protected, paths);
    ConcatAssociates(excluded, protected, paths);
    ConcatAssociates(options + ["--cleanup-cache"] + ["backup"] + ["--json"], ["--use-fs-snapshot"], tail);
    ConcatAssociates(options + ["--cleanup-cache"] + ["backup"], ["--json"], ["--use-fs-snapshot"] + tail);
    ConcatAssociates(options + ["--cleanup-cache"], ["backup"], ["--json"] + (["--use-fs-snapshot"] + tail));
    ConcatAssociates(options, ["--cleanup-cache"], ["backup"] + (["--json"] + (["--use-fs-snapshot"] + tail)));
  }

  method CollectArguments(config: EffectiveConfig, order: seq<string>,
                          required: seq<string>) returns (arguments: seq<string>)
    requires forall k :: k in order ==> k in config.repository.options
    ensures arguments == BackupArguments(config, order, required)
  {
    arguments := CollectOptions(order, config.repository.options);
    arguments := arguments + ["--cleanup-cache"] + ["backup"] + ["--json"] + ["--use-fs-snapshot"];
    var excluded := CollectRepeated("--exclude", config.exclusions);
    var protected := CollectRepeated("--iexclude", required);
    arguments := arguments + excluded + protected + config.paths;
    Assemble(OptionArguments(order, config.repository.options), excluded, protected, config.paths);
  }

  method CollectOptions(order: seq<string>, options: map<string, string>) returns (arguments: seq<string>)
    requires forall k :: k in order ==> k in options
    ensures arguments == OptionArguments(order, options)
  {
    arguments := [];
    var i := 0;
    while i < |order|
      invariant 0 <= i <= |order|
      invariant arguments + OptionArguments(order[i..], options) == OptionArguments(order, options)
    {
      assert order[i..][1..] == order[i + 1..];
      var pair := ["--option", order[i] + ("=" + options[order[i]])];
      ConcatAssociates(arguments, pair, OptionArguments(order[i + 1..], options));
      arguments := arguments + pair;
      i := i + 1;
    }
    assert arguments + [] == arguments;
  }

  method CollectRepeated(flag: string, values: seq<string>) returns (arguments: seq<string>)
    ensures arguments == Repeated(flag, values)
  {
    arguments := [];
    var i := 0;
    while i < |values|
      invariant 0 <= i <= |values|
      invariant arguments + Repeated(flag, values[i..]) == Repeated(flag, values)
    {
      assert values[i..][1..] == values[i + 1..];
      ConcatAssociates(arguments, [flag, values[i]], Repeated(flag, values[i + 1..]));
      arguments := arguments + [flag, values[i]];
      i := i + 1;
    }
    assert arguments + [] == arguments;
  }

  datatype Builder = UnlockBuilder | InspectionBuilder | SetupBuilder | RetentionBuilder

  predicate InKind(builder: Builder, operation: ResticOperation) {
    match builder
    case UnlockBuilder => operation == Unlock
    case InspectionBuilder => operation == Snapshots || operation == Check
    case SetupBuilder => operation == Probe || operation == Initialize
    case RetentionBuilder => operation == Forget || operation == Prune
  }

  function Verb(operation: ResticOperation, retention: RetentionConfig): seq<string> {
    match operation
    case Unlock => ["unlock"]
    case Snapshots => ["snapshots", "--json"]
    case Check => ["check", "--json"]
    case Probe => ["cat", "config"]
    case Initialize => ["init"]
    case Forget =>
      ["forget", "--keep-daily", Decimal(retention.daily), "--keep-weekly", Decimal(retention.weekly),
       "--keep-monthly", Decimal(retention.monthly), "--keep-yearly", Decimal(retention.yearly)]
    case Prune => ["prune"]
    case _ => []
  }

  /** The other four builders: kind, mode, configuration and repository are checked in this order. */
  function Build(builder: Builder, operation: ResticOperation, config: EffectiveConfig, order: seq<string>)
    : (r: Result<Invocation, InvocationError>)
    requires forall k :: k in order ==> k in config.repository.options
    ensures r.Ok? ==> AllowedIn(r.value.operation, config.repository.mode) && InKind(builder, r.value.operation)
    ensures r.Ok? && r.value.operation in {Forget, Prune, Initialize} ==> config.repository.mode == Standard
  {
    if !InKind(builder, operation) then Err(WrongKind)
    else if !AllowedIn(operation, config.repository.mode) then Err(ForbiddenByRepositoryMode)
    else if !Valid(config) then Err(InvalidConfiguration)
    else if config.repository.url.None? then Err(MissingRepository)
    else Ok(Invocation(operation, OptionArguments(order, config.repository.options) + Verb(operation, config.retention),
                       config.repository.url.value, config.repository.secretRefs))
  }

  // ---------------------------------------------------------------- reading the other commands back

  /** The global options in front of a command, and what follows them. */
  function ReadOptions(arguments: seq<string>): (seq<(string, string)>, seq<string>) {
    if |arguments| >= 2 && arguments[0] == "--option" then
      var (pairs, rest) := ReadOptions(arguments[2..]);
      ([KeyValue(arguments[1])] + pairs, rest)
    else ([], arguments)
  }

  lemma {:induction false} OptionsReadBack(order: seq<string>, options: map<string, string>, rest: seq<string>)
    requires forall k :: k in order ==> k in options && '=' !in k
    requires rest != [] && rest[0] != "--option"
    ensures ReadOptions(OptionArguments(order, options) + rest) == (OptionPairs(order, options), rest)
    decreases |order|
  {
    if order == [] {
      assert OptionArguments(order, options) + rest == rest;
    } else {
      KeyValueOfOption(order[0], options[order[0]]);
      TwoThen("--option", order[0] + ("=" + options[order[0]]), OptionArguments(order[1..], options), rest);
      OptionsReadBack(order[1..], options, rest);
    }
  }

  function DigitOf(c: char): Option<nat> {
    if '0' <= c <= '9' then Some((c - '0') as nat) else None
  }

  function ReadDecimal(text: string): Option<nat> {
    if text == [] then None
    else
      var digit := DigitOf(text[|text| - 1]);
      if digit.None? then None
      else if |text| == 1 then digit
      else
        match ReadDecimal(text[..|text| - 1])
        case None => None
        case Some(front) => Some(10 * front + digit.value)
  }

  lemma DigitReadsBack(k: nat)
    requires k < 10
    ensures DigitOf(DIGITS[k]) == Some(k)
  {
  }

  lemma {:induction false} DecimalReadsBack(n: nat)
    ensures Decimal(n) != [] && ReadDecimal(Decimal(n)) == Some(n)
  {
    DigitReadsBack(n % 10);
    hide DigitOf;
    if n >= 10 {
      DecimalReadsBack(n / 10);
      assert Decimal(n)[..|Decimal(n)| - 1] == Decimal(n / 10);
    }
  }

  /** What a forget is told to keep; a count given twice is the last one. */
  datatype Keeps = Keeps(daily: nat, weekly: nat, monthly: nat, yearly: nat)

  function WithKeep(keeps: Keeps, flag: string, count: nat): Option<Keeps> {
    if flag == "--keep-daily" then Some(keeps.(daily := count))
    else if flag == "--keep-weekly" then Some(keeps.(weekly := count))
    else if flag == "--keep-monthly" then Some(keeps.(monthly := count))
    else if flag == "--keep-yearly" then Some(keeps.(yearly := count))
    else None
  }

  function ReadKeeps(arguments: seq<string>, keeps: Keeps): Option<Keeps> {
    if arguments == [] then Some(keeps)
    else if |arguments| < 2 || ReadDecimal(arguments[1]).None? then None
    else
      match WithKeep(keeps, arguments[0], ReadDecimal(arguments[1]).value)
      case None => None
      case Some(next) => ReadKeeps(arguments[2..], next)
  }

  lemma KeepReadsBack(flag: string, count: nat, rest: seq<string>, keeps: Keeps)
    requires WithKeep(keeps, flag, count).Some?
    ensures ReadKeeps([flag, Decimal(count)] + rest, keeps) == ReadKeeps(rest, WithKeep(keeps, flag, count).value)
  {
    DecimalReadsBack(count);
    assert ([flag, Decimal(count)] + rest)[2..] == rest;
  }

  function KeepArguments(retention: RetentionConfig): seq<string> {
    ["--keep-daily", Decimal(retention.daily)] + (["--keep-weekly", Decimal(retention.weekly)]
    + (["--keep-monthly", Decimal(retention.monthly)] + (["--keep-yearly", Decimal(retention.yearly)] + [])))
  }

  lemma KeepFlagsDiffer()
    ensures "--keep-daily" != "--keep-weekly" && "--keep-daily" != "--keep-monthly" && "--keep-daily" != "--keep-yearly"
    ensures "--keep-weekly" != "--keep-monthly" && "--keep-weekly" != "--keep-yearly"
    ensures "--keep-monthly" != "--keep-yearly"
  {
    assert "--keep-daily"[7] == 'd' && "--keep-weekly"[7] == 'w';
    assert "--keep-monthly"[7] == 'm' && "--keep-yearly"[7] == 'y';
  }

  lemma KeepsReadBack(retention: RetentionConfig)
    ensures ReadKeeps(KeepArguments(retention), Keeps(0, 0, 0, 0)) ==
            Some(Keeps(retention.daily, retention.weekly, retention.monthly, retention.yearly))
  {
    hide Decimal, ReadKeeps;
    KeepFlagsDiffer();
    var yearly := ["--keep-yearly", Decimal(retention.yearly)] + [];
    var monthly := ["--keep-monthly", Decimal(retention.monthly)] + yearly;
    var weekly := ["--keep-weekly", Decimal(retention.weekly)] + monthly;
    KeepReadsBack("--keep-daily", retention.daily, weekly, Keeps(0, 0, 0, 0));
    KeepReadsBack("--keep-weekly", retention.weekly, monthly, Keeps(retention.daily, 0, 0, 0));
    KeepReadsBack("--keep-monthly", retention.monthly, yearly, Keeps(retention.daily, retention.weekly, 0, 0));
    KeepReadsBack("--keep-yearly", retention.yearly, [],
                  Keeps(retention.daily, retention.weekly, retention.monthly, 0));
    NothingMoreToKeep(Keeps(retention.daily, retention.weekly, retention.monthly, retention.yearly));
  }

  lemma NothingMoreToKeep(keeps: Keeps)
    ensures ReadKeeps([], keeps) == Some(keeps)
  {
  }

  /** What a command says once its global options are taken off. */
  datatype Command = Command(operation: ResticOperation, keeps: Option<Keeps>)

  function ReadCommand(words: seq<string>): Option<Command> {
    if words == [] then None
    else if words == ["unlock"] then Some(Command(Unlock, None))
    else if words == ["snapshots", "--json"] then Some(Command(Snapshots, None))
    else if words == ["check", "--json"] then Some(Command(Check, None))
    else if words == ["cat", "config"] then Some(Command(Probe, None))
    else if words == ["init"] then Some(Command(Initialize, None))
    else if words == ["prune"] then Some(Command(Prune, None))
    else if words[0] == "forget" && ReadKeeps(words[1..], Keeps(0, 0, 0, 0)).Some? then
      Some(Command(Forget, ReadKeeps(words[1..], Keeps(0, 0, 0, 0))))
    else None
  }

  predicate Buildable(operation: ResticOperation) {
    operation in {Unlock, Snapshots, Check, Probe, Initialize, Forget, Prune}
  }

  lemma VerbReadsBack(operation: ResticOperation, retention: RetentionConfig)
    requires Buildable(operation)
    ensures Verb(operation, retention) != [] && Verb(operation, retention)[0] != "--option"
    ensures ReadCommand(Verb(operation, retention)) ==
            Some(Command(operation, if operation == Forget
                                  then Some(Keeps(retention.daily, retention.weekly, retention.monthly,
                                                  retention.yearly))
                                  else None))
  {
    WordsDiffer();
    if operation == Forget {
      hide Decimal;
      assert Verb(operation, retention)[1..] == KeepArguments(retention);
      KeepsReadBack(retention);
    }
  }

  lemma WordsDiffer()
    ensures "--option"[0] == '-' && "unlock"[0] == 'u' && "snapshots"[0] == 's' && "init"[0] == 'i'
    ensures "check"[0] == "cat"[0] == 'c' && "check"[1] == 'h' && "cat"[1] == 'a'
    ensures "forget"[0] == 'f' && "prune"[0] == 'p'
  {
  }

  /** Every command the four builders accept is of its builder's kind and allowed by the repository's mode, and reads
      back as the operation that was asked for, with the configuration's options and, for a forget, its four counts. */
  lemma BuiltCommandReadsBack(builder: Builder, operation: ResticOperation, config: EffectiveConfig,
                              order: seq<string>)
    requires Enumerates(order, config.repository.options) && forall k :: k in order ==> k in config.repository.options
    requires Build(builder, operation, config, order).Ok?
    ensures
      var arguments := Build(builder, operation, config, order).value.arguments;
      var (pairs, words) := ReadOptions(arguments);
      && (set p | p in pairs) == config.repository.options.Items
      && InKind(builder, operation) && AllowedIn(operation, config.repository.mode)
      && ReadCommand(words) ==
         Some(Command(operation,
                    if operation == Forget
                    then Some(Keeps(config.retention.daily, config.retention.weekly, config.retention.monthly,
                                    config.retention.yearly))
                    else None))
  {
    hide ReadOptions, ReadCommand, Verb, OptionArguments;
    ValidKeysHaveNoEquals(config.repository.options, order);
    PairsAreItems(order, config.repository.options);
    VerbReadsBack(operation, config.retention);
    OptionsReadBack(order, config.repository.options, Verb(operation, config.retention));
  }
}
