/**
 * The RNA inspector object: construction (which loads the directive file),
 * per-packet evaluation and the `show` report, over a log that records the
 * warnings and messages the inspector emits.
 */
module Inspector {
  import opened Wrappers
  import opened LineTokens
  import opened StringToInt
  import opened RnaConfiguration
  import opened RnaConfLoading

  /** What `WarningMessage` is called with. */
  datatype Warning =
    | EmptyConfigItems(line: nat, path: string)  // a line missing its type, key or value
    | UsingDefaults                              // the constructor's "using defaults" warning

  /** The four paths of the module configuration, in the order `show` lists them. */
  datatype PathKind = ConfigPath | LibraryPath | FingerprintDir | CustomFingerprintDir

  /** One line of the `show` report, with the value it prints. */
  datatype ReportLine =
    | Header
    | PathEntry(kind: PathKind, path: string)
    | UpdateTimeoutLine(secs: int)
    | MaxHostClientAppsLine(count: int)
    | MaxPayloadsLine(count: int)
    | MaxHostServicesLine(count: int)
    | MaxHostServiceInfoLine(count: int)
    | BannerGrabLine(on: bool)
    | Blank

  /** The log the inspector writes to: `WarningMessage` and `LogMessage`, in call order. */
  class MessageLog {
    var warnings: seq<Warning>
    var messages: seq<ReportLine>

    constructor()
      ensures warnings == [] && messages == []
    {
      warnings := [];
      messages := [];
    }

    method Warn(w: Warning)
      modifies this`warnings
      ensures warnings == old(warnings) + [w]
    {
      warnings := warnings + [w];
    }

    method Log(l: ReportLine)
      modifies this`messages
      ensures messages == old(messages) + [l]
    {
      messages := messages + [l];
    }
  }

  /** The per-thread counters; `total_packets` is the only one the inspector touches. */
  class SimpleStats {
    var totalPackets: nat

    constructor()
      ensures totalPackets == 0
    {
      totalPackets := 0;
    }
  }

  /** A packet, as far as the inspector looks at it. */
  datatype Packet = Packet(packetFlags: bv32)

  /** The flag the host sets on a pseudo-packet rebuilt from a reassembled stream. */
  const PktRebuiltStream: bv32 := 0x0000_0002

  predicate IsRebuiltStream(p: Packet) {
    p.packetFlags & PktRebuiltStream != 0
  }

  /** The path a load reads, as the warnings quote it. */
  function ConfPath(mod: Option<ModuleConfig>): string {
    if mod.Some? then mod.value.rnaConfPath else []
  }

  /** One "empty configuration items" warning for each line number in `ws`, in order. */
  function ItemWarnings(ws: seq<nat>, path: string): (r: seq<Warning>)
    ensures |r| == |ws|
    ensures forall i :: 0 <= i < |ws| ==> r[i] == EmptyConfigItems(ws[i], path)
  {
    if ws == [] then [] else ItemWarnings(ws[..|ws| - 1], path) + [EmptyConfigItems(ws[|ws| - 1], path)]
  }

  /** The warnings a load emits: one per malformed line before the load ended. */
  function LoadWarnings(mod: Option<ModuleConfig>, files: FileSystem): seq<Warning> {
    ItemWarnings(Load(mod, files).warnings, ConfPath(mod))
  }

  /**
   * `w` warns about exactly the lines of kinds `ks` that are missing items, each
   * once, by its 1-based number and the path `path`, in line order.
   */
  predicate WarnsAboutMissingItems(w: seq<Warning>, ks: seq<LineKind>, path: string) {
    && (forall i :: 0 <= i < |w| ==>
          w[i].EmptyConfigItems? && w[i].path == path && 1 <= w[i].line <= |ks| && ks[w[i].line - 1] == MissingItems)
    && (forall i, j :: 0 <= i < j < |w| ==> w[i].line < w[j].line)
    && (forall n :: 1 <= n <= |ks| && ks[n - 1] == MissingItems ==> EmptyConfigItems(n, path) in w)
  }

  /**
   * The warnings of a load that read the whole file are one per line that is
   * missing items (comments and empty lines count towards the numbering), in
   * line order, and no others.
   */
  lemma LoadWarningsLines(mod: Option<ModuleConfig>, files: FileSystem)
    requires mod.Some? && mod.value.rnaConfPath in files
    requires Load(mod, files).result == Loaded
    ensures WarnsAboutMissingItems(LoadWarnings(mod, files), Kinds(files[mod.value.rnaConfPath]), mod.value.rnaConfPath)
  {
    var path := mod.value.rnaConfPath;
    var ks := Kinds(files[path]);
    var ws := Scan(DefaultConfig, ks).warnings;
    assert Load(mod, files).warnings == ws;
    ScanWarnings(DefaultConfig, ks);
    ItemWarningsOfLines(ks, ws, path);
  }

  /** ItemWarnings turns the numbers of the malformed lines into their warnings. */
  lemma ItemWarningsOfLines(ks: seq<LineKind>, ws: seq<nat>, path: string)
    requires Increasing(ws)
    requires forall n :: n in ws ==> 1 <= n <= |ks| && ks[n - 1] == MissingItems
    requires forall n :: 1 <= n <= |ks| && ks[n - 1] == MissingItems ==> n in ws
    ensures WarnsAboutMissingItems(ItemWarnings(ws, path), ks, path)
  {
    var w := ItemWarnings(ws, path);
    forall i | 0 <= i < |w|
      ensures w[i].EmptyConfigItems? && w[i].path == path && 1 <= w[i].line <= |ks| && ks[w[i].line - 1] == MissingItems
    {
      assert ws[i] in ws;
    }
    forall n | 1 <= n <= |ks| && ks[n - 1] == MissingItems
      ensures EmptyConfigItems(n, path) in w
    {
      assert n in ws;
      var i :| 0 <= i < |ws| && ws[i] == n;
      assert w[i] == EmptyConfigItems(n, path);
    }
  }

  /** The report line for one path, when the path is set. */
  function PathLine(kind: PathKind, path: string): seq<ReportLine> {
    if path != [] then [PathEntry(kind, path)] else []
  }

  /** The path lines of the report: one per non-empty path, in a fixed order. */
  function PathLines(mod: Option<ModuleConfig>): seq<ReportLine> {
    if mod.None? then []
    else
      var m := mod.value;
      PathLine(ConfigPath, m.rnaConfPath) + PathLine(LibraryPath, m.rnaUtilLibPath) +
      PathLine(FingerprintDir, m.fingerprintDir) + PathLine(CustomFingerprintDir, m.customFingerprintDir)
  }

  /** The tuning lines of the report: all six, when there is a record. */
  function TuningLines(cfg: Option<RnaConfig>): seq<ReportLine> {
    if cfg.None? then []
    else
      var c := cfg.value;
      [UpdateTimeoutLine(c.updateTimeout), MaxHostClientAppsLine(c.maxHostClientApps),
       MaxPayloadsLine(c.maxPayloads), MaxHostServicesLine(c.maxHostServices),
       MaxHostServiceInfoLine(c.maxHostServiceInfo), BannerGrabLine(c.enableBannerGrab)]
  }

  /** Everything `show` logs. */
  function Report(mod: Option<ModuleConfig>, cfg: Option<RnaConfig>): seq<ReportLine> {
    [Header] + PathLines(mod) + TuningLines(cfg) + [Blank]
  }

  /** The path of kind `kind` in the module configuration. */
  function PathOf(m: ModuleConfig, kind: PathKind): string {
    match kind
    case ConfigPath => m.rnaConfPath
    case LibraryPath => m.rnaUtilLibPath
    case FingerprintDir => m.fingerprintDir
    case CustomFingerprintDir => m.customFingerprintDir
  }

  /** The place of each kind of line in the report, top to bottom. */
  function Rank(l: ReportLine): nat {
    match l
    case Header => 0
    case PathEntry(kind, _) =>
      (match kind case ConfigPath => 1 case LibraryPath => 2 case FingerprintDir => 3 case CustomFingerprintDir => 4)
    case UpdateTimeoutLine(_) => 5
    case MaxHostClientAppsLine(_) => 6
    case MaxPayloadsLine(_) => 7
    case MaxHostServicesLine(_) => 8
    case MaxHostServiceInfoLine(_) => 9
    case BannerGrabLine(_) => 10
    case Blank => 11
  }

  /** Lines whose ranks lie in [lo, hi) and strictly increase. */
  predicate RankedWithin(s: seq<ReportLine>, lo: nat, hi: nat) {
    && (forall i :: 0 <= i < |s| ==> lo <= Rank(s[i]) < hi)
    && (forall i, j :: 0 <= i < j < |s| ==> Rank(s[i]) < Rank(s[j]))
  }

  lemma RankedConcat(a: seq<ReportLine>, b: seq<ReportLine>, lo: nat, mid: nat, hi: nat)
    requires lo <= mid <= hi
    requires RankedWithin(a, lo, mid) && RankedWithin(b, mid, hi)
    ensures RankedWithin(a + b, lo, hi)
  {
    var s := a + b;
    forall i | 0 <= i < |s|
      ensures lo <= Rank(s[i]) < hi
    {
      if i < |a| {
        assert s[i] == a[i];
      } else {
        assert s[i] == b[i - |a|];
      }
    }
    forall i, j | 0 <= i < j < |s|
      ensures Rank(s[i]) < Rank(s[j])
    {
      if j < |a| {
        assert s[i] == a[i] && s[j] == a[j];
      } else if i >= |a| {
        assert s[i] == b[i - |a|] && s[j] == b[j - |a|];
      } else {
        assert s[i] == a[i] && s[j] == b[j - |a|];
      }
    }
  }

  /**
   * The order of the report: the header first and a blank line last, every kind
   * of line at most once and always in the same order.
   */
  lemma ReportOrder(mod: Option<ModuleConfig>, cfg: Option<RnaConfig>)
    ensures var r := Report(mod, cfg);
      r[0] == Header && r[|r| - 1] == Blank && RankedWithin(r, 0, 12)
  {
    PathLinesRanked(mod);
    TuningLinesRanked(cfg);
    assert RankedWithin([Header], 0, 1);
    assert RankedWithin([Blank], 11, 12);
    RankedConcat([Header], PathLines(mod), 0, 1, 5);
    RankedConcat([Header] + PathLines(mod), TuningLines(cfg), 0, 5, 11);
    RankedConcat([Header] + PathLines(mod) + TuningLines(cfg), [Blank], 0, 11, 12);
  }

  /** The report lists a path exactly when it is set, with the path itself. */
  lemma ReportPaths(mod: Option<ModuleConfig>, cfg: Option<RnaConfig>, kind: PathKind, p: string)
    ensures PathEntry(kind, p) in Report(mod, cfg) <==> mod.Some? && p != [] && PathOf(mod.value, kind) == p
  {
    var l := PathEntry(kind, p);
    var r := Report(mod, cfg);
    assert r == [Header] + PathLines(mod) + TuningLines(cfg) + [Blank];
    assert l !in TuningLines(cfg);
    assert l in r <==> l in PathLines(mod);
    PathLinesContents(mod, kind, p);
  }

  lemma PathLinesContents(mod: Option<ModuleConfig>, kind: PathKind, p: string)
    ensures PathEntry(kind, p) in PathLines(mod) <==> mod.Some? && p != [] && PathOf(mod.value, kind) == p
  {
    if mod.Some? {
      var m := mod.value;
      var a, b := PathLine(ConfigPath, m.rnaConfPath), PathLine(LibraryPath, m.rnaUtilLibPath);
      var c, d := PathLine(FingerprintDir, m.fingerprintDir), PathLine(CustomFingerprintDir, m.customFingerprintDir);
      assert PathLines(mod) == a + b + c + d;
      assert PathEntry(kind, p) in a + b + c + d <==>
        PathEntry(kind, p) in a || PathEntry(kind, p) in b || PathEntry(kind, p) in c || PathEntry(kind, p) in d;
    }
  }

  /**
   * The six tuning lines appear, with the record's values, exactly when there is
   * a record; they follow the header and the path lines, in the record's order,
   * and only the blank line comes after them.
   */
  lemma ReportTuning(mod: Option<ModuleConfig>, cfg: Option<RnaConfig>, l: ReportLine)
    requires !l.Header? && !l.PathEntry? && !l.Blank?
    ensures l in Report(mod, cfg) <==> cfg.Some? && l in TuningLines(cfg)
    ensures var r, k := Report(mod, cfg), 1 + |PathLines(mod)|;
      if cfg.None? then |r| == k + 1
      else
        && |r| == k + 7
        && r[k] == UpdateTimeoutLine(cfg.value.updateTimeout)
        && r[k + 1] == MaxHostClientAppsLine(cfg.value.maxHostClientApps)
        && r[k + 2] == MaxPayloadsLine(cfg.value.maxPayloads)
        && r[k + 3] == MaxHostServicesLine(cfg.value.maxHostServices)
        && r[k + 4] == MaxHostServiceInfoLine(cfg.value.maxHostServiceInfo)
        && r[k + 5] == BannerGrabLine(cfg.value.enableBannerGrab)
  {
    assert l in Report(mod, cfg) <==> l in PathLines(mod) || l in TuningLines(cfg) || l == Header || l == Blank;
    assert l !in PathLines(mod);
  }

  lemma TuningLinesRanked(cfg: Option<RnaConfig>)
    ensures RankedWithin(TuningLines(cfg), 5, 11)
  {
    var t := TuningLines(cfg);
    if cfg.Some? {
      assert forall i :: 0 <= i < |t| ==> Rank(t[i]) == i + 5;
    }
  }

  lemma PathLinesRanked(mod: Option<ModuleConfig>)
    ensures RankedWithin(PathLines(mod), 1, 5)
  {
    if mod.Some? {
      var m := mod.value;
      RankedConcat(PathLine(ConfigPath, m.rnaConfPath), PathLine(LibraryPath, m.rnaUtilLibPath), 1, 2, 3);
      RankedConcat(PathLine(ConfigPath, m.rnaConfPath) + PathLine(LibraryPath, m.rnaUtilLibPath),
        PathLine(FingerprintDir, m.fingerprintDir), 1, 3, 4);
      RankedConcat(PathLine(ConfigPath, m.rnaConfPath) + PathLine(LibraryPath, m.rnaUtilLibPath) +
        PathLine(FingerprintDir, m.fingerprintDir), PathLine(CustomFingerprintDir, m.customFingerprintDir), 1, 4, 5);
    }
  }

  class RnaInspector {
    var modConf: Option<ModuleConfig>
    var rnaConf: Option<RnaConfig>

    /**
     * Takes the module's configuration and loads the directive file; when the
     * load returns false the defaults stay and one warning says so.
     */
    constructor(mod: Option<ModuleConfig>, files: FileSystem, log: MessageLog)
      modifies log`warnings
      ensures modConf == mod
      ensures rnaConf == Some(Load(mod, files).cfg)
      ensures log.warnings == old(log.warnings) + LoadWarnings(mod, files) +
        (if Load(mod, files).result == NotLoaded then [UsingDefaults] else [])
    {
      modConf := mod;
      rnaConf := None;
      new;
      var loaded := LoadRnaConf(files, log);
      if loaded == NotLoaded {
        log.Warn(UsingDefaults);
      }
    }

    /**
     * Replaces the record with the defaults and applies the directive file line
     * by line; returns what `Load` says, leaves the record `Load` computes and
     * emits its warnings.
     */
    method LoadRnaConf(files: FileSystem, log: MessageLog) returns (r: LoadResult)
      modifies this`rnaConf, log`warnings
      ensures r == Load(modConf, files).result
      ensures rnaConf == Some(Load(modConf, files).cfg)
      ensures log.warnings == old(log.warnings) + LoadWarnings(modConf, files)
    {
      rnaConf := Some(DefaultConfig);
      if modConf.None? {
        return NotLoaded;
      }
      var path := modConf.value.rnaConfPath;
      if path !in files {
        return NotLoaded;
      }
      r := ReadLines(files[path], path, log);
    }

    /**
     * The loop of `LoadRnaConf` over the lines of the opened file `path`, from
     * the default record: applies each line in turn, and stops at the first
     * value `stoi` rejects.
     */
    method ReadLines(lines: seq<string>, path: string, log: MessageLog) returns (r: LoadResult)
      requires rnaConf == Some(DefaultConfig)
      modifies this`rnaConf, log`warnings
      ensures var st := Scan(DefaultConfig, Kinds(lines));
        && r == Outcome(st)
        && rnaConf == Some(st.cfg)
        && log.warnings == old(log.warnings) + ItemWarnings(st.warnings, path)
    {
      var lineNum := 0;
      ghost var st := ScanState(DefaultConfig, [], None);
      while lineNum < |lines|
        invariant 0 <= lineNum <= |lines|
        invariant st == Scan(DefaultConfig, Kinds(lines[..lineNum]))
        invariant st.failedAt.None?
        invariant rnaConf == Some(st.cfg)
        invariant log.warnings == old(log.warnings) + ItemWarnings(st.warnings, path)
      {
        var line := lines[lineNum];
        ScanNext(lines, lineNum);
        lineNum := lineNum + 1;
        var failed := LoadLine(line, lineNum, path, log, st, old(log.warnings));
        st := Step(st, Classify(line), lineNum);
        if failed {
          ScanStopsEarly(lines, lineNum);
          return StoiFailed(lineNum);
        }
      }
      assert lines[..lineNum] == lines;
      return Loaded;
    }

    /**
     * One pass of the loop in `LoadRnaConf`, on line number `lineNum`: applies the
     * line to the record, warns when it is missing items, and reports whether its
     * value was rejected by `stoi`; `st` is the scan so far.
     */
    method LoadLine(line: string, lineNum: nat, path: string, log: MessageLog,
                    ghost st: ScanState, ghost earlier: seq<Warning>)
      returns (failed: bool)
      requires st.failedAt.None? && rnaConf == Some(st.cfg)
      requires log.warnings == earlier + ItemWarnings(st.warnings, path)
      modifies this`rnaConf, log`warnings
      ensures var next := Step(st, Classify(line), lineNum);
        && failed == next.failedAt.Some?
        && (failed ==> next.failedAt == Some(lineNum))
        && rnaConf == Some(next.cfg)
        && log.warnings == earlier + ItemWarnings(next.warnings, path)
    {
      failed := false;
      if line == [] || line[0] == '#' {
        return;
      }
      var (configType, configKey, configValue) := FirstThree(line);
      if configType == [] || configKey == [] || configValue == [] {
        log.Warn(EmptyConfigItems(lineNum, path));
        ItemWarningsSnoc(st.warnings, lineNum, path);
        return;
      }
      match NumericDirective(configType, configKey)
      case Some(field) =>
        var v := Stoi(configValue);
        if v.None? {
          return true;
        }
        rnaConf := Some(Set(rnaConf.value, field, v.value));
      case None =>
        if configType == "protoid" && configKey == "BannerGrab" && configValue != "0" {
          rnaConf := Some(rnaConf.value.(enableBannerGrab := true));
        }
    }

    /** Counts every packet except stream-rebuilt pseudo-packets. */
    method Eval(p: Packet, stats: SimpleStats)
      modifies stats
      ensures stats.totalPackets == old(stats.totalPackets) + (if IsRebuiltStream(p) then 0 else 1)
    {
      if p.packetFlags & PktRebuiltStream != 0 {
        return;
      }
      stats.totalPackets := stats.totalPackets + 1;
    }

    /** Logs the report of the current paths and record. */
    method Show(log: MessageLog)
      modifies log`messages
      ensures log.messages == old(log.messages) + Report(old(modConf), old(rnaConf))
    {
      var mod, cfg := modConf, rnaConf;
      log.Log(Header);
      ghost var afterHeader := log.messages;
      if mod.Some? {
        var m := mod.value;
        if m.rnaConfPath != [] {
          log.Log(PathEntry(ConfigPath, m.rnaConfPath));
        }
        ghost var s1 := log.messages;
        assert s1 == afterHeader + PathLine(ConfigPath, m.rnaConfPath);
        if m.rnaUtilLibPath != [] {
          log.Log(PathEntry(LibraryPath, m.rnaUtilLibPath));
        }
        ghost var s2 := log.messages;
        assert s2 == s1 + PathLine(LibraryPath, m.rnaUtilLibPath);
        if m.fingerprintDir != [] {
          log.Log(PathEntry(FingerprintDir, m.fingerprintDir));
        }
        ghost var s3 := log.messages;
        assert s3 == s2 + PathLine(FingerprintDir, m.fingerprintDir);
        if m.customFingerprintDir != [] {
          log.Log(PathEntry(CustomFingerprintDir, m.customFingerprintDir));
        }
        assert log.messages == s3 + PathLine(CustomFingerprintDir, m.customFingerprintDir);
        AppendFour(afterHeader, PathLine(ConfigPath, m.rnaConfPath), PathLine(LibraryPath, m.rnaUtilLibPath),
          PathLine(FingerprintDir, m.fingerprintDir), PathLine(CustomFingerprintDir, m.customFingerprintDir));
      }
      ghost var afterPaths := log.messages;
      assert afterPaths == afterHeader + PathLines(mod);
      if cfg.Some? {
        var c := cfg.value;
        log.Log(UpdateTimeoutLine(c.updateTimeout));
        log.Log(MaxHostClientAppsLine(c.maxHostClientApps));
        log.Log(MaxPayloadsLine(c.maxPayloads));
        log.Log(MaxHostServicesLine(c.maxHostServices));
        log.Log(MaxHostServiceInfoLine(c.maxHostServiceInfo));
        log.Log(BannerGrabLine(c.enableBannerGrab));
        AppendSix(afterPaths, UpdateTimeoutLine(c.updateTimeout), MaxHostClientAppsLine(c.maxHostClientApps),
          MaxPayloadsLine(c.maxPayloads), MaxHostServicesLine(c.maxHostServices),
          MaxHostServiceInfoLine(c.maxHostServiceInfo), BannerGrabLine(c.enableBannerGrab));
      }
      assert log.messages == afterPaths + TuningLines(cfg);
      log.Log(Blank);
      assert log.messages == old(log.messages) + [Header] + PathLines(mod) + TuningLines(cfg) + [Blank];
      AppendReport(old(log.messages), PathLines(mod), TuningLines(cfg));
    }
  }

  lemma AppendFour(s: seq<ReportLine>, a: seq<ReportLine>, b: seq<ReportLine>, c: seq<ReportLine>, d: seq<ReportLine>)
    ensures s + a + b + c + d == s + (a + b + c + d)
  {
  }

  lemma AppendSix(s: seq<ReportLine>, a: ReportLine, b: ReportLine, c: ReportLine, d: ReportLine, e: ReportLine, f: ReportLine)
    ensures s + [a] + [b] + [c] + [d] + [e] + [f] == s + [a, b, c, d, e, f]
  {
  }

  lemma AppendReport(start: seq<ReportLine>, paths: seq<ReportLine>, tuning: seq<ReportLine>)
    ensures start + [Header] + paths + tuning + [Blank] == start + ([Header] + paths + tuning + [Blank])
  {
  }

  lemma ItemWarningsSnoc(ws: seq<nat>, n: nat, path: string)
    ensures ItemWarnings(ws + [n], path) == ItemWarnings(ws, path) + [EmptyConfigItems(n, path)]
  {
    assert (ws + [n])[..|ws|] == ws;
  }
}
