/**
 * What `RnaInspector::load_rna_conf` computes, as functions of the directive
 * file's lines, and the properties of that computation.
 */
module RnaConfLoading {
  import opened Wrappers
  import opened LineTokens
  import opened StringToInt
  import opened RnaConfiguration

  /**
   * Where the file system is concerned: the lines of each file that can be
   * opened. No file has the empty path, so an unset path never opens.
   */
  type FileSystem = fs: map<string, seq<string>> | [] !in fs witness map[]

  /**
   * How the scan stands after some lines: the record so far, the 1-based numbers
   * of the lines warned about, and the line whose value `stoi` rejected, if any.
   */
  datatype ScanState = ScanState(cfg: RnaConfig, warnings: seq<nat>, failedAt: Option<nat>)

  /** The outcomes of `load_rna_conf`: `false`, `true`, or the exception `stoi` throws. */
  datatype LoadResult = NotLoaded | Loaded | StoiFailed(line: nat)

  datatype Loading = Loading(result: LoadResult, cfg: RnaConfig, warnings: seq<nat>)

  /** The branch taken on each line of a file. */
  function Kinds(lines: seq<string>): (ks: seq<LineKind>)
    ensures |ks| == |lines|
  {
    if lines == [] then [] else Kinds(lines[..|lines| - 1]) + [Classify(lines[|lines| - 1])]
  }

  /** The kind recorded for line `i` is that line's classification. */
  lemma {:induction false} KindAt(lines: seq<string>, i: nat)
    requires i < |lines|
    ensures Kinds(lines)[i] == Classify(lines[i])
  {
    if i < |lines| - 1 {
      KindAt(lines[..|lines| - 1], i);
    }
  }

  lemma AllKinds(lines: seq<string>)
    ensures forall i :: 0 <= i < |lines| ==> Kinds(lines)[i] == Classify(lines[i])
  {
    forall i | 0 <= i < |lines| ensures Kinds(lines)[i] == Classify(lines[i]) {
      KindAt(lines, i);
    }
  }

  /** A recognised numeric directive whose value `stoi` rejects. */
  predicate BadValue(k: LineKind) {
    k.Numeric? && Stoi(k.value).None?
  }

  /** A numeric directive for field `f` whose value `stoi` accepts. */
  predicate Sets(k: LineKind, f: Field) {
    k.Numeric? && k.field == f && Stoi(k.value).Some?
  }

  /** The value such a directive stores. */
  function ValueOf(k: LineKind): int
    requires k.Numeric? && Stoi(k.value).Some?
  {
    Stoi(k.value).value
  }

  predicate Increasing(s: seq<nat>) {
    forall i, j :: 0 <= i < j < |s| ==> s[i] < s[j]
  }

  /** One iteration of the loader's loop, on a line of kind `k` numbered `num`. */
  function Step(st: ScanState, k: LineKind, num: nat): ScanState {
    if st.failedAt.Some? then st
    else match k
      case Skipped => st
      case Unrecognised => st
      case MissingItems => st.(warnings := st.warnings + [num])
      case BannerGrabOn => st.(cfg := st.cfg.(enableBannerGrab := true))
      case Numeric(f, v) =>
        match Stoi(v)
        case None => st.(failedAt := Some(num))
        case Some(n) => st.(cfg := Set(st.cfg, f, n))
  }

  /** The loop run over lines of kinds `ks` from the record `init`, numbering lines from 1. */
  function Scan(init: RnaConfig, ks: seq<LineKind>): ScanState
  {
    if ks == [] then ScanState(init, [], None)
    else Step(Scan(init, ks[..|ks| - 1]), ks[|ks| - 1], |ks|)
  }

  /** `load_rna_conf` on the inspector's module configuration `mod`. */
  function Load(mod: Option<ModuleConfig>, files: FileSystem): (l: Loading)
    ensures l.result == NotLoaded <==> mod.None? || mod.value.rnaConfPath !in files
    ensures l.result == NotLoaded ==> l.cfg == DefaultConfig && l.warnings == []
    ensures mod.Some? && mod.value.rnaConfPath == [] ==> l.result == NotLoaded
  {
    if mod.None? || mod.value.rnaConfPath !in files then Loading(NotLoaded, DefaultConfig, [])
    else
      var st := Scan(DefaultConfig, Kinds(files[mod.value.rnaConfPath]));
      Loading(Outcome(st), st.cfg, st.warnings)
  }

  /** What the load returns once the file is open: true, or the line where `stoi` threw. */
  function Outcome(st: ScanState): LoadResult {
    if st.failedAt.Some? then StoiFailed(st.failedAt.value) else Loaded
  }

  /**
   * Once the file is open the load returns true however many lines were comments,
   * malformed, unknown or recognised: only a value `stoi` rejects ends it early.
   */
  lemma LoadOutcome(mod: Option<ModuleConfig>, files: FileSystem)
    requires mod.Some? && mod.value.rnaConfPath in files
    ensures var lines := files[mod.value.rnaConfPath];
      Load(mod, files).result == Loaded <==> forall i :: 0 <= i < |lines| ==> !BadValue(Classify(lines[i]))
  {
    var ks := Kinds(files[mod.value.rnaConfPath]);
    ScanFailure(DefaultConfig, ks);
    AllKinds(files[mod.value.rnaConfPath]);
  }

  /** A load that ends early ends at the first line whose value `stoi` rejects. */
  lemma LoadStopsAtFirstBadValue(mod: Option<ModuleConfig>, files: FileSystem)
    requires mod.Some? && mod.value.rnaConfPath in files
    requires Load(mod, files).result.StoiFailed?
    ensures var lines := files[mod.value.rnaConfPath];
      var n := Load(mod, files).result.line;
      1 <= n <= |lines| && BadValue(Classify(lines[n - 1])) &&
      forall i :: 0 <= i < n - 1 ==> !BadValue(Classify(lines[i]))
  {
    var lines := files[mod.value.rnaConfPath];
    var ks := Kinds(lines);
    ScanFailure(DefaultConfig, ks);
    var n := Scan(DefaultConfig, ks).failedAt.value;
    KindAt(lines, n - 1);
    forall i | 0 <= i < n - 1
      ensures !BadValue(Classify(lines[i]))
    {
      KindAt(lines, i);
    }
  }

  /** What one step does to each part of the state. */
  lemma StepEffect(st: ScanState, k: LineKind, num: nat)
    ensures var st' := Step(st, k, num);
      && st'.failedAt == (if st.failedAt.Some? then st.failedAt else if BadValue(k) then Some(num) else None)
      && st'.warnings == (if st.failedAt.None? && k == MissingItems then st.warnings + [num] else st.warnings)
      && st'.cfg.enableBannerGrab == (st.cfg.enableBannerGrab || (st.failedAt.None? && k == BannerGrabOn))
      && forall f :: Get(st'.cfg, f) == (if st.failedAt.None? && Sets(k, f) then ValueOf(k) else Get(st.cfg, f))
  {
  }

  /**
   * A line that is not a comment but has fewer than three items draws exactly
   * one warning, tagged with its number, and leaves the record as it was.
   */
  lemma ShortLineWarnsOnce(st: ScanState, line: string, num: nat)
    requires st.failedAt.None? && !IsComment(line) && |Words(line)| < 3
    ensures Step(st, Classify(line), num) == st.(warnings := st.warnings + [num])
  {
    ClassifyByWords(line);
  }

  /**
   * A line of three or more items whose first two name neither a numeric
   * directive nor `protoid BannerGrab` changes nothing and draws no warning.
   */
  lemma UnknownPairChangesNothing(st: ScanState, line: string, num: nat)
    requires !IsComment(line) && |Words(line)| >= 3
    requires NumericDirective(Words(line)[0], Words(line)[1]) == None
    requires Words(line)[0] != "protoid" || Words(line)[1] != "BannerGrab"
    ensures Step(st, Classify(line), num) == st
  {
    ClassifyByWords(line);
  }

  /**
   * The scan stops only at a value `stoi` rejects: it reaches the end exactly when
   * no line holds one, and otherwise it stops at the first such line.
   */
  lemma {:induction false} ScanFailure(init: RnaConfig, ks: seq<LineKind>)
    ensures Scan(init, ks).failedAt.None? <==> forall i :: 0 <= i < |ks| ==> !BadValue(ks[i])
    ensures Scan(init, ks).failedAt.Some? ==>
      var n := Scan(init, ks).failedAt.value;
      1 <= n <= |ks| && BadValue(ks[n - 1]) && forall i :: 0 <= i < n - 1 ==> !BadValue(ks[i])
  {
    if ks != [] {
      var prefix := ks[..|ks| - 1];
      var st := Scan(init, prefix);
      ScanFailure(init, prefix);
      StepEffect(st, ks[|ks| - 1], |ks|);
      assert forall i :: 0 <= i < |prefix| ==> prefix[i] == ks[i];
    }
  }

  /** Once the scan has stopped, further lines change nothing. */
  lemma {:induction false} ScanStopped(init: RnaConfig, ks: seq<LineKind>, n: nat)
    requires n <= |ks|
    requires Scan(init, ks[..n]).failedAt.Some?
    ensures Scan(init, ks) == Scan(init, ks[..n])
    decreases |ks| - n
  {
    if n < |ks| {
      assert ks[..n + 1][..n] == ks[..n];
      ScanStopped(init, ks, n + 1);
    } else {
      assert ks[..n] == ks;
    }
  }

  /**
   * Warnings: a completed scan warns once for each line that is missing items,
   * tagged with its 1-based number (comments and empty lines are counted too),
   * in line order.
   */
  lemma ScanWarnings(init: RnaConfig, ks: seq<LineKind>)
    requires Scan(init, ks).failedAt.None?
    ensures var ws := Scan(init, ks).warnings;
      Increasing(ws) &&
      (forall n :: n in ws ==> 1 <= n <= |ks| && ks[n - 1] == MissingItems) &&
      (forall n :: 1 <= n <= |ks| && ks[n - 1] == MissingItems ==> n in ws)
  {
    ScanWarningsSound(init, ks);
    ScanWarningsOrdered(init, ks);
    ScanWarningsComplete(init, ks);
  }

  /** Every warning names a line, counted from 1, that is missing items. */
  lemma {:induction false} ScanWarningsSound(init: RnaConfig, ks: seq<LineKind>)
    ensures forall n :: n in Scan(init, ks).warnings ==> 1 <= n <= |ks| && ks[n - 1] == MissingItems
  {
    if ks != [] {
      var prefix := ks[..|ks| - 1];
      var st := Scan(init, prefix);
      StepEffect(st, ks[|ks| - 1], |ks|);
      ScanWarningsSound(init, prefix);
      assert forall i :: 0 <= i < |prefix| ==> prefix[i] == ks[i];
    }
  }

  /** Warnings come in line order. */
  lemma {:induction false} ScanWarningsOrdered(init: RnaConfig, ks: seq<LineKind>)
    ensures Increasing(Scan(init, ks).warnings)
  {
    if ks != [] {
      var prefix := ks[..|ks| - 1];
      var st := Scan(init, prefix);
      StepEffect(st, ks[|ks| - 1], |ks|);
      ScanWarningsOrdered(init, prefix);
      ScanWarningsSound(init, prefix);
      assert forall i :: 0 <= i < |st.warnings| ==> st.warnings[i] in st.warnings;
    }
  }

  /** In a completed scan every line that is missing items is warned about. */
  lemma {:induction false} ScanWarningsComplete(init: RnaConfig, ks: seq<LineKind>)
    requires Scan(init, ks).failedAt.None?
    ensures forall n :: 1 <= n <= |ks| && ks[n - 1] == MissingItems ==> n in Scan(init, ks).warnings
  {
    if ks != [] {
      var prefix := ks[..|ks| - 1];
      var st := Scan(init, prefix);
      StepEffect(st, ks[|ks| - 1], |ks|);
      ScanWarningsComplete(init, prefix);
      assert forall i :: 0 <= i < |prefix| ==> prefix[i] == ks[i];
    }
  }

  /** A field no line sets keeps its initial value. */
  lemma {:induction false} ScanFieldUnset(init: RnaConfig, ks: seq<LineKind>, f: Field)
    requires forall i :: 0 <= i < |ks| ==> !Sets(ks[i], f)
    ensures Get(Scan(init, ks).cfg, f) == Get(init, f)
  {
    if ks != [] {
      var prefix := ks[..|ks| - 1];
      StepEffect(Scan(init, prefix), ks[|ks| - 1], |ks|);
      ScanFieldUnset(init, prefix, f);
    }
  }

  /**
   * Last directive wins: in a completed scan a field holds the value of the last
   * line that sets it, whatever other lines come after.
   */
  lemma {:induction false} ScanFieldLastWins(init: RnaConfig, ks: seq<LineKind>, f: Field, i: nat)
    requires Scan(init, ks).failedAt.None?
    requires i < |ks| && Sets(ks[i], f)
    requires forall j :: i < j < |ks| ==> !Sets(ks[j], f)
    ensures Get(Scan(init, ks).cfg, f) == ValueOf(ks[i])
  {
    var prefix := ks[..|ks| - 1];
    StepEffect(Scan(init, prefix), ks[|ks| - 1], |ks|);
    if i < |ks| - 1 {
      ScanFieldLastWins(init, prefix, f, i);
    }
  }

  /**
   * BannerGrab is never switched back off: once the lines read so far have
   * turned it on, it stays on whatever lines follow, whether or not `stoi`
   * stops the scan later.
   */
  lemma {:induction false} BannerGrabNeverReset(init: RnaConfig, ks: seq<LineKind>, n: nat)
    requires n <= |ks|
    requires Scan(init, ks[..n]).cfg.enableBannerGrab
    ensures Scan(init, ks).cfg.enableBannerGrab
    decreases |ks| - n
  {
    if n < |ks| {
      assert ks[..n + 1][..n] == ks[..n];
      StepEffect(Scan(init, ks[..n]), ks[n], n + 1);
      BannerGrabNeverReset(init, ks, n + 1);
    } else {
      assert ks[..n] == ks;
    }
  }

  /**
   * After a completed scan banner grabbing is on exactly when it was on before or
   * some line is `protoid BannerGrab v` with `v` other than the string "0"; a later
   * `protoid BannerGrab 0` does not undo it.
   */
  lemma {:induction false} ScanBannerGrab(init: RnaConfig, ks: seq<LineKind>)
    requires Scan(init, ks).failedAt.None?
    ensures Scan(init, ks).cfg.enableBannerGrab <==>
      init.enableBannerGrab || exists i :: 0 <= i < |ks| && ks[i] == BannerGrabOn
  {
    if ks != [] {
      var prefix := ks[..|ks| - 1];
      var st := Scan(init, prefix);
      StepEffect(st, ks[|ks| - 1], |ks|);
      assert st.failedAt.None?;
      ScanBannerGrab(init, prefix);
      assert forall i :: 0 <= i < |prefix| ==> prefix[i] == ks[i];
    }
  }

  /** Reading one more line is one more step of the scan. */
  lemma ScanNext(lines: seq<string>, n: nat)
    requires n < |lines|
    ensures Scan(DefaultConfig, Kinds(lines[..n + 1])) ==
      Step(Scan(DefaultConfig, Kinds(lines[..n])), Classify(lines[n]), n + 1)
  {
    assert lines[..n + 1][..n] == lines[..n];
  }

  /** A scan stopped after the first `n` lines is the scan of the whole file. */
  lemma ScanStopsEarly(lines: seq<string>, n: nat)
    requires n <= |lines|
    requires Scan(DefaultConfig, Kinds(lines[..n])).failedAt.Some?
    ensures Scan(DefaultConfig, Kinds(lines)) == Scan(DefaultConfig, Kinds(lines[..n]))
  {
    KindsPrefix(lines, n);
    ScanStopped(DefaultConfig, Kinds(lines), n);
  }

  lemma {:induction false} KindsPrefix(lines: seq<string>, n: nat)
    requires n <= |lines|
    ensures Kinds(lines[..n]) == Kinds(lines)[..n]
    decreases |lines|
  {
    if n < |lines| {
      var init := lines[..|lines| - 1];
      assert init[..n] == lines[..n];
      KindsPrefix(init, n);
    } else {
      assert lines[..n] == lines;
    }
  }
}
