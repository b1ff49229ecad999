/**
 * What `Load` computes on whole directive files: one value for every numeric
 * directive read back, and a short file mixing every kind of line.
 */
module RnaConfScenarios {
  import opened Wrappers
  import opened LineTokens
  import opened StringToInt
  import opened RnaConfiguration
  import opened RnaConfLoading

  /** The directive line for field `f` with value `n` in decimal. */
  function DirectiveLine(f: Field, n: nat): string {
    DirectiveFor(f).0 + " " + DirectiveFor(f).1 + " " + Decimal(n)
  }

  /** A numeric directive line with a value in range is recognised and stores that value. */
  lemma NumericLine(f: Field, n: nat)
    requires n <= IntMax
    ensures Sets(Classify(DirectiveLine(f, n)), f)
    ensures ValueOf(Classify(DirectiveLine(f, n))) == n
  {
    var (configType, configKey) := DirectiveFor(f);
    var d := Decimal(n);
    DirectiveTableInverse(f, configType, configKey);
    NumericItems(configType, configKey, d, f);
    StoiOfDecimal(n, []);
    assert d + [] == d;
  }

  /** A completed scan over lines none of which is missing items warns about nothing. */
  lemma NoWarnings(init: RnaConfig, ks: seq<LineKind>)
    requires Scan(init, ks).failedAt.None?
    requires forall i :: 0 <= i < |ks| ==> ks[i] != MissingItems
    ensures Scan(init, ks).warnings == []
  {
    ScanWarnings(init, ks);
  }

  /**
   * A file that sets each numeric field once, with values in range, loads
   * without warnings into exactly those values; banner grabbing keeps its default.
   */
  lemma AllDirectivesRoundTrip(mod: ModuleConfig, files: FileSystem, a: nat, b: nat, c: nat, d: nat, e: nat)
    requires a <= IntMax && b <= IntMax && c <= IntMax && d <= IntMax && e <= IntMax
    requires mod.rnaConfPath in files
    requires var lines := files[mod.rnaConfPath];
      && |lines| == 5
      && lines[0] == DirectiveLine(UpdateTimeout, a)
      && lines[1] == DirectiveLine(MaxHostClientApps, b)
      && lines[2] == DirectiveLine(MaxPayloads, c)
      && lines[3] == DirectiveLine(MaxHostServices, d)
      && lines[4] == DirectiveLine(MaxHostServiceInfo, e)
    ensures Load(Some(mod), files) == Loading(Loaded, RnaConfig(a, b, c, d, e, DefaultConfig.enableBannerGrab), [])
  {
    var lines := files[mod.rnaConfPath];
    var ks := Kinds(lines);
    assert Sets(ks[0], UpdateTimeout) && ValueOf(ks[0]) == a by {
      KindAt(lines, 0);
      NumericLine(UpdateTimeout, a);
    }
    assert Sets(ks[1], MaxHostClientApps) && ValueOf(ks[1]) == b by {
      KindAt(lines, 1);
      NumericLine(MaxHostClientApps, b);
    }
    assert Sets(ks[2], MaxPayloads) && ValueOf(ks[2]) == c by {
      KindAt(lines, 2);
      NumericLine(MaxPayloads, c);
    }
    assert Sets(ks[3], MaxHostServices) && ValueOf(ks[3]) == d by {
      KindAt(lines, 3);
      NumericLine(MaxHostServices, d);
    }
    assert Sets(ks[4], MaxHostServiceInfo) && ValueOf(ks[4]) == e by {
      KindAt(lines, 4);
      NumericLine(MaxHostServiceInfo, e);
    }
    RoundTripScan(ks, a, b, c, d, e);
  }

  /** The scan half of AllDirectivesRoundTrip, on the kinds of the five lines. */
  lemma RoundTripScan(ks: seq<LineKind>, a: int, b: int, c: int, d: int, e: int)
    requires |ks| == 5
    requires Sets(ks[0], UpdateTimeout) && ValueOf(ks[0]) == a
    requires Sets(ks[1], MaxHostClientApps) && ValueOf(ks[1]) == b
    requires Sets(ks[2], MaxPayloads) && ValueOf(ks[2]) == c
    requires Sets(ks[3], MaxHostServices) && ValueOf(ks[3]) == d
    requires Sets(ks[4], MaxHostServiceInfo) && ValueOf(ks[4]) == e
    ensures Scan(DefaultConfig, ks) == ScanState(RnaConfig(a, b, c, d, e, DefaultConfig.enableBannerGrab), [], None)
  {
    var s0 := ScanState(DefaultConfig, [], None);
    assert Scan(DefaultConfig, ks[..0]) == s0;
    var s1 := s0.(cfg := s0.cfg.(updateTimeout := a));
    assert Scan(DefaultConfig, ks[..1]) == s1 by { assert ks[..1][..0] == ks[..0]; StepEffect(s0, ks[0], 1); }
    var s2 := s1.(cfg := s1.cfg.(maxHostClientApps := b));
    assert Scan(DefaultConfig, ks[..2]) == s2 by { assert ks[..2][..1] == ks[..1]; StepEffect(s1, ks[1], 2); }
    var s3 := s2.(cfg := s2.cfg.(maxPayloads := c));
    assert Scan(DefaultConfig, ks[..3]) == s3 by { assert ks[..3][..2] == ks[..2]; StepEffect(s2, ks[2], 3); }
    var s4 := s3.(cfg := s3.cfg.(maxHostServices := d));
    assert Scan(DefaultConfig, ks[..4]) == s4 by { assert ks[..4][..3] == ks[..3]; StepEffect(s3, ks[3], 4); }
    assert ks[..4] == ks[..|ks| - 1];
    StepEffect(s4, ks[4], 5);
  }

  /**
   * A file mixing every kind of line: a comment, two numeric directives, a
   * `protoid BannerGrab v` with v other than "0" and a four-item line whose first
   * two items name no directive. The two fields change, banner grabbing turns
   * on and no line is warned about.
   */
  lemma MixedFile(mod: ModuleConfig, files: FileSystem, comment: string, a: nat, c: nat, v: string,
                  t: string, k: string, x: string, rest: string)
    requires a <= IntMax && c <= IntMax
    requires v != [] && SpaceFree(v) && v != "0"
    requires t != [] && SpaceFree(t) && k != [] && SpaceFree(k) && x != [] && SpaceFree(x)
    requires t[0] != '#' && NumericDirective(t, k) == None && t != "protoid"
    requires mod.rnaConfPath in files
    requires var lines := files[mod.rnaConfPath];
      && |lines| == 5
      && lines[0] == "#" + comment
      && lines[1] == DirectiveLine(UpdateTimeout, a)
      && lines[2] == DirectiveLine(MaxPayloads, c)
      && lines[3] == "protoid BannerGrab " + v
      && lines[4] == t + " " + k + " " + x + " " + rest
    ensures Load(Some(mod), files) ==
      Loading(Loaded, DefaultConfig.(updateTimeout := a, maxPayloads := c, enableBannerGrab := true), [])
  {
    var lines := files[mod.rnaConfPath];
    var ks := Kinds(lines);
    assert ks[0] == Skipped by { KindAt(lines, 0); }
    assert Sets(ks[1], UpdateTimeout) && ValueOf(ks[1]) == a by {
      KindAt(lines, 1);
      NumericLine(UpdateTimeout, a);
    }
    assert Sets(ks[2], MaxPayloads) && ValueOf(ks[2]) == c by {
      KindAt(lines, 2);
      NumericLine(MaxPayloads, c);
    }
    assert ks[3] == BannerGrabOn by {
      KindAt(lines, 3);
      BannerGrabDirective(v);
    }
    assert ks[4] == Unrecognised by {
      KindAt(lines, 4);
      ExtraItemsIgnored(t, k, x, rest);
      ThreeItems(t, k, x);
      ClassifyByWords(t + " " + k + " " + x);
    }
    MixedScan(ks, a, c);
  }

  /** The scan half of MixedFile, on the kinds of its five lines. */
  lemma MixedScan(ks: seq<LineKind>, a: int, c: int)
    requires |ks| == 5 && ks[0] == Skipped && ks[3] == BannerGrabOn && ks[4] == Unrecognised
    requires Sets(ks[1], UpdateTimeout) && ValueOf(ks[1]) == a
    requires Sets(ks[2], MaxPayloads) && ValueOf(ks[2]) == c
    ensures Scan(DefaultConfig, ks) ==
      ScanState(DefaultConfig.(updateTimeout := a, maxPayloads := c, enableBannerGrab := true), [], None)
  {
    var s1 := ScanState(DefaultConfig, [], None);
    assert Scan(DefaultConfig, ks[..1]) == s1 by { assert ks[..1][..0] == []; }
    var s2 := s1.(cfg := s1.cfg.(updateTimeout := a));
    assert Scan(DefaultConfig, ks[..2]) == s2 by { assert ks[..2][..1] == ks[..1]; StepEffect(s1, ks[1], 2); }
    var s3 := s2.(cfg := s2.cfg.(maxPayloads := c));
    assert Scan(DefaultConfig, ks[..3]) == s3 by { assert ks[..3][..2] == ks[..2]; StepEffect(s2, ks[2], 3); }
    var s4 := s3.(cfg := s3.cfg.(enableBannerGrab := true));
    assert Scan(DefaultConfig, ks[..4]) == s4 by { assert ks[..4][..3] == ks[..3]; }
    assert ks[..4] == ks[..|ks| - 1];
  }
}
