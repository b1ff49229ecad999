/**
 * The RNA tuning record (`RnaConfig`), the module-level paths (`RnaModuleConfig`)
 * and what one line of the directive file means.
 */
module RnaConfiguration {
  import opened Wrappers
  import opened LineTokens

  /** The tuning parameters the directive file can set. */
  datatype RnaConfig = RnaConfig(
    updateTimeout: int,
    maxHostClientApps: int,
    maxPayloads: int,
    maxHostServices: int,
    maxHostServiceInfo: int,
    enableBannerGrab: bool)

  /** The record `new RnaConfig` yields: the member initialisers of `RnaConfig`. */
  const DefaultConfig := RnaConfig(3600, 16, 100, 100, 16, false)

  /** The four paths the host's configuration supplies; empty means unset. */
  datatype ModuleConfig = ModuleConfig(
    rnaConfPath: string,
    rnaUtilLibPath: string,
    fingerprintDir: string,
    customFingerprintDir: string)

  /** The numeric fields of RnaConfig, one per numeric directive. */
  datatype Field = UpdateTimeout | MaxHostClientApps | MaxPayloads | MaxHostServices | MaxHostServiceInfo

  function Get(c: RnaConfig, f: Field): int {
    match f
    case UpdateTimeout => c.updateTimeout
    case MaxHostClientApps => c.maxHostClientApps
    case MaxPayloads => c.maxPayloads
    case MaxHostServices => c.maxHostServices
    case MaxHostServiceInfo => c.maxHostServiceInfo
  }

  /** Overwrites field `f` of `c` with `v` and nothing else. */
  function Set(c: RnaConfig, f: Field, v: int): (r: RnaConfig)
    ensures Get(r, f) == v
    ensures forall g :: g != f ==> Get(r, g) == Get(c, g)
    ensures r.enableBannerGrab == c.enableBannerGrab
  {
    match f
    case UpdateTimeout => c.(updateTimeout := v)
    case MaxHostClientApps => c.(maxHostClientApps := v)
    case MaxPayloads => c.(maxPayloads := v)
    case MaxHostServices => c.(maxHostServices := v)
    case MaxHostServiceInfo => c.(maxHostServiceInfo := v)
  }

  /** The (type, key) pairs whose value is converted with `stoi` and stored. */
  function NumericDirective(configType: string, configKey: string): Option<Field> {
    if configType == "pnd" && configKey == "UpdateTimeout" then Some(UpdateTimeout)
    else if configType == "config" && configKey == "MaxHostClientApps" then Some(MaxHostClientApps)
    else if configType == "config" && configKey == "MaxPayloads" then Some(MaxPayloads)
    else if configType == "config" && configKey == "MaxHostServices" then Some(MaxHostServices)
    else if configType == "config" && configKey == "MaxHostServiceInfo" then Some(MaxHostServiceInfo)
    else None
  }

  /** The (type, key) pair that names the directive for field `f`. */
  function DirectiveFor(f: Field): (string, string) {
    match f
    case UpdateTimeout => ("pnd", "UpdateTimeout")
    case MaxHostClientApps => ("config", "MaxHostClientApps")
    case MaxPayloads => ("config", "MaxPayloads")
    case MaxHostServices => ("config", "MaxHostServices")
    case MaxHostServiceInfo => ("config", "MaxHostServiceInfo")
  }

  /**
   * The directive table is one-to-one: the pair named for a field is recognised
   * as that field, and every recognised pair is the one named for its field.
   */
  lemma DirectiveTableInverse(f: Field, configType: string, configKey: string)
    ensures NumericDirective(DirectiveFor(f).0, DirectiveFor(f).1) == Some(f)
    ensures NumericDirective(configType, configKey) == Some(f) <==> DirectiveFor(f) == (configType, configKey)
  {
    assert |"pnd"| == 3 && |"config"| == 6;
    assert |"UpdateTimeout"| == 13 && |"MaxHostClientApps"| == 17 && |"MaxPayloads"| == 11;
    assert |"MaxHostServices"| == 15 && |"MaxHostServiceInfo"| == 18;
  }

  /** What one line of the directive file asks for. */
  datatype LineKind =
    | Skipped                               // empty, or a comment
    | MissingItems                          // a type, key or value is missing: one warning
    | Numeric(field: Field, value: string)  // stored with stoi
    | BannerGrabOn                          // `protoid BannerGrab v` with v other than "0"
    | Unrecognised                          // any other (type, key) pair, or `protoid BannerGrab 0`

  predicate IsComment(line: string) {
    line == [] || line[0] == '#'
  }

  /**
   * The branch the loader takes on `line`. Comment detection looks at the first
   * character only, and only the first three items of the line are read.
   */
  function Classify(line: string): LineKind
  {
    if IsComment(line) then Skipped
    else
      var (configType, configKey, configValue) := FirstThree(line);
      if configType == [] || configKey == [] || configValue == [] then MissingItems
      else match NumericDirective(configType, configKey)
        case Some(f) => Numeric(f, configValue)
        case None =>
          if configType == "protoid" && configKey == "BannerGrab" && configValue != "0" then BannerGrabOn
          else Unrecognised
  }

  /**
   * The same branch, stated on the words of the line: comments are skipped, a line
   * with fewer than three words is missing items, and otherwise the first two
   * words pick the directive and the third is its value; a fourth word and any
   * after it play no part.
   */
  lemma ClassifyByWords(line: string)
    ensures Classify(line) == Skipped <==> IsComment(line)
    ensures Classify(line) == MissingItems <==> !IsComment(line) && |Words(line)| < 3
    ensures !IsComment(line) && |Words(line)| >= 3 ==>
      var ws := Words(line);
      match NumericDirective(ws[0], ws[1])
      case Some(f) => Classify(line) == Numeric(f, ws[2])
      case None =>
        Classify(line) ==
          if ws[0] == "protoid" && ws[1] == "BannerGrab" && ws[2] != "0" then BannerGrabOn else Unrecognised
  {
    FirstThreeAreWords(line);
  }

  /**
   * Items after the third are never read: a line with more items is classified
   * exactly as its first three items alone, so it draws no warning.
   */
  lemma ExtraItemsIgnored(t: string, k: string, v: string, rest: string)
    requires t != [] && SpaceFree(t) && k != [] && SpaceFree(k) && v != [] && SpaceFree(v)
    ensures Classify(t + " " + k + " " + v + " " + rest) == Classify(t + " " + k + " " + v)
  {
    var long := t + " " + k + " " + v + " " + rest;
    var short := t + " " + k + " " + v;
    WordsOfThreeAndMore(t, k, v, rest);
    ThreeItems(t, k, v);
    assert long[0] == t[0] && short[0] == t[0];
    ClassifyByWords(long);
    ClassifyByWords(short);
  }

  /** A non-empty line of whitespace only is not a comment: it draws a warning. */
  lemma BlankLineWarns(line: string)
    requires line != [] && forall i :: 0 <= i < |line| ==> IsSpace(line[i])
    ensures Classify(line) == MissingItems
  {
    WordsAfterSpaces(line, []);
    assert line + [] == line;
    ClassifyByWords(line);
  }

  /**
   * Only the first character marks a comment: a '#' after leading whitespace
   * makes "#..." the type item, which no directive has, so the line is either
   * missing items or unrecognised.
   */
  lemma IndentedHashIsNotComment(sp: string, rest: string)
    requires sp != [] && forall i :: 0 <= i < |sp| ==> IsSpace(sp[i])
    ensures Classify(sp + "#" + rest) ==
      if |Words("#" + rest)| < 3 then MissingItems else Unrecognised
  {
    var line := sp + "#" + rest;
    assert line == sp + ("#" + rest);
    WordsAfterSpaces(sp, "#" + rest);
    FirstWordStart("#" + rest);
    ClassifyByWords(line);
  }

  /**
   * `protoid BannerGrab v` switches banner grabbing on for every value other
   * than "0"; with "0" it is an unrecognised line that changes nothing.
   */
  lemma BannerGrabDirective(v: string)
    requires v != [] && SpaceFree(v)
    ensures Classify("protoid BannerGrab " + v) == if v != "0" then BannerGrabOn else Unrecognised
  {
    var line := "protoid BannerGrab " + v;
    assert line == "protoid" + " " + "BannerGrab" + " " + v;
    BannerGrabWords();
    ThreeItems("protoid", "BannerGrab", v);
  }

  /** `protoid BannerGrab` is two well-formed items that name no numeric directive. */
  lemma BannerGrabWords()
    ensures "protoid" != [] && SpaceFree("protoid") && "protoid"[0] != '#'
    ensures "BannerGrab" != [] && SpaceFree("BannerGrab")
    ensures NumericDirective("protoid", "BannerGrab") == None
  {
    assert |"protoid"| == 7 && |"pnd"| == 3 && |"config"| == 6;
  }

  /** The (type, key) pair of every numeric directive is two well-formed items. */
  lemma DirectiveWords(f: Field)
    ensures var (configType, configKey) := DirectiveFor(f);
      configType != [] && SpaceFree(configType) && configType[0] != '#' &&
      configKey != [] && SpaceFree(configKey)
  {
    match f
    case UpdateTimeout =>
    case MaxHostClientApps =>
    case MaxPayloads =>
    case MaxHostServices =>
    case MaxHostServiceInfo =>
  }

  /** A line whose first two items name a numeric directive is that directive, carrying its third item. */
  lemma NumericItems(configType: string, configKey: string, configValue: string, f: Field)
    requires configValue != [] && SpaceFree(configValue)
    requires NumericDirective(configType, configKey) == Some(f)
    ensures Classify(configType + " " + configKey + " " + configValue) == Numeric(f, configValue)
  {
    DirectiveTableInverse(f, configType, configKey);
    DirectiveWords(f);
    ThreeItems(configType, configKey, configValue);
  }
}
