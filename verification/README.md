# RNA inspector: configuration loading, packet counting and the `show` report

This project is a Dafny model of the core of snort3's RNA (Real-time Network
Awareness) inspector, `RnaInspector` in
`src/network_inspectors/rna/rna_inspector.cc`. The inspector is built from
the module's configuration, which holds four paths. While it is built it
reads a directive file of `type key value` lines into its tuning record
(`RnaConfig`). After that it counts every packet except stream-rebuilt
pseudo-packets, and its `show` hook logs the paths and the tuning record.

The model has six modules:

- `LineTokens` gives `std::istringstream >> std::string` on a line. It also has an
  independent, character-by-character definition of the words of a line, and
  proves that the three items the loader reads are the first three words.
- `StringToInt` gives `std::stoi` on a whitespace-free item, which is what every
  `config_value` extracted with `>>` is: an optional sign and the longest run of
  digits after it. When there is no digit, or the value lies outside the 32-bit
  `int` range, the call throws; that outcome is `None`. The leading whitespace
  `std::stoi` would skip never occurs in such an item, so it is not modelled.
- `RnaConfiguration` holds the tuning record and its defaults, the table of the five numeric
  directives, and `Classify`, the branch the loader takes on one line.
- `RnaConfLoading` is `load_rna_conf` as pure functions: `Scan` is the loop, step by step,
  and `Load` is the whole call. Its lemmas cover the outcome, the warnings,
  the last-directive-wins rule and the banner-grab flag.
- `RnaConfScenarios` states what `Load` computes on whole directive files.
- `Inspector` has `class RnaInspector` with the fields `mod_conf` and `rna_conf`.
  - Its constructor, `LoadRnaConf` (whose `while` loop, `ReadLines`, is
    proved against `Scan`), `Eval` and `Show` change these fields, a `MessageLog` (the warnings and log
    messages, in call order) and a `SimpleStats` counter in place.
  - `Report` specifies what `Show` logs.

The directive file is a map from paths to their lines (`FileSystem`). A path
missing from the map is a file that cannot be opened. The empty path is never
in the map, because `ifstream` cannot open it.

The loader reads exactly three items from a line with `>>` and never looks at
the rest. A line with four or more items is therefore handled as its first
three items, and it draws no warning (`RnaConfiguration.ExtraItemsIgnored`).

## Model

| member | source | states |
|---|---|---|
| `Inspector.RnaInspector.constructor` | src/network_inspectors/rna/rna_inspector.cc:51-56 | Keeps the module configuration. The record is never absent afterwards: it is what `Load` computes. The load's warnings are logged, followed by one "using defaults" warning exactly when the load returned false. |
| `Inspector.RnaInspector.LoadRnaConf` | src/network_inspectors/rna/rna_inspector.cc:114-166 | The result, the record left behind and the warnings logged are exactly `Load`'s. |
| `Inspector.RnaInspector.ReadLines` | src/network_inspectors/rna/rna_inspector.cc:127-165 | The loop over an opened file returns true, or the line where `stoi` threw. It leaves the record and logs the warnings of `Scan` over the whole file. The loop invariant is that after `n` lines the record and warnings are those of `Scan` over the first `n` lines. |
| `Inspector.RnaInspector.LoadLine` | src/network_inspectors/rna/rna_inspector.cc:131-161 | One pass of the loop is one `Step` of the scan. It reports a `stoi` failure exactly when the step stops the scan, leaves the step's record and appends the step's warnings. |
| `Inspector.RnaInspector.Eval` | src/network_inspectors/rna/rna_inspector.cc:64-72 | The packet counter is unchanged for a packet with the rebuilt-stream flag and goes up by exactly one otherwise. |
| `Inspector.RnaInspector.Show` | src/network_inspectors/rna/rna_inspector.cc:74-102 | Appends exactly `Report` of the current paths and record to the log. |
| `Inspector.Report` | src/network_inspectors/rna/rna_inspector.cc:74-102 | Everything `show` logs: the header, the path lines, the tuning lines and a blank line. Its properties are stated by `ReportOrder`, `ReportPaths` and `ReportTuning`. |
| `Inspector.ReportOrder` | src/network_inspectors/rna/rna_inspector.cc:74-102 | The report starts with the header and ends with a blank line. Every kind of line appears at most once, always in the same order. |
| `Inspector.ReportPaths` | src/network_inspectors/rna/rna_inspector.cc:78-89 | A path line appears if and only if there is a module configuration and that path is non-empty. It carries the path itself. |
| `Inspector.ReportTuning` | src/network_inspectors/rna/rna_inspector.cc:91-99 | A tuning line appears if and only if a record is present. The six tuning lines then come right after the header and the path lines, carrying the record's six values in the order of :93-98, and only the blank line follows them. |
| `Inspector.ItemWarnings` | src/network_inspectors/rna/rna_inspector.cc:145-146 | Gives one "empty configuration items" warning per line number, in order. Each warning quotes that number and the path. |
| `Inspector.LoadWarningsLines` | src/network_inspectors/rna/rna_inspector.cc:133-147 | After a load that reads the whole file, the warnings are one per line missing items, in line order, and no others. Line numbers count comments and empty lines too. |
| `RnaConfLoading.Load` | src/network_inspectors/rna/rna_inspector.cc:114-125 | The load returns false if and only if there is no module configuration or the file cannot be opened; an empty path is always such a case. It then leaves the defaults and warns about nothing. |
| `RnaConfLoading.Step` | src/network_inspectors/rna/rna_inspector.cc:131-161 | One pass of the loop, on a classified line. What it does to each part of the state is stated by `StepEffect`. |
| `RnaConfLoading.Scan` | src/network_inspectors/rna/rna_inspector.cc:129-162 | The loop over the first lines of a file, numbering lines from 1. Its properties are stated by `ScanFailure`, `ScanStopped`, the `ScanWarnings` lemmas, `ScanFieldUnset`, `ScanFieldLastWins`, `BannerGrabNeverReset` and `ScanBannerGrab`. |
| `RnaConfLoading.LoadOutcome` | src/network_inspectors/rna/rna_inspector.cc:129-165 | Once the file is open, the load returns true if and only if no line holds a numeric directive whose value `stoi` rejects. Where the scan ends otherwise is stated by `LoadStopsAtFirstBadValue`, `ScanFailure` and `ScanStopped`. |
| `RnaConfLoading.LoadStopsAtFirstBadValue` | src/network_inspectors/rna/rna_inspector.cc:150-159 | A load that `stoi` aborts stops at the first line with a rejected value. That line is the one it reports. |
| `RnaConfLoading.StepEffect` | src/network_inspectors/rna/rna_inspector.cc:133-161 | States what one line does to the failure mark, the warnings, the banner flag and each numeric field. |
| `RnaConfLoading.ShortLineWarnsOnce` | src/network_inspectors/rna/rna_inspector.cc:143-147 | A non-comment line with fewer than three items adds exactly one warning, with its number, and changes nothing else. |
| `RnaConfLoading.UnknownPairChangesNothing` | src/network_inspectors/rna/rna_inspector.cc:150-161 | A line whose first two items name no directive changes nothing and draws no warning. |
| `RnaConfLoading.ScanFailure` | src/network_inspectors/rna/rna_inspector.cc:129-162 | The scan reaches the end if and only if no line has a rejected value. Otherwise it stops at the first such line. |
| `RnaConfLoading.ScanStopped` | src/network_inspectors/rna/rna_inspector.cc:150-159 | Once `stoi` has failed, later lines change nothing. |
| `RnaConfLoading.ScanWarnings` | src/network_inspectors/rna/rna_inspector.cc:133-147 | In a completed scan, the warnings are the 1-based numbers of exactly the lines missing items, in increasing order. |
| `RnaConfLoading.ScanWarningsSound` | src/network_inspectors/rna/rna_inspector.cc:143-147 | Every warning names a line, counted from 1, that is missing items. |
| `RnaConfLoading.ScanWarningsOrdered` | src/network_inspectors/rna/rna_inspector.cc:133-147 | Warnings are issued in strictly increasing line order. |
| `RnaConfLoading.ScanWarningsComplete` | src/network_inspectors/rna/rna_inspector.cc:143-147 | In a completed scan, every line missing items is warned about. |
| `RnaConfLoading.ScanFieldUnset` | src/network_inspectors/rna/rna_inspector.cc:150-159 | A field no line sets keeps its initial value. |
| `RnaConfLoading.ScanFieldLastWins` | src/network_inspectors/rna/rna_inspector.cc:150-159 | A field holds the value of the last line that sets it. |
| `RnaConfLoading.BannerGrabNeverReset` | src/network_inspectors/rna/rna_inspector.cc:160-161 | Once the lines read so far have turned banner grabbing on, it stays on whatever lines follow, even if `stoi` later stops the scan. |
| `RnaConfLoading.ScanBannerGrab` | src/network_inspectors/rna/rna_inspector.cc:160-161 | After a completed scan, banner grabbing is on if and only if it was on before or some line is `protoid BannerGrab v` with `v` other than "0". |
| `RnaConfiguration.NumericDirective` | src/network_inspectors/rna/rna_inspector.cc:150-159 | The table of the five (type, key) pairs whose value is stored with `stoi`. Its properties are stated by `DirectiveTableInverse` and `NumericItems`. |
| `RnaConfiguration.Classify` | src/network_inspectors/rna/rna_inspector.cc:134-161 | The branch the loop takes on a line. Its properties are stated by `ClassifyByWords`, `ExtraItemsIgnored`, `BlankLineWarns`, `IndentedHashIsNotComment`, `BannerGrabDirective` and `NumericItems`. |
| `RnaConfiguration.Set` | src/network_inspectors/rna/rna_inspector.cc:150-159 | A numeric directive overwrites its own field with the value. Every other field and the banner flag are unchanged. |
| `RnaConfiguration.DirectiveTableInverse` | src/network_inspectors/rna/rna_inspector.cc:150-159 | The five (type, key) pairs and the five fields correspond one to one, in both directions. |
| `RnaConfiguration.ClassifyByWords` | src/network_inspectors/rna/rna_inspector.cc:134-161 | A line is skipped if and only if it is empty or starts with '#'. It is missing items if and only if it has fewer than three words. Otherwise its first two words choose the branch and the third is the value. |
| `RnaConfiguration.ExtraItemsIgnored` | src/network_inspectors/rna/rna_inspector.cc:140-142 | A line with items after the third is handled exactly as its first three items alone. |
| `RnaConfiguration.BlankLineWarns` | src/network_inspectors/rna/rna_inspector.cc:134-147 | A non-empty line of whitespace only is not skipped. It draws a warning. |
| `RnaConfiguration.IndentedHashIsNotComment` | src/network_inspectors/rna/rna_inspector.cc:134-161 | A '#' after leading whitespace does not make a comment. The line is missing items or unrecognised. |
| `RnaConfiguration.BannerGrabDirective` | src/network_inspectors/rna/rna_inspector.cc:160-161 | `protoid BannerGrab v` turns banner grabbing on for every `v` other than "0". With "0" the line is ignored. |
| `RnaConfiguration.NumericItems` | src/network_inspectors/rna/rna_inspector.cc:150-159 | A line whose first two items name a numeric directive is that directive, carrying its third item as the value. |
| `LineTokens.Extract` | src/network_inspectors/rna/rna_inspector.cc:142 | One `>>`: the item is empty if and only if only whitespace is left. An item read contains no whitespace. |
| `LineTokens.FirstThree` | src/network_inspectors/rna/rna_inspector.cc:140-142 | The three items `line_stream >> config_type >> config_key >> config_value` reads. Its properties are stated by `FirstThreeAreWords` and `ThreeItems`. |
| `LineTokens.ExtractIsFirstWord` | src/network_inspectors/rna/rna_inspector.cc:142 | The item `>>` reads is the first word of the line, and the rest of the stream holds the other words. |
| `LineTokens.FirstThreeAreWords` | src/network_inspectors/rna/rna_inspector.cc:140-143 | The three items are the first three words. One of them is empty if and only if the line has fewer than three words. |
| `LineTokens.ThreeItems` | src/network_inspectors/rna/rna_inspector.cc:142 | From "t k v" with three space-free items, the loader reads t, k and v. |
| `LineTokens.WordsOfThreeAndMore` | src/network_inspectors/rna/rna_inspector.cc:142 | The words of "t k v rest" are t, k, v followed by the words of rest. |
| `LineTokens.WordsAfterSpaces` | src/network_inspectors/rna/rna_inspector.cc:142 | Leading whitespace does not change the words of a line. |
| `StringToInt.Stoi` | src/network_inspectors/rna/rna_inspector.cc:151 | On a whitespace-free item, as every `config_value` is: a value `stoi` returns lies in the 32-bit `int` range, and the item starts with a digit, or with a sign followed by a digit; any other such item makes `stoi` throw. |
| `StringToInt.StoiRejectsTooLarge` | src/network_inspectors/rna/rna_inspector.cc:151 | A numeral above INT_MAX makes `stoi` throw, with or without a '+', whatever follows the digits. |
| `StringToInt.StoiRejectsTooSmall` | src/network_inspectors/rna/rna_inspector.cc:151 | A '-' before a numeral above the magnitude of INT_MIN makes `stoi` throw. |
| `StringToInt.StoiOfIntMin` | src/network_inspectors/rna/rna_inspector.cc:151 | INT_MIN itself, written with its '-', is read back, so the lower bound is exact. |
| `StringToInt.StoiOfDecimal` | src/network_inspectors/rna/rna_inspector.cc:151 | `stoi` reads back the decimal notation of any number up to INT_MAX and ignores what follows the digits. |
| `StringToInt.StoiOfSignedDecimal` | src/network_inspectors/rna/rna_inspector.cc:151 | The same holds with a leading '+' or '-'. |
| `RnaConfScenarios.NumericLine` | src/network_inspectors/rna/rna_inspector.cc:150-159 | `type key n` for a numeric directive and an in-range `n` sets that directive's field to `n`. |
| `RnaConfScenarios.NoWarnings` | src/network_inspectors/rna/rna_inspector.cc:143-147 | A completed scan with no line missing items warns about nothing. |
| `RnaConfScenarios.AllDirectivesRoundTrip` | src/network_inspectors/rna/rna_inspector.cc:114-166 | A file that sets each of the five fields once loads into exactly those values, with banner grabbing at its default and no warning. |
| `RnaConfScenarios.MixedFile` | src/network_inspectors/rna/rna_inspector.cc:129-165 | A file with a comment, two numeric directives, `protoid BannerGrab v` and a four-item unknown line loads with just those two fields changed and banner grabbing on. It draws no warning. |

## Left out

- The `ifstream`/`getline` loop runs on the file's list of lines. The source's `while (in_stream)` runs one extra time after the last line. That pass reads an empty line, which counts towards `line_num` and is skipped, so it changes nothing observable. It is not modelled.
- `Inspector.RnaInspector.constructor`: when `stoi` throws (`invalid_argument` or `out_of_range`), the source's exception leaves the constructor, so no inspector is built. In the model, the load returns `StoiFailed(line)` and the constructor completes with the fields set so far, without the "using defaults" warning.
- `RnaConfiguration.Set`: stores `stoi`'s `int` as is. The source assigns it to the record's unsigned fields, which turns a negative value into a large unsigned one. The field widths are declared in `rna_config.h`, which is not part of this model.
- The defaults 3600, 16, 100, 100, 16 and `false` are the member initialisers of `RnaConfig` in `rna_config.h`, which is not part of this model. The properties proved refer to them only through `DefaultConfig`: `Load` starts from it, and the whole-file lemmas of `RnaConfScenarios` state their results relative to it.
- `Inspector.RnaInspector.ReadLines`: line numbers are unbounded here. The source counts lines in a `uint32_t line_num`, which wraps to 0 after 4,294,967,295 lines, so later warnings print the wrapped number. `ScanWarnings` and `LoadWarningsLines` give exact numbers for a file of any length, so they match the source only for files of at most 4,294,967,295 lines.
- `Inspector.RnaInspector.Eval`: the counter is an unbounded `nat`. The 64-bit wrap-around of the source's counter is not modelled.
- The value 0x2 of `PKT_REBUILT_STREAM` comes from `protocols/packet.h`, which is not part of this model.
- The constructor takes the result of `RnaModule::get_config` as a parameter. `RnaModule` is not part of this model.
- `Profile`, the `THREAD_LOCAL` storage of the statistics, `tinit`/`tterm`, the plugin API (`rna_inspector_api`, its constructor and destructor callbacks, `pinit`/`pterm`) and the destructor's `delete` calls are left out. They are process plumbing with no effect on the values modelled.
- `LogMessage`'s `printf` formatting is left out. A report line carries the value it prints, not the text.
