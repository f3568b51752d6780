# parse_pdu — a Dafny model of the BayTech PDU monitoring probe

`parse_pdu.py` is a monitoring-plugin probe. It reads a snapshot file of one power
distribution unit's status dump and extracts one category of measurements: AMPS, KWH,
TEMP, VOLTAGE or WATTAGE. It prints one line, `OK - <device> | <perfdata>`, and exits 0.
The block after `| ` holds entries of the form `key=value;;`, joined by spaces. The line
can also be one of four `FAILED - ...` lines, with exit 3 (UNKNOWN).

The model has five modules.

- `Text` (text.dfy): the Python string operations the probe relies on, with their Python
  meaning.
  - `str.strip()` uses Python's `isspace` set.
  - `replace(" ", "_")`, `lower()` on ASCII, `" ".join`, and `str(n)` for a non-negative
    integer.
  - Lemmas cover trimming, splitting and joining, and reading decimals back.
- `Perfdata` (perfdata.dfy): one entry (`Metric`), its rendering `key=value;;`, and the
  success line. A parser of the block proves that joining the rendered entries loses
  nothing.
- `Resolver` (resolver.dfy): the checks that run before the snapshot is read. They are a
  pure decision over
  - the argument vector,
  - whether the snapshot is readable,
  - the snapshot's age in whole seconds.

  The checks run in order: argument count, device name, readability, freshness (900 s).
  The first failing check decides the line.
- `Extraction` (extraction.dfy): what the pattern scans found, and the entries each
  category emits from it.
  - A `Scan` holds the `Total kW-h:` tokens, the Celsius renderings of the `Int. Temp:`
    tokens, the breaker-row matches and the circuit-group matches, each in order of
    appearance.
  - It defines the breaker-name normaliser and the `input_a|ckt[0-9]+` filter, and the
    entry sequence `Metrics(kind, scan)` in the order the code appends it.
- `Probe` (probe.dfy): the imperative part of `main()`.
  - `AppendTotals`, `AppendBreakers` and `AppendCircuits` append to the `perfdata` list.
    The two loops carry invariants. `CollectPerfdata` composes them and is proved equal to
    `Rendered(Metrics(kind, scan))`.
  - `Run` is the whole invocation as written. It maps the command line, readability, age
    and scan to the printed line and the exit code, and is tied to `ResolveAsWritten` and
    `ReportLine`.
  - `RunCorrected` is the same invocation with the standard-input exemption repaired (see
    "## Findings"). It is tied to `Resolve`.

The model takes these as inputs:

- The file system (`os.access`, `os.stat`), the clock (`time.time`) and the file read are
  parameters: `readable`, `age` and `scan`.
- `print` and `sys.exit` are the results of `Run`.

The model follows `parse_pdu.py`, apart from what "## Left out" lists and the repaired
chain named under "## Findings". Some facts about that code:

- The program computes no `cal_total_*` aggregates and no status fragments in front of
  `|`. Two breaker rows with the same normalised name give two entries with the same key.
- The Watts and VA columns of a circuit-group row are `[0-9]+` in the circuit pattern, not
  `[0-9.]+`.

## Model

| member | source | states |
|---|---|---|
| Resolver.ParseArguments | parse_pdu.py:16-26 | fewer than two arguments refuse with the usage line; an empty device name refuses with `FAILED - PDU name is required`; otherwise base and name are argv[1] and argv[2], and the category is argv[3] when given and AMPS otherwise |
| Resolver.CheckSnapshot | parse_pdu.py:30-38 | proceeds exactly when the path is standard input or readable, and the age is below 900; otherwise the cannot-read line comes before the stale line, with exit 3 |
| Resolver.SnapshotPath | parse_pdu.py:28-30 | the path is `/dev/stdin` exactly when the base is `/dev/stdin`, so the standard-input exemption is reachable; for any other base it is `<base>.<name>` |
| Resolver.DataFile | parse_pdu.py:28 | `<base>.<name>`: the base, then a `.` at position \|base\|, then the name, and nothing else |
| Resolver.ResolveAsWritten | parse_pdu.py:16-38 | the chain as written proceeds if and only if there are at least two arguments, the name is non-empty, the snapshot is readable, and the age is below 900; the path is always `<base>.<name>`; every refusal exits 3 with a line starting `FAILED - ` |
| Resolver.Resolve | parse_pdu.py:16-38 | proceeds if and only if there are at least two arguments, the name is non-empty, the path is standard input or readable, and the age is below 900; the path is `<base>.<name>`, or `/dev/stdin`; every refusal exits 3 with a line starting `FAILED - ` |
| Resolver.FirstFailureWinsAsWritten | parse_pdu.py:16-38 | the chain as written: the exact line and code of each of the four refusals, each decided by the first failing check whatever the later inputs are; an unreadable snapshot is refused with `Cannot read file: <base>.<name>` before its age is looked at, whatever the base |
| Resolver.FirstFailureWins | parse_pdu.py:16-38 | the corrected chain: the same four refusals in the same order, except that a base of `/dev/stdin` skips the readability refusal |
| Resolver.FreshnessBoundary | parse_pdu.py:12-38 | in both chains, for a readable snapshot: age 899 passes and 900 fails with `File is stale (900 seconds old)`; in general, passing the freshness check is equivalent to age < 900 |
| Resolver.StaleLineShowsAge | parse_pdu.py:36-38 | the stale line carries the age in decimal, and those digits read back to the age |
| Resolver.DataFileNeverStdin | parse_pdu.py:28-30 | `<base>.<name>` always contains a `.`, so it is never `/dev/stdin` |
| Resolver.AsWrittenAlwaysChecksReadability | parse_pdu.py:28-32 | the decision chain as written refuses every unreadable snapshot, standard input included; `parse_pdu.py /dev/stdin pdu1` gives `FAILED - Cannot read file: /dev/stdin.pdu1` |
| Resolver.StdinProceeds | parse_pdu.py:30-32 | with the corrected path, a base of `/dev/stdin` proceeds without readability |
| Resolver.ResolveAgreesAsWritten | parse_pdu.py:28-32 | when the base is not `/dev/stdin`, the corrected chain and the chain as written decide the same |
| Text.TrimStart | parse_pdu.py:66 | the result is no longer than the input; everything removed in front is whitespace; the result is empty or starts with a non-whitespace character; with TrimStartSuffix, the result is the rest of the input |
| Text.TrimStartSuffix | parse_pdu.py:66 | the left-trimmed string is a suffix of the input, so TrimStart removes only leading whitespace |
| Text.TrimEnd | parse_pdu.py:66 | the mirror image of TrimStart at the end of the string; with TrimEndPrefix, the result is the start of the input |
| Text.TrimEndPrefix | parse_pdu.py:66 | the right-trimmed string is a prefix of the input, so TrimEnd removes only trailing whitespace |
| Text.StripTrimmed | parse_pdu.py:49 | `strip()` yields a string with no whitespace at either end, and no longer than its input |
| Text.StripAround | parse_pdu.py:66 | stripping a trimmed word between two runs of whitespace gives back exactly the word |
| Text.SplitJoin | parse_pdu.py:96 | splitting `" ".join(parts)` on single spaces gives back `parts`, when no part is empty or contains a space |
| Text.NatToString | parse_pdu.py:37 | `str(n)` is a non-empty run of decimal digits, with no leading zero unless n is 0 |
| Text.DecimalRoundTrip | parse_pdu.py:37 | reading `str(n)` back as a decimal number gives n |
| Perfdata.Render | parse_pdu.py:71-72 | an entry renders as its label, then `=`, then its value, then `;;`, three characters longer than label and value together; lines 51, 59 and 88-93 use the same format |
| Perfdata.ReportLine | parse_pdu.py:97 | the success line starts with `OK - <device> \| `, the rest is the space-joined block, and with no entries the line is exactly that head |
| Perfdata.Rendered | parse_pdu.py:51 | as many rendered `key=value;;` strings as entries |
| Perfdata.ParseRendered | parse_pdu.py:71-72 | reading each rendered entry `key=value;;` back gives the entry, when the key has no space or `=` and the value has no space |
| Perfdata.PerfdataRoundTrip | parse_pdu.py:96-97 | the joined performance-data block parses back to the same entries, in the same order |
| Perfdata.ReportLineShape | parse_pdu.py:96-98 | the success line starts with `OK - <device> \| `; with no entries it is exactly that text; the rest parses back to the entries |
| Extraction.Normalise | parse_pdu.py:66 | the normalised name is as long as the stripped name and contains no space |
| Extraction.NameAccepted | parse_pdu.py:70 | an accepted name has at least four characters and starts with `input_a` or `ckt` |
| Extraction.BreakerRowMetrics | parse_pdu.py:65-72 | one breaker match emits something exactly when its normalised name is accepted and the category is AMPS, and then exactly its true-RMS and its peak-RMS token |
| Extraction.BreakerMetrics | parse_pdu.py:65-72 | the breaker loop emits at most two entries per match, and nothing outside AMPS |
| Extraction.CircuitRowMetrics | parse_pdu.py:79-93 | one circuit-group match emits two entries under AMPS, one under VOLTAGE or WATTAGE, none otherwise |
| Extraction.CircuitMetrics | parse_pdu.py:79-93 | the circuit-group loop emits two entries per match under AMPS, one per match under VOLTAGE or WATTAGE, and none under any other category |
| Extraction.KwhMetrics | parse_pdu.py:47-51 | at most one entry, present exactly when the category is KWH and there is a match; it is `total_kwh`, its value stripped |
| Extraction.TempMetrics | parse_pdu.py:54-59 | at most one entry, present exactly when the category is TEMP and there is a match; it is `internal_temp_celsius` with the first match's Celsius text |
| Extraction.Metrics | parse_pdu.py:44-93 | KWH gives only the KWH entry, TEMP only the TEMP entry, AMPS the breaker entries followed by the circuit-group entries, VOLTAGE and WATTAGE only the circuit-group entries, and an unknown category nothing |
| Extraction.NormaliseShape | parse_pdu.py:66 | the normalised name has the stripped name's length, and each character is that character with space replaced by `_` and then lower-cased; the result is trimmed, has no space, and is already lower-case |
| Extraction.NormaliseIdempotent | parse_pdu.py:66 | normalising a normalised name changes nothing |
| Extraction.AcceptedIsFullMatch | parse_pdu.py:70 | `$`'s match before a final newline never matters: a normalised name passes `^(input_a\|ckt[0-9]+)$` exactly when it is `input_a` or `ckt` followed by digits |
| Extraction.InputAccepted | parse_pdu.py:66-70 | the name normalises to `input_a` exactly when the stripped label is `Input A` or `Input_A`, in any ASCII letter case |
| Extraction.CircuitBreakerAccepted | parse_pdu.py:66-70 | the name normalises to `ckt<digits>` exactly when the stripped label is `CKT` in any case, followed by one or more digits |
| Extraction.AcceptedLabels | parse_pdu.py:62-70 | the filter accepts exactly the stripped labels `Input A`, `Input_A` and `CKT<digits>`, in any letter case |
| Extraction.NormaliseExampleCkt | parse_pdu.py:66-70 | `CKT1` normalises to `ckt1` and is accepted |
| Extraction.NormaliseExampleInput | parse_pdu.py:66-70 | ` Input A ` normalises to `input_a` and is accepted |
| Extraction.NormaliseExampleDoubleSpace | parse_pdu.py:66-70 | `Input  A` normalises to `input__a` and is rejected |
| Extraction.CircuitLabelRejected | parse_pdu.py:62-72 | a breaker-pattern match whose label starts with `Circuit` is rejected by the filter and emits nothing, so circuit-group rows are never counted as breakers |
| Extraction.CircuitLabelNormalises | parse_pdu.py:66 | the breaker-pattern label of a circuit-group row, `Circuit Mn` plus trailing whitespace, normalises to `circuit_mn` |
| Extraction.BreakerMetricsAppend | parse_pdu.py:65-72 | the breaker entries of two consecutive runs of matches are those of the first run followed by those of the second |
| Extraction.BreakerMetricsSound | parse_pdu.py:65-72 | every breaker entry is the true-RMS or peak-RMS entry of some matched row whose name is accepted, under AMPS only |
| Extraction.BreakerRowEmitted | parse_pdu.py:65-72 | an accepted row j puts its true-RMS entry and then its peak-RMS entry right after the entries of rows 0..j-1 |
| Extraction.BreakerCount | parse_pdu.py:65-72 | under AMPS there are exactly two breaker entries per accepted row |
| Extraction.CircuitMetricsAt | parse_pdu.py:79-93 | position by position: under AMPS, row i gives entries 2i (true RMS) and 2i+1 (peak RMS); under VOLTAGE or WATTAGE, row i gives entry i (voltage, or wattage from the Watts column); under any other category there are none |
| Extraction.VaNeverEmitted | parse_pdu.py:85-93 | rows that differ only in the VA column give the same entries |
| Extraction.KwhIsolation | parse_pdu.py:47-51 | KWH emits only `total_kwh`, from the first `Total kW-h:` token stripped, or nothing when there is no match; for a `\S+` token the value is the token itself |
| Extraction.TempIsolation | parse_pdu.py:54-59 | TEMP emits only `internal_temp_celsius`, from the first match, or nothing |
| Extraction.CircuitKindsIsolation | parse_pdu.py:86-93 | VOLTAGE and WATTAGE emit exactly one `circuit_<m>_voltage` or `circuit_<m>_wattage` entry per circuit-group row, in match order, and nothing else |
| Extraction.BreakerKeys | parse_pdu.py:70-72 | no breaker entry's key starts with `circuit_`, and none contains a space or `=` |
| Extraction.CircuitKeys | parse_pdu.py:87-93 | every circuit-group entry's key starts with `circuit_` |
| Extraction.AmpsOrder | parse_pdu.py:62-93 | AMPS gives the breaker entries followed by the circuit-group entries; once a `circuit_` entry appears, every later entry is one |
| Extraction.AcceptedNamePlain | parse_pdu.py:66-70 | an accepted normalised name contains no space and no `=` |
| Extraction.BreakerPlain | parse_pdu.py:65-72 | for well-formed breaker matches, every breaker entry reads back unambiguously |
| Extraction.CircuitPlain | parse_pdu.py:79-93 | for well-formed circuit-group matches, every circuit-group entry reads back unambiguously |
| Extraction.MetricsPlain | parse_pdu.py:44-93 | for a well-formed scan, no entry contains a space and no key contains `=` |
| Extraction.ScanPerfdataRoundTrip | parse_pdu.py:44-97 | for a well-formed scan, the joined block reads back to exactly the entries of the category, in order |
| Probe.AppendTotals | parse_pdu.py:46-59 | the KWH and TEMP branches append exactly the rendering of `KwhMetrics` and `TempMetrics` |
| Probe.AppendBreakerRow | parse_pdu.py:66-72 | one breaker match appends the rendering of its row's entries, two or none |
| Probe.AppendBreakers | parse_pdu.py:62-72 | the breaker loop appends the rendering of `BreakerMetrics`, match by match, in order |
| Probe.AppendCircuits | parse_pdu.py:75-93 | the circuit-group loop appends the rendering of `CircuitMetrics`, match by match, in order |
| Probe.CollectPerfdata | parse_pdu.py:44-93 | the list built is exactly `Rendered(Metrics(kind, scan))` |
| Probe.Run | parse_pdu.py:15-98 | the program as written: a refused run prints the refusal line of `ResolveAsWritten` with exit 3; otherwise it prints `OK - <device> \| <entries>` with exit 0 |
| Probe.RunCorrected | parse_pdu.py:15-98 | the same invocation with the corrected path: a refused run prints the refusal line of `Resolve` with exit 3; otherwise `OK - <device> \| <entries>` with exit 0 |
| Probe.ReportReadsBack | parse_pdu.py:96-98 | the chain as written: for a well-formed scan and a run that passes the checks, the printed line starts `OK - <device> \| `, and the rest parses back to the category's entries, in order |
| Probe.ReportReadsBackCorrected | parse_pdu.py:96-98 | the same for a run through the corrected chain |

## Left out

- Pattern scanning itself (`re.search` with `re.MULTILINE`, `finditer`): the matches are an
  input (`Scan`). `WellFormed` states only the shape of each captured token, not that the
  matches are the ones the patterns would find in the snapshot text.
- File system, clock and output (`os.access`, `os.stat`, `time.time`, `open`/`read`,
  `print`, `sys.exit`): readability, age and scan are parameters, and the line and exit
  code are results.
- The race between the readability check and the later `os.stat` and read, and the
  exceptions those raise when the file disappears or cannot be read: not modelled.
- `int(time.time() - st_mtime)` truncation toward zero: the age is given as a whole number
  of seconds. Negative ages, from clock skew, pass the freshness check, as in the code.
- Extraction.TempIsolation: the value is the Celsius text the scan carries. The
  Fahrenheit-to-Celsius arithmetic, `round(..., 1)`, the float rendering, and the
  `ValueError` raised for a token `float()` rejects are not modelled, because Dafny has no
  IEEE floating point.
- Python's `lower()` beyond ASCII: only ASCII letters are lower-cased. Python's `lower()` also maps other
  characters, such as the Kelvin sign to `k`, so a label containing those could pass the
  code's filter but not the model's.
- Arguments after the category are ignored, as in the code. The program name argv[0] is
  not looked at.

## Findings

| source | as written | input that shows it | evidently intended | confidence | as-written member | corrected member |
|---|---|---|---|---|---|---|
| parse_pdu.py:28-30 | the path is always `<base>.<name>`, which contains a `.`, so `data_file != "/dev/stdin"` always holds and standard input is never exempt from the readability check | `parse_pdu.py /dev/stdin pdu1` with an unreadable path prints `FAILED - Cannot read file: /dev/stdin.pdu1` and exits 3 | a base of `/dev/stdin` reads standard input without the readability check | medium, not executed | Resolver.ResolveAsWritten (Resolver.AsWrittenAlwaysChecksReadability, Resolver.DataFileNeverStdin, used by Probe.Run) | Resolver.Resolve (Resolver.SnapshotPath, Resolver.StdinProceeds, used by Probe.RunCorrected) |
