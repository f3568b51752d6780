/** The checks the probe runs before it reads the snapshot: argument count, device name,
    readability and freshness, in that order; the first one that fails ends the run. */
module Resolver {
  import opened Text
  import opened Perfdata

  /** Snapshots this many seconds old or older are stale. */
  const MaxAge: int := 900
  /** Standard input, the one path whose readability is not checked. */
  const StdinPath: string := "/dev/stdin"
  /** The category reported when the command line names none. */
  const DefaultKind: string := "AMPS"

  /** Every failure line starts with this. */
  const FailedPrefix: string := "FAILED - "
  const UsageLine: string :=
    FailedPrefix + "Usage: parse_pdu.py <data_file> <PDU-NAME> [AMPS|KWH|TEMP|VOLTAGE|WATTAGE]"
  const NameRequiredLine: string := FailedPrefix + "PDU name is required"

  function CannotReadLine(path: string): string {
    FailedPrefix + "Cannot read file: " + path
  }

  function StaleLine(age: nat): string {
    FailedPrefix + "File is stale (" + NatToString(age) + " seconds old)"
  }

  /** The command line read as base path, device name and category, or the line refusing it. */
  datatype Arguments =
    | Refused(line: string)
    | Arguments(base: string, name: string, kind: string)

  /** Either the line and exit code of a refused run, or what the run goes on with. */
  datatype Decision =
    | Fail(line: string, exitCode: int)
    | Proceed(path: string, name: string, kind: string)

  /** Reads `argv` (program name first): at least two arguments, a non-empty device name. */
  function ParseArguments(argv: seq<string>): (a: Arguments)
    ensures a.Refused? <==> |argv| < 3 || argv[2] == ""
    ensures a.Refused? ==> a.line == (if |argv| < 3 then UsageLine else NameRequiredLine)
    ensures a.Arguments? ==> a.base == argv[1] && a.name == argv[2]
    ensures a.Arguments? ==> a.kind == (if |argv| > 3 then argv[3] else DefaultKind)
  {
    if |argv| < 3 then Refused(UsageLine)
    else
      var kind := if |argv| > 3 then argv[3] else DefaultKind;
      if argv[2] == "" then Refused(NameRequiredLine)
      else Arguments(argv[1], argv[2], kind)
  }

  /** The path the code builds: `<base>.<device>`. */
  function DataFile(base: string, name: string): (p: string)
    ensures |p| == |base| + 1 + |name|
    ensures StartsWith(p, base) && p[|base|] == '.' && p[|base| + 1..] == name
  {
    base + "." + name
  }

  /** The path with standard input recognised: a base of `/dev/stdin` stands for itself. */
  function SnapshotPath(base: string, name: string): (p: string)
    ensures p == StdinPath <==> base == StdinPath
    ensures base != StdinPath ==> p == DataFile(base, name)
  {
    DataFileNeverStdin(base, name);
    if base == StdinPath then StdinPath else DataFile(base, name)
  }

  /** Readability (skipped for standard input), then freshness. */
  function CheckSnapshot(path: string, name: string, kind: string, readable: bool, age: int): (d: Decision)
    ensures d.Proceed? <==> (path == StdinPath || readable) && age < MaxAge
    ensures d.Proceed? ==> d == Proceed(path, name, kind)
    ensures d.Fail? ==>
      (d.exitCode == ExitUnknown
       && d.line == (if path != StdinPath && !readable then CannotReadLine(path) else StaleLine(age)))
  {
    if path != StdinPath && !readable then Fail(CannotReadLine(path), ExitUnknown)
    else if age >= MaxAge then Fail(StaleLine(age), ExitUnknown)
    else Proceed(path, name, kind)
  }

  /** The decision chain exactly as the code writes it, with the path `<base>.<device>`. */
  function ResolveAsWritten(argv: seq<string>, readable: bool, age: int): (d: Decision)
    ensures d.Fail? ==> d.exitCode == ExitUnknown && StartsWith(d.line, FailedPrefix)
    ensures d.Proceed? <==> |argv| >= 3 && argv[2] != "" && readable && age < MaxAge
    ensures d.Proceed? ==>
      d.path == argv[1] + "." + argv[2]
      && d.name == argv[2]
      && d.kind == (if |argv| > 3 then argv[3] else DefaultKind)
  {
    match ParseArguments(argv)
    case Refused(line) => Fail(line, ExitUnknown)
    case Arguments(base, name, kind) =>
      DataFileNeverStdin(base, name);
      CheckSnapshot(DataFile(base, name), name, kind, readable, age)
  }

  /** The decision chain with standard input reachable: `argv` (program name first),
      whether the snapshot is readable, and its age in whole seconds. */
  function Resolve(argv: seq<string>, readable: bool, age: int): (d: Decision)
    ensures d.Fail? ==> d.exitCode == ExitUnknown && StartsWith(d.line, FailedPrefix)
    ensures d.Proceed? <==>
      |argv| >= 3 && argv[2] != ""
      && (argv[1] == StdinPath || readable)
      && age < MaxAge
    ensures d.Proceed? ==>
      d.path == (if argv[1] == StdinPath then StdinPath else argv[1] + "." + argv[2])
      && d.name == argv[2]
      && d.kind == (if |argv| > 3 then argv[3] else DefaultKind)
  {
    match ParseArguments(argv)
    case Refused(line) => Fail(line, ExitUnknown)
    case Arguments(base, name, kind) => CheckSnapshot(SnapshotPath(base, name), name, kind, readable, age)
  }

  /** As written: the first failing check decides the line, and an unreadable snapshot is
      refused before its age is looked at, whatever the base. */
  lemma FirstFailureWinsAsWritten(argv: seq<string>, readable: bool, age: int)
    ensures |argv| < 3 ==> ResolveAsWritten(argv, readable, age) == Fail(UsageLine, ExitUnknown)
    ensures |argv| >= 3 && argv[2] == "" ==>
      ResolveAsWritten(argv, readable, age) == Fail(NameRequiredLine, ExitUnknown)
    ensures |argv| >= 3 && argv[2] != "" && !readable ==>
      ResolveAsWritten(argv, readable, age) == Fail(CannotReadLine(DataFile(argv[1], argv[2])), ExitUnknown)
    ensures |argv| >= 3 && argv[2] != "" && readable && age >= MaxAge ==>
      ResolveAsWritten(argv, readable, age) == Fail(StaleLine(age), ExitUnknown)
  {
    if |argv| >= 3 && argv[2] != "" {
      DataFileNeverStdin(argv[1], argv[2]);
    }
  }

  /** The corrected chain: the first failing check decides the line; the later inputs are
      not looked at. */
  lemma FirstFailureWins(argv: seq<string>, readable: bool, age: int)
    ensures |argv| < 3 ==> Resolve(argv, readable, age) == Fail(UsageLine, ExitUnknown)
    ensures |argv| >= 3 && argv[2] == "" ==>
      Resolve(argv, readable, age) == Fail(NameRequiredLine, ExitUnknown)
    ensures |argv| >= 3 && argv[2] != "" && argv[1] != StdinPath && !readable ==>
      Resolve(argv, readable, age) == Fail(CannotReadLine(DataFile(argv[1], argv[2])), ExitUnknown)
    ensures (|argv| >= 3 && argv[2] != "" && (argv[1] == StdinPath || readable)
             && age >= MaxAge) ==>
      Resolve(argv, readable, age) == Fail(StaleLine(age), ExitUnknown)
  {
  }

  /** Ages 899 and below (zero and negative included) pass; 900 and above fail, in the chain
      as written and in the corrected one alike. */
  lemma FreshnessBoundary(base: string, name: string, age: int)
    requires name != ""
    ensures ResolveAsWritten(["parse_pdu.py", base, name], true, 899).Proceed?
    ensures ResolveAsWritten(["parse_pdu.py", base, name], true, 900) == Fail(StaleLine(900), ExitUnknown)
    ensures age < MaxAge <==> ResolveAsWritten(["parse_pdu.py", base, name], true, age).Proceed?
    ensures Resolve(["parse_pdu.py", base, name], true, 899).Proceed?
    ensures Resolve(["parse_pdu.py", base, name], true, 900) == Fail(StaleLine(900), ExitUnknown)
    ensures age < MaxAge <==> Resolve(["parse_pdu.py", base, name], true, age).Proceed?
  {
    DataFileNeverStdin(base, name);
  }

  /** The stale line shows the age, in a form that reads back to it. */
  lemma {:induction false} StaleLineShowsAge(age: nat)
    ensures var line := StaleLine(age);
      var digits := line[|FailedPrefix + "File is stale ("|..|line| - |" seconds old)"|];
      AllDigits(digits) && DecimalValue(digits) == age
  {
    var line := StaleLine(age);
    var head := FailedPrefix + "File is stale (";
    var tail := " seconds old)";
    assert line == head + NatToString(age) + tail;
    assert line[|head|..|line| - |tail|] == NatToString(age);
    DecimalRoundTrip(age);
  }

  /** `<base>.<device>` always holds a `.`, and `/dev/stdin` holds none: the code's
      standard-input exemption can never apply. */
  lemma DataFileNeverStdin(base: string, name: string)
    ensures DataFile(base, name) != StdinPath
  {
    var p := DataFile(base, name);
    assert p[|base|] == '.';
    assert '.' in p;
    assert StdinPath == ['/', 'd', 'e', 'v', '/', 's', 't', 'd', 'i', 'n'];
  }

  /** As written, every run with an unreadable path fails, standard input included. */
  lemma AsWrittenAlwaysChecksReadability(argv: seq<string>, age: int)
    ensures ResolveAsWritten(argv, false, age).Fail?
    ensures ResolveAsWritten(["parse_pdu.py", StdinPath, "pdu1"], false, 0)
      == Fail(CannotReadLine(StdinPath + ".pdu1"), ExitUnknown)
  {
    if |argv| >= 3 && argv[2] != "" {
      DataFileNeverStdin(argv[1], argv[2]);
    }
    DataFileNeverStdin(StdinPath, "pdu1");
  }

  /** Standard input passes without readability once `/dev/stdin` is given as the base. */
  lemma StdinProceeds(name: string, age: int)
    requires name != "" && age < MaxAge
    ensures Resolve(["parse_pdu.py", StdinPath, name], false, age) == Proceed(StdinPath, name, DefaultKind)
  {
  }

  /** Outside the standard-input case the corrected chain is the code's chain. */
  lemma ResolveAgreesAsWritten(argv: seq<string>, readable: bool, age: int)
    requires |argv| < 3 || argv[1] != StdinPath
    ensures Resolve(argv, readable, age) == ResolveAsWritten(argv, readable, age)
  {
    if |argv| >= 3 && argv[2] != "" {
      DataFileNeverStdin(argv[1], argv[2]);
    }
  }
}
