/** The probe's main routine: the checks, then the entries appended one by one to the
    performance-data list, then the report line and exit code. */
module Probe {
  import opened Text
  import opened Perfdata
  import opened Resolver
  import opened Extraction

  lemma RenderedAppend(ms: seq<Metric>, ns: seq<Metric>)
    ensures Rendered(ms + ns) == Rendered(ms) + Rendered(ns)
  {
    var r := Rendered(ms + ns);
    forall k | 0 <= k < |r| ensures r[k] == (Rendered(ms) + Rendered(ns))[k] {
      if k < |ms| {
        assert (ms + ns)[k] == ms[k];
      } else {
        assert (ms + ns)[k] == ns[k - |ms|];
      }
    }
  }

  /** The rendering of the KWH entry, as the code appends it. */
  lemma KwhRendered(kind: string, kwh: seq<string>)
    ensures Rendered(KwhMetrics(kind, kwh)) ==
      if kind == Kwh && |kwh| > 0 then ["total_kwh=" + Strip(kwh[0]) + ";;"] else []
  {
    if kind == Kwh && |kwh| > 0 {
      assert Render(Metric("total_kwh", Strip(kwh[0]))) == "total_kwh=" + Strip(kwh[0]) + ";;";
    }
  }

  /** The rendering of the TEMP entry, as the code appends it. */
  lemma TempRendered(kind: string, temp: seq<string>)
    ensures Rendered(TempMetrics(kind, temp)) ==
      if kind == Temp && |temp| > 0 then ["internal_temp_celsius=" + temp[0] + ";;"] else []
  {
    if kind == Temp && |temp| > 0 {
      assert Render(Metric("internal_temp_celsius", temp[0])) == "internal_temp_celsius=" + temp[0] + ";;";
    }
  }

  lemma EntryText(key: string, suffix: string, value: string)
    ensures Render(Metric(key + suffix, value)) == key + (suffix + "=") + value + ";;"
  {
  }

  /** The rendering of one breaker row, as the loop appends it. */
  lemma BreakerRowRendered(kind: string, b: BreakerMatch)
    ensures var name := Normalise(b.name);
      Rendered(BreakerRowMetrics(kind, b)) ==
        if NameAccepted(name) && kind == Amps
        then [name + "_true_rms_current=" + b.trueRms + ";;",
              name + "_peak_rms_current=" + b.peakRms + ";;"]
        else []
  {
    var name := Normalise(b.name);
    EntryText(name, "_true_rms_current", b.trueRms);
    EntryText(name, "_peak_rms_current", b.peakRms);
    assert "_true_rms_current" + "=" == "_true_rms_current=";
    assert "_peak_rms_current" + "=" == "_peak_rms_current=";
  }

  /** The rendering of one circuit-group row, as the loop appends it. */
  lemma CircuitRowRendered(kind: string, c: CircuitMatch)
    ensures var circuit := Lower(c.group);
      Rendered(CircuitRowMetrics(kind, c)) ==
        (if kind == Amps
         then ["circuit_" + circuit + "_true_rms_current=" + c.trueRms + ";;",
               "circuit_" + circuit + "_peak_rms_current=" + c.peakRms + ";;"]
         else [])
        + (if kind == Voltage then ["circuit_" + circuit + "_voltage=" + c.voltage + ";;"] else [])
        + (if kind == Wattage then ["circuit_" + circuit + "_wattage=" + c.power + ";;"] else [])
  {
    var tag := "circuit_" + Lower(c.group);
    EntryText(tag, "_true_rms_current", c.trueRms);
    EntryText(tag, "_peak_rms_current", c.peakRms);
    EntryText(tag, "_voltage", c.voltage);
    EntryText(tag, "_wattage", c.power);
    assert "_true_rms_current" + "=" == "_true_rms_current=";
    assert "_peak_rms_current" + "=" == "_peak_rms_current=";
    assert "_voltage" + "=" == "_voltage=";
    assert "_wattage" + "=" == "_wattage=";
    var a := if kind == Amps
      then [CircuitEntry(c, "_true_rms_current", c.trueRms), CircuitEntry(c, "_peak_rms_current", c.peakRms)]
      else [];
    var v := if kind == Voltage then [CircuitEntry(c, "_voltage", c.voltage)] else [];
    var w := if kind == Wattage then [CircuitEntry(c, "_wattage", c.power)] else [];
    RenderedAppend(a, v);
    RenderedAppend(a + v, w);
  }

  /** One more breaker match adds the rendering of its row at the end. */
  lemma BreakerStep(kind: string, bs: seq<BreakerMatch>, i: nat)
    requires i < |bs|
    ensures Rendered(BreakerMetrics(kind, bs[..i + 1]))
      == Rendered(BreakerMetrics(kind, bs[..i])) + Rendered(BreakerRowMetrics(kind, bs[i]))
  {
    assert bs[..i + 1][..i] == bs[..i];
    RenderedAppend(BreakerMetrics(kind, bs[..i]), BreakerRowMetrics(kind, bs[i]));
  }

  /** One more circuit-group match adds the rendering of its row at the end. */
  lemma CircuitStep(kind: string, cs: seq<CircuitMatch>, j: nat)
    requires j < |cs|
    ensures Rendered(CircuitMetrics(kind, cs[..j + 1]))
      == Rendered(CircuitMetrics(kind, cs[..j])) + Rendered(CircuitRowMetrics(kind, cs[j]))
  {
    assert cs[..j + 1][..j] == cs[..j];
    RenderedAppend(CircuitMetrics(kind, cs[..j]), CircuitRowMetrics(kind, cs[j]));
  }

  /** One breaker match: both entries when the normalised name passes the filter under AMPS. */
  method AppendBreakerRow(kind: string, b: BreakerMatch, start: seq<string>) returns (perfdata: seq<string>)
    ensures perfdata == start + Rendered(BreakerRowMetrics(kind, b))
  {
    perfdata := start;
    var name := Normalise(b.name);
    BreakerRowRendered(kind, b);
    if NameAccepted(name) && kind == Amps {
      perfdata := perfdata + [name + "_true_rms_current=" + b.trueRms + ";;"];
      perfdata := perfdata + [name + "_peak_rms_current=" + b.peakRms + ";;"];
    }
  }

  /** The breaker loop: every match in order, two entries for each accepted name under AMPS. */
  method AppendBreakers(kind: string, bs: seq<BreakerMatch>, start: seq<string>) returns (perfdata: seq<string>)
    ensures perfdata == start + Rendered(BreakerMetrics(kind, bs))
  {
    perfdata := start;
    assert BreakerMetrics(kind, bs[..0]) == [];
    var i := 0;
    while i < |bs|
      invariant 0 <= i <= |bs|
      invariant perfdata == start + Rendered(BreakerMetrics(kind, bs[..i]))
    {
      perfdata := AppendBreakerRow(kind, bs[i], perfdata);
      BreakerStep(kind, bs, i);
      i := i + 1;
    }
    assert bs[..i] == bs;
  }

  /** The circuit-group loop: every match in order, the entries its category asks for. */
  method AppendCircuits(kind: string, cs: seq<CircuitMatch>, start: seq<string>) returns (perfdata: seq<string>)
    ensures perfdata == start + Rendered(CircuitMetrics(kind, cs))
  {
    perfdata := start;
    assert CircuitMetrics(kind, cs[..0]) == [];
    var j := 0;
    while j < |cs|
      invariant 0 <= j <= |cs|
      invariant perfdata == start + Rendered(CircuitMetrics(kind, cs[..j]))
    {
      var c := cs[j];
      var circuit := Lower(c.group);
      if kind == Amps {
        perfdata := perfdata + ["circuit_" + circuit + "_true_rms_current=" + c.trueRms + ";;"];
        perfdata := perfdata + ["circuit_" + circuit + "_peak_rms_current=" + c.peakRms + ";;"];
      }
      if kind == Voltage {
        perfdata := perfdata + ["circuit_" + circuit + "_voltage=" + c.voltage + ";;"];
      }
      if kind == Wattage {
        perfdata := perfdata + ["circuit_" + circuit + "_wattage=" + c.power + ";;"];
      }
      CircuitRowRendered(kind, c);
      CircuitStep(kind, cs, j);
      j := j + 1;
    }
    assert cs[..j] == cs;
  }

  /** The KWH and TEMP branches: the first match of the category's line, if any. */
  method AppendTotals(kind: string, scan: Scan) returns (perfdata: seq<string>)
    ensures perfdata == Rendered(KwhMetrics(kind, scan.kwh) + TempMetrics(kind, scan.temp))
  {
    perfdata := [];
    if kind == Kwh {
      if |scan.kwh| > 0 {
        var kwh := Strip(scan.kwh[0]);
        perfdata := perfdata + ["total_kwh=" + kwh + ";;"];
      }
    }
    if kind == Temp {
      if |scan.temp| > 0 {
        var celsius := scan.temp[0];
        perfdata := perfdata + ["internal_temp_celsius=" + celsius + ";;"];
      }
    }
    KindsDistinct();
    KwhRendered(kind, scan.kwh);
    TempRendered(kind, scan.temp);
    RenderedAppend(KwhMetrics(kind, scan.kwh), TempMetrics(kind, scan.temp));
  }

  /** The per-category extraction and the two match loops, appending to `perfdata`. */
  method CollectPerfdata(kind: string, scan: Scan) returns (perfdata: seq<string>)
    ensures perfdata == Rendered(Metrics(kind, scan))
  {
    ghost var km, tm := KwhMetrics(kind, scan.kwh), TempMetrics(kind, scan.temp);
    ghost var bm, cm := BreakerMetrics(kind, scan.breakers), CircuitMetrics(kind, scan.circuits);
    perfdata := AppendTotals(kind, scan);
    perfdata := AppendBreakers(kind, scan.breakers, perfdata);
    RenderedAppend(km + tm, bm);
    perfdata := AppendCircuits(kind, scan.circuits, perfdata);
    RenderedAppend(km + tm + bm, cm);
  }

  /** One run of the probe as the code writes it: the command line, whether the snapshot
      is readable, its age in whole seconds and what the scans found give the printed line
      and the exit code. The path is always `<base>.<device>`. */
  method Run(argv: seq<string>, readable: bool, age: int, scan: Scan) returns (line: string, code: int)
    ensures var d := ResolveAsWritten(argv, readable, age);
      (d.Fail? ==> line == d.line && code == ExitUnknown)
      && (d.Proceed? ==> line == ReportLine(d.name, Rendered(Metrics(d.kind, scan))) && code == ExitOk)
  {
    if |argv| < 3 {
      return UsageLine, ExitUnknown;
    }
    var base := argv[1];
    var name := argv[2];
    var kind := if |argv| > 3 then argv[3] else DefaultKind;
    if name == "" {
      return NameRequiredLine, ExitUnknown;
    }
    var path := DataFile(base, name);
    if path != StdinPath && !readable {
      return CannotReadLine(path), ExitUnknown;
    }
    if age >= MaxAge {
      return StaleLine(age), ExitUnknown;
    }
    var perfdata := CollectPerfdata(kind, scan);
    var perfdataStr := JoinSpaces(perfdata);
    return "OK - " + name + " | " + perfdataStr, ExitOk;
  }

  /** The same run with standard input recognised: a base of `/dev/stdin` is read as is,
      without the readability check. */
  method RunCorrected(argv: seq<string>, readable: bool, age: int, scan: Scan) returns (line: string, code: int)
    ensures var d := Resolve(argv, readable, age);
      (d.Fail? ==> line == d.line && code == ExitUnknown)
      && (d.Proceed? ==> line == ReportLine(d.name, Rendered(Metrics(d.kind, scan))) && code == ExitOk)
  {
    if |argv| < 3 {
      return UsageLine, ExitUnknown;
    }
    var base := argv[1];
    var name := argv[2];
    var kind := if |argv| > 3 then argv[3] else DefaultKind;
    if name == "" {
      return NameRequiredLine, ExitUnknown;
    }
    var path := SnapshotPath(base, name);
    if path != StdinPath && !readable {
      return CannotReadLine(path), ExitUnknown;
    }
    if age >= MaxAge {
      return StaleLine(age), ExitUnknown;
    }
    var perfdata := CollectPerfdata(kind, scan);
    var perfdataStr := JoinSpaces(perfdata);
    return "OK - " + name + " | " + perfdataStr, ExitOk;
  }

  /** A run of the code as written that passes the checks prints a line whose block after
      `| ` reads back to the entries of the scan, in order, for any well-formed scan. */
  lemma ReportReadsBack(argv: seq<string>, readable: bool, age: int, scan: Scan)
    requires WellFormed(scan)
    requires ResolveAsWritten(argv, readable, age).Proceed?
    ensures var d := ResolveAsWritten(argv, readable, age);
      var line, head := ReportLine(d.name, Rendered(Metrics(d.kind, scan))), "OK - " + d.name + " | ";
      StartsWith(line, head) && ParsePerfdata(line[|head|..]) == Some(Metrics(d.kind, scan))
  {
    var d := ResolveAsWritten(argv, readable, age);
    MetricsPlain(d.kind, scan);
    ReportLineShape(d.name, Metrics(d.kind, scan));
  }

  /** The same for a run through the corrected chain, standard input included. */
  lemma ReportReadsBackCorrected(argv: seq<string>, readable: bool, age: int, scan: Scan)
    requires WellFormed(scan)
    requires Resolve(argv, readable, age).Proceed?
    ensures var d := Resolve(argv, readable, age);
      var line, head := ReportLine(d.name, Rendered(Metrics(d.kind, scan))), "OK - " + d.name + " | ";
      StartsWith(line, head) && ParsePerfdata(line[|head|..]) == Some(Metrics(d.kind, scan))
  {
    var d := Resolve(argv, readable, age);
    MetricsPlain(d.kind, scan);
    ReportLineShape(d.name, Metrics(d.kind, scan));
  }
}
