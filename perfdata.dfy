/** Performance data in the monitoring-plugin convention: `label=value;warn;crit`, here
    always with empty thresholds, joined by single spaces behind the status text. */
module Perfdata {
  import opened Text

  /** One performance-data entry before rendering. */
  datatype Metric = Metric(key: string, value: string)

  /** Exit code for a report the supervisor reads as OK. */
  const ExitOk: int := 0
  /** Exit code for every failure (UNKNOWN). */
  const ExitUnknown: int := 3

  /** `f"{key}={value};;"`: the label, an `=`, the value and two empty thresholds. */
  function Render(m: Metric): (e: string)
    ensures |e| == |m.key| + |m.value| + 3
    ensures e[..|m.key|] == m.key && e[|m.key|] == '='
    ensures e[|m.key| + 1..|e| - 2] == m.value && e[|e| - 2..] == ";;"
  {
    m.key + "=" + m.value + ";;"
  }

  function Rendered(ms: seq<Metric>): (r: seq<string>)
    ensures |r| == |ms|
  {
    seq(|ms|, i requires 0 <= i < |ms| => Render(ms[i]))
  }

  /** The success line: `OK - <name> | <entries joined by spaces>`. */
  function ReportLine(name: string, perfdata: seq<string>): (r: string)
    ensures StartsWith(r, "OK - " + name + " | ")
    ensures r[|"OK - " + name + " | "|..] == JoinSpaces(perfdata)
    ensures perfdata == [] ==> r == "OK - " + name + " | "
  {
    "OK - " + name + " | " + JoinSpaces(perfdata)
  }

  /** An entry that reads back unambiguously: no space anywhere, no `=` in its label. */
  predicate Plain(m: Metric) {
    ' ' !in m.key && '=' !in m.key && ' ' !in m.value
  }

  /** Reads one `label=value;;` entry back, splitting at the first `=`. */
  function ParseEntry(e: string): Option<Metric> {
    if |e| < 2 || e[|e| - 2..] != ";;" then None
    else
      var body := e[..|e| - 2];
      match Find(body, '=')
      case None => None
      case Some(k) => Some(Metric(body[..k], body[k + 1..]))
  }

  function ParseEntries(es: seq<string>): Option<seq<Metric>> {
    if es == [] then Some([])
    else match (ParseEntry(es[0]), ParseEntries(es[1..]))
      case (Some(m), Some(rest)) => Some([m] + rest)
      case _ => None
  }

  /** Reads the performance-data block (the text after `| `) back into entries. */
  function ParsePerfdata(s: string): Option<seq<Metric>> {
    ParseEntries(SplitSpaces(s))
  }

  lemma ParseRender(m: Metric)
    requires Plain(m)
    ensures ParseEntry(Render(m)) == Some(m)
  {
    var e := Render(m);
    var body := m.key + "=" + m.value;
    assert e[..|e| - 2] == body;
    assert e[|e| - 2..] == ";;";
    assert body[|m.key|] == '=' && body[..|m.key|] == m.key;
    assert body[|m.key| + 1..] == m.value;
    assert body[|m.key|] in body;
  }

  lemma {:induction false} ParseRendered(ms: seq<Metric>)
    requires forall i :: 0 <= i < |ms| ==> Plain(ms[i])
    ensures ParseEntries(Rendered(ms)) == Some(ms)
    decreases |ms|
  {
    if ms != [] {
      var es := Rendered(ms);
      RenderedTail(ms);
      ParseRender(ms[0]);
      ParseRendered(ms[1..]);
      ParseEntriesCons(es, ms[0], ms[1..]);
      assert ms == [ms[0]] + ms[1..];
    }
  }

  lemma ParseEntriesCons(es: seq<string>, m: Metric, rest: seq<Metric>)
    requires es != [] && ParseEntry(es[0]) == Some(m) && ParseEntries(es[1..]) == Some(rest)
    ensures ParseEntries(es) == Some([m] + rest)
  {
  }

  lemma RenderedTail(ms: seq<Metric>)
    requires ms != []
    ensures Rendered(ms)[0] == Render(ms[0]) && Rendered(ms)[1..] == Rendered(ms[1..])
  {
  }

  /** Joining rendered entries and reading the block back yields the same entries, in order. */
  lemma PerfdataRoundTrip(ms: seq<Metric>)
    requires forall i :: 0 <= i < |ms| ==> Plain(ms[i])
    ensures ParsePerfdata(JoinSpaces(Rendered(ms))) == Some(ms)
  {
    var es := Rendered(ms);
    forall i | 0 <= i < |es| ensures es[i] != [] && ' ' !in es[i] {
      var m := ms[i];
      assert es[i] == m.key + "=" + m.value + ";;";
    }
    SplitJoin(es);
    ParseRendered(ms);
  }

  /** The report line keeps the device name and the whole block, also when there are no entries. */
  lemma ReportLineShape(name: string, ms: seq<Metric>)
    requires forall i :: 0 <= i < |ms| ==> Plain(ms[i])
    ensures StartsWith(ReportLine(name, Rendered(ms)), "OK - " + name + " | ")
    ensures ms == [] ==> ReportLine(name, Rendered(ms)) == "OK - " + name + " | "
    ensures ParsePerfdata(ReportLine(name, Rendered(ms))[|"OK - " + name + " | "|..]) == Some(ms)
  {
    var line := ReportLine(name, Rendered(ms));
    var head := "OK - " + name + " | ";
    assert line == head + JoinSpaces(Rendered(ms));
    assert line[..|head|] == head;
    assert line[|head|..] == JoinSpaces(Rendered(ms));
    PerfdataRoundTrip(ms);
  }
}
