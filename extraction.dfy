/** The field extractor: what the pattern scans of one snapshot found, and the
    performance-data entries each category emits from it, in the order they are appended. */
module Extraction {
  import opened Text
  import opened Perfdata

  const Amps: string := "AMPS"
  const Kwh: string := "KWH"
  const Temp: string := "TEMP"
  const Voltage: string := "VOLTAGE"
  const Wattage: string := "WATTAGE"

  predicate KnownKind(kind: string) {
    kind == Amps || kind == Kwh || kind == Temp || kind == Voltage || kind == Wattage
  }

  /** One match of the breaker-row pattern `| name | n Amps | n Amps |`: the raw name
      text and the two numeric tokens, verbatim. */
  datatype BreakerMatch = BreakerMatch(name: string, trueRms: string, peakRms: string)

  /** One match of the circuit-group pattern
      `| Circuit Mn | n Amps | n Amps | n Volts | n Watts | n VA |`. */
  datatype CircuitMatch = CircuitMatch(
    group: string, trueRms: string, peakRms: string, voltage: string, power: string, va: string)

  /** What the scans of one snapshot found, each list in order of appearance:
      the tokens after every `Total kW-h:` line start, the Celsius renderings of every
      `Int. Temp:` line start, and the breaker-row and circuit-group matches. */
  datatype Scan = Scan(
    kwh: seq<string>, temp: seq<string>, breakers: seq<BreakerMatch>, circuits: seq<CircuitMatch>)

  /** A token of the class `[0-9.]+`. */
  predicate DecimalToken(s: string) {
    s != [] && forall i :: 0 <= i < |s| ==> IsDigit(s[i]) || s[i] == '.'
  }

  /** A token of the class `[0-9]+`. */
  predicate DigitToken(s: string) {
    s != [] && AllDigits(s)
  }

  /** A token of the class `\S+`. */
  predicate WordToken(s: string) {
    s != [] && forall i :: 0 <= i < |s| ==> !IsSpace(s[i])
  }

  predicate WellFormedBreaker(b: BreakerMatch) {
    b.name != [] && '|' !in b.name && DecimalToken(b.trueRms) && DecimalToken(b.peakRms)
  }

  predicate WellFormedCircuit(c: CircuitMatch) {
    |c.group| >= 2 && c.group[0] == 'M' && AllDigits(c.group[1..])
    && DecimalToken(c.trueRms) && DecimalToken(c.peakRms) && DecimalToken(c.voltage)
    && DigitToken(c.power) && DigitToken(c.va)
  }

  /** Every token has the shape its pattern group allows. */
  predicate WellFormed(scan: Scan) {
    (forall i :: 0 <= i < |scan.kwh| ==> WordToken(scan.kwh[i]))
    && (forall i :: 0 <= i < |scan.temp| ==> WordToken(scan.temp[i]))
    && (forall i :: 0 <= i < |scan.breakers| ==> WellFormedBreaker(scan.breakers[i]))
    && (forall i :: 0 <= i < |scan.circuits| ==> WellFormedCircuit(scan.circuits[i]))
  }

  // ---------------------------------------------------------------- breaker names

  /** `name.strip().replace(" ", "_").lower()`. */
  function Normalise(raw: string): (n: string)
    ensures |n| == |Strip(raw)| && ' ' !in n
  {
    Lower(ReplaceSpaces(Strip(raw)))
  }

  /** What normalisation does to one character of the stripped name. */
  function NormaliseChar(c: char): char {
    LowerChar(if c == ' ' then '_' else c)
  }

  /** The full-match language `input_a|ckt[0-9]+`. */
  predicate NamePattern(n: string) {
    n == "input_a" || (|n| > 3 && n[..3] == "ckt" && AllDigits(n[3..]))
  }

  /** `re.match(r"^(input_a|ckt[0-9]+)$", n)`: `$` also matches in front of a final newline. */
  predicate NameAccepted(n: string): (ok: bool)
    ensures ok ==> |n| >= 4 && (StartsWith(n, "input_a") || StartsWith(n, "ckt"))
  {
    NamePattern(n) || (n != [] && n[|n| - 1] == '\n' && NamePattern(n[..|n| - 1]))
  }

  /** `c` is the ASCII letter `lower` in either case. */
  predicate Letter(c: char, lower: char) {
    c == lower || c == UpperChar(lower)
  }

  /** `Input A` or `Input_A`, letters in either case. */
  predicate InputLabel(s: string) {
    |s| == 7 && Letter(s[0], 'i') && Letter(s[1], 'n') && Letter(s[2], 'p') && Letter(s[3], 'u')
    && Letter(s[4], 't') && (s[5] == ' ' || s[5] == '_') && Letter(s[6], 'a')
  }

  /** `CKT` in either case, followed by one or more digits. */
  predicate CircuitBreakerLabel(s: string) {
    |s| > 3 && Letter(s[0], 'c') && Letter(s[1], 'k') && Letter(s[2], 't') && AllDigits(s[3..])
  }

  /** The raw labels the filter lets through, stated on the stripped label. */
  predicate BreakerLabel(s: string) {
    InputLabel(s) || CircuitBreakerLabel(s)
  }

  // ---------------------------------------------------------------- emission

  function BreakerTrue(b: BreakerMatch): Metric {
    Metric(Normalise(b.name) + "_true_rms_current", b.trueRms)
  }

  function BreakerPeak(b: BreakerMatch): Metric {
    Metric(Normalise(b.name) + "_peak_rms_current", b.peakRms)
  }

  /** The filter: an accepted name, and only for the AMPS category. */
  predicate BreakerEmits(kind: string, b: BreakerMatch) {
    NameAccepted(Normalise(b.name)) && kind == Amps
  }

  /** The entries of one breaker match: its true-RMS and peak-RMS tokens, or nothing. */
  function BreakerRowMetrics(kind: string, b: BreakerMatch): (r: seq<Metric>)
    ensures r != [] <==> BreakerEmits(kind, b)
    ensures r != [] ==> |r| == 2 && r[0].value == b.trueRms && r[1].value == b.peakRms
  {
    if BreakerEmits(kind, b) then [BreakerTrue(b), BreakerPeak(b)] else []
  }

  /** The entries of the breaker loop, in match order. */
  function BreakerMetrics(kind: string, bs: seq<BreakerMatch>): (r: seq<Metric>)
    ensures |r| <= 2 * |bs|
    ensures kind != Amps ==> r == []
    decreases |bs|
  {
    if bs == [] then [] else BreakerMetrics(kind, bs[..|bs| - 1]) + BreakerRowMetrics(kind, bs[|bs| - 1])
  }

  /** `circuit_<m><suffix>=<value>` with `<m>` the lower-cased group id. */
  function CircuitEntry(c: CircuitMatch, suffix: string, value: string): Metric {
    Metric("circuit_" + Lower(c.group) + suffix, value)
  }

  /** The entries of one circuit-group match: two under AMPS, one under VOLTAGE or WATTAGE. */
  function CircuitRowMetrics(kind: string, c: CircuitMatch): (r: seq<Metric>)
    ensures |r| == (if kind == Amps then 2 else if kind == Voltage || kind == Wattage then 1 else 0)
  {
    KindsDistinct();
    (if kind == Amps
     then [CircuitEntry(c, "_true_rms_current", c.trueRms), CircuitEntry(c, "_peak_rms_current", c.peakRms)]
     else [])
    + (if kind == Voltage then [CircuitEntry(c, "_voltage", c.voltage)] else [])
    + (if kind == Wattage then [CircuitEntry(c, "_wattage", c.power)] else [])
  }

  /** The entries of the circuit-group loop, in match order. */
  function CircuitMetrics(kind: string, cs: seq<CircuitMatch>): (r: seq<Metric>)
    ensures kind == Amps ==> |r| == 2 * |cs|
    ensures kind == Voltage || kind == Wattage ==> |r| == |cs|
    ensures kind != Amps && kind != Voltage && kind != Wattage ==> r == []
    decreases |cs|
  {
    if cs == [] then [] else CircuitMetrics(kind, cs[..|cs| - 1]) + CircuitRowMetrics(kind, cs[|cs| - 1])
  }

  /** The KWH branch: the first `Total kW-h:` token, stripped. */
  function KwhMetrics(kind: string, kwh: seq<string>): (r: seq<Metric>)
    ensures |r| <= 1
    ensures r != [] <==> kind == Kwh && |kwh| > 0
    ensures r != [] ==> r[0].key == "total_kwh" && Trimmed(r[0].value)
  {
    if kind == Kwh && |kwh| > 0 then StripTrimmed(kwh[0]); [Metric("total_kwh", Strip(kwh[0]))] else []
  }

  /** The TEMP branch: the Celsius rendering of the first `Int. Temp:` token. */
  function TempMetrics(kind: string, temp: seq<string>): (r: seq<Metric>)
    ensures |r| <= 1
    ensures r != [] <==> kind == Temp && |temp| > 0
    ensures r != [] ==> r[0].key == "internal_temp_celsius" && r[0].value == temp[0]
  {
    if kind == Temp && |temp| > 0 then [Metric("internal_temp_celsius", temp[0])] else []
  }

  /** Every entry of the report, in the order the code appends them. */
  function Metrics(kind: string, scan: Scan): (r: seq<Metric>)
    ensures kind == Kwh ==> r == KwhMetrics(kind, scan.kwh)
    ensures kind == Temp ==> r == TempMetrics(kind, scan.temp)
    ensures kind == Amps ==> r == BreakerMetrics(kind, scan.breakers) + CircuitMetrics(kind, scan.circuits)
    ensures kind == Voltage || kind == Wattage ==> r == CircuitMetrics(kind, scan.circuits)
    ensures !KnownKind(kind) ==> r == []
  {
    KindsDistinct();
    var k, t := KwhMetrics(kind, scan.kwh), TempMetrics(kind, scan.temp);
    var b, c := BreakerMetrics(kind, scan.breakers), CircuitMetrics(kind, scan.circuits);
    ConcatParts(k, t, b, c);
    k + t + b + c
  }

  /** Which part survives when the other parts of the report are empty. */
  lemma ConcatParts(k: seq<Metric>, t: seq<Metric>, b: seq<Metric>, c: seq<Metric>)
    ensures t == [] && b == [] && c == [] ==> k + t + b + c == k
    ensures k == [] && b == [] && c == [] ==> k + t + b + c == t
    ensures k == [] && t == [] ==> k + t + b + c == b + c
    ensures k == [] && t == [] && b == [] ==> k + t + b + c == c
  {
  }

  // ---------------------------------------------------------------- normaliser lemmas

  /** The normalised name: as long as the stripped name, character by character its
      normalised form; it is trimmed, holds no space and is already lower-case. */
  lemma NormaliseShape(raw: string)
    ensures var s, n := Strip(raw), Normalise(raw);
      |n| == |s| && (forall i :: 0 <= i < |n| ==> n[i] == NormaliseChar(s[i]))
      && Trimmed(n) && ' ' !in n && Lower(n) == n
  {
    var s, n := Strip(raw), Normalise(raw);
    StripTrimmed(raw);
    assert |n| == |s|;
    forall i | 0 <= i < |n| ensures n[i] == NormaliseChar(s[i]) && n[i] != ' ' && LowerChar(n[i]) == n[i] {
      assert n[i] == LowerChar(ReplaceSpaces(s)[i]);
    }
    if n != [] {
      NormaliseCharKeepsNonSpace(s[0]);
      NormaliseCharKeepsNonSpace(s[|s| - 1]);
    }
  }

  lemma NormaliseCharKeepsNonSpace(c: char)
    requires !IsSpace(c)
    ensures !IsSpace(NormaliseChar(c))
  {
  }

  /** Normalising a normalised name changes nothing. */
  lemma NormaliseIdempotent(raw: string)
    ensures Normalise(Normalise(raw)) == Normalise(raw)
  {
    var n := Normalise(raw);
    NormaliseShape(raw);
    StripTrimmedString(n);
    ReplaceWithoutSpaces(n);
  }

  /** A normalised name never ends in a newline, so `$` matching before one is moot. */
  lemma AcceptedIsFullMatch(raw: string)
    ensures NameAccepted(Normalise(raw)) <==> NamePattern(Normalise(raw))
  {
    NormaliseShape(raw);
  }

  /** `input_a` spelled character by character. */
  lemma InputAChars(n: string)
    ensures n == "input_a" <==>
      (|n| == 7 && n[0] == 'i' && n[1] == 'n' && n[2] == 'p' && n[3] == 'u' && n[4] == 't'
       && n[5] == '_' && n[6] == 'a')
  {
  }

  /** One character after normalisation: which raw characters give a letter, `_` or a digit. */
  lemma NormaliseCharIs(c: char, x: char)
    requires 'a' <= x <= 'z'
    ensures NormaliseChar(c) == x <==> Letter(c, x)
    ensures NormaliseChar(c) == '_' <==> (c == ' ' || c == '_')
    ensures IsDigit(NormaliseChar(c)) <==> IsDigit(c)
  {
  }

  lemma NormaliseAt(raw: string)
    ensures |Normalise(raw)| == |Strip(raw)|
    ensures forall i :: 0 <= i < |Normalise(raw)| ==> Normalise(raw)[i] == NormaliseChar(Strip(raw)[i])
  {
  }

  lemma InputAccepted(raw: string)
    ensures Normalise(raw) == "input_a" <==> InputLabel(Strip(raw))
  {
    var s, n := Strip(raw), Normalise(raw);
    NormaliseAt(raw);
    InputAChars(n);
    if |s| == 7 {
      NormaliseCharIs(s[0], 'i');
      NormaliseCharIs(s[1], 'n');
      NormaliseCharIs(s[2], 'p');
      NormaliseCharIs(s[3], 'u');
      NormaliseCharIs(s[4], 't');
      NormaliseCharIs(s[5], 'a');
      NormaliseCharIs(s[6], 'a');
    }
  }

  lemma CircuitBreakerAccepted(raw: string)
    ensures (|Normalise(raw)| > 3 && Normalise(raw)[..3] == "ckt" && AllDigits(Normalise(raw)[3..]))
            <==> CircuitBreakerLabel(Strip(raw))
  {
    var s, n := Strip(raw), Normalise(raw);
    NormaliseAt(raw);
    if |s| > 3 {
      assert n[..3] == "ckt" <==> (n[0] == 'c' && n[1] == 'k' && n[2] == 't');
      NormaliseCharIs(s[0], 'c');
      NormaliseCharIs(s[1], 'k');
      NormaliseCharIs(s[2], 't');
      forall i | 3 <= i < |n| ensures IsDigit(n[i]) <==> IsDigit(s[i]) {
        NormaliseCharIs(s[i], 'a');
      }
      assert AllDigits(n[3..]) <==> AllDigits(s[3..]) by {
        assert forall i :: 0 <= i < |n| - 3 ==> n[3..][i] == n[i + 3] && s[3..][i] == s[i + 3];
      }
    }
  }

  /** The filter accepts exactly the labels `Input A`, `Input_A` and `CKT<digits>` in any
      letter case, once surrounding whitespace is stripped. */
  lemma AcceptedLabels(raw: string)
    ensures NameAccepted(Normalise(raw)) <==> BreakerLabel(Strip(raw))
  {
    AcceptedIsFullMatch(raw);
    InputAccepted(raw);
    CircuitBreakerAccepted(raw);
  }

  lemma NormaliseExampleCkt()
    ensures Normalise("CKT1") == "ckt1" && NameAccepted(Normalise("CKT1"))
  {
    StripTrimmedString("CKT1");
    ReplaceWithoutSpaces("CKT1");
    assert Lower("CKT1") == "ckt1";
  }

  lemma NormaliseExampleInput()
    ensures Normalise(" Input A ") == "input_a" && NameAccepted(Normalise(" Input A "))
  {
    StripAround(" ", "Input A", " ");
    assert " " + "Input A" + " " == " Input A ";
    assert ReplaceSpaces("Input A") == "Input_A";
    assert Lower("Input_A") == "input_a";
  }

  lemma NormaliseExampleDoubleSpace()
    ensures Normalise("Input  A") == "input__a" && !NameAccepted(Normalise("Input  A"))
  {
    StripTrimmedString("Input  A");
    assert ReplaceSpaces("Input  A") == "Input__A";
    assert Lower("Input__A") == "input__a";
    AcceptedLabels("Input  A");
  }

  /** The stripped label of a row that starts with `Circuit`. */
  lemma TrimStartCircuit(lead: string, rest: string)
    requires AllSpace(lead)
    ensures TrimStart(lead + ("Circuit" + rest)) == "Circuit" + rest
  {
    var tail := "Circuit" + rest;
    assert tail[0] == 'C';
    TrimStartSkips(lead, tail);
  }

  lemma TrimEndCircuit(rest: string)
    ensures TrimEnd("Circuit" + rest) == "Circuit" + TrimEnd(rest)
  {
    TrimEndKeeps("Circuit", rest);
  }

  lemma StripCircuitLabel(lead: string, rest: string)
    requires AllSpace(lead)
    ensures var s := Strip(lead + "Circuit" + rest);
      |s| >= 7 && s[0] == 'C' && s[1] == 'i'
  {
    assert lead + "Circuit" + rest == lead + ("Circuit" + rest);
    TrimStartCircuit(lead, rest);
    assert TrimStart(lead + ("Circuit" + rest)) == "Circuit" + rest;
    TrimEndCircuit(rest);
    var s := Strip(lead + "Circuit" + rest);
    assert s == "Circuit" + TrimEnd(rest);
    assert s[..7] == "Circuit";
  }

  /** Any row whose label starts with `Circuit` is refused by the breaker filter, so a
      circuit-group row never yields a breaker entry. */
  lemma CircuitLabelRejected(kind: string, lead: string, rest: string, t: string, p: string)
    requires AllSpace(lead)
    ensures !NameAccepted(Normalise(lead + "Circuit" + rest))
    ensures BreakerRowMetrics(kind, BreakerMatch(lead + "Circuit" + rest, t, p)) == []
  {
    StripCircuitLabel(lead, rest);
    AcceptedLabels(lead + "Circuit" + rest);
  }

  /** `Circuit ` followed by a group id `M<digits>` is already trimmed. */
  lemma CircuitTagTrimmed(group: string)
    requires |group| >= 2 && group[0] == 'M' && AllDigits(group[1..])
    ensures Trimmed("Circuit " + group) && ' ' !in group
  {
    var tag := "Circuit " + group;
    assert tag[|tag| - 1] == group[1..][|group| - 2];
    forall i | 0 <= i < |group| ensures group[i] != ' ' {
      if i > 0 { assert group[i] == group[1..][i - 1]; }
    }
  }

  lemma StripCircuitTag(group: string, trail: string)
    requires |group| >= 2 && group[0] == 'M' && AllDigits(group[1..]) && AllSpace(trail)
    ensures Strip("Circuit " + group + trail) == "Circuit " + group
  {
    CircuitTagTrimmed(group);
    StripAround([], "Circuit " + group, trail);
    assert [] + ("Circuit " + group) + trail == "Circuit " + group + trail;
  }

  lemma ReplaceCircuitTag(group: string)
    requires ' ' !in group
    ensures ReplaceSpaces("Circuit " + group) == "Circuit_" + group
  {
    ReplaceAppend("Circuit ", group);
    ReplaceWithoutSpaces(group);
    assert ReplaceSpaces("Circuit ") == "Circuit_";
  }

  lemma LowerCircuitTag(group: string)
    ensures Lower("Circuit_" + group) == "circuit_" + Lower(group)
  {
    LowerAppend("Circuit_", group);
    assert Lower("Circuit_") == "circuit_";
  }

  /** The breaker pattern reads a circuit-group row `| Circuit Mn | ...` with the label
      `Circuit Mn` and trailing whitespace, which normalises to `circuit_mn`. */
  lemma CircuitLabelNormalises(c: CircuitMatch, trail: string)
    requires WellFormedCircuit(c) && AllSpace(trail)
    ensures Normalise("Circuit " + c.group + trail) == "circuit_" + Lower(c.group)
  {
    StripCircuitTag(c.group, trail);
    CircuitTagTrimmed(c.group);
    ReplaceCircuitTag(c.group);
    LowerCircuitTag(c.group);
  }

  // ---------------------------------------------------------------- breaker lemmas

  /** The breaker entries of two runs of matches are those of each, in order. */
  lemma {:induction false} BreakerMetricsAppend(kind: string, a: seq<BreakerMatch>, b: seq<BreakerMatch>)
    ensures BreakerMetrics(kind, a + b) == BreakerMetrics(kind, a) + BreakerMetrics(kind, b)
    decreases |b|
  {
    if b == [] {
      assert a + b == a;
    } else {
      var b0 := b[..|b| - 1];
      assert (a + b)[..|a + b| - 1] == a + b0;
      assert (a + b)[|a + b| - 1] == b[|b| - 1];
      BreakerMetricsAppend(kind, a, b0);
    }
  }

  /** An entry of one breaker row is its true-RMS or its peak-RMS entry, under AMPS only. */
  lemma BreakerRowSound(kind: string, b: BreakerMatch, m: Metric)
    requires m in BreakerRowMetrics(kind, b)
    ensures BreakerEmits(kind, b) && (m == BreakerTrue(b) || m == BreakerPeak(b))
  {
  }

  /** Every breaker entry is the true-RMS or peak-RMS entry of an accepted row, and there
      are none outside AMPS. */
  lemma {:induction false} BreakerMetricsSound(kind: string, bs: seq<BreakerMatch>)
    ensures forall m :: m in BreakerMetrics(kind, bs) ==>
      exists b :: b in bs && BreakerEmits(kind, b) && (m == BreakerTrue(b) || m == BreakerPeak(b))
    decreases |bs|
  {
    if bs != [] {
      var init, last := bs[..|bs| - 1], bs[|bs| - 1];
      BreakerMetricsSound(kind, init);
      assert BreakerMetrics(kind, bs) == BreakerMetrics(kind, init) + BreakerRowMetrics(kind, last);
      forall m | m in BreakerMetrics(kind, bs)
        ensures exists b :: b in bs && BreakerEmits(kind, b) && (m == BreakerTrue(b) || m == BreakerPeak(b))
      {
        if m in BreakerMetrics(kind, init) {
          var b :| b in init && BreakerEmits(kind, b) && (m == BreakerTrue(b) || m == BreakerPeak(b));
          assert b in bs;
        } else {
          BreakerRowSound(kind, last, m);
          assert last in bs;
        }
      }
    }
  }

  lemma BreakerSingle(kind: string, b: BreakerMatch)
    ensures BreakerMetrics(kind, [b]) == BreakerRowMetrics(kind, b)
  {
    assert [b][..0] == [];
  }

  /** An accepted row at position `j` puts its true-RMS entry and then its peak-RMS entry
      right after the entries of the rows before it. */
  lemma BreakerRowEmitted(bs: seq<BreakerMatch>, j: nat)
    requires j < |bs| && NameAccepted(Normalise(bs[j].name))
    ensures var ms, p := BreakerMetrics(Amps, bs), |BreakerMetrics(Amps, bs[..j])|;
      p + 1 < |ms| && ms[p] == BreakerTrue(bs[j]) && ms[p + 1] == BreakerPeak(bs[j])
  {
    var pre, b, post := bs[..j], bs[j], bs[j + 1..];
    assert bs == (pre + [b]) + post;
    BreakerMetricsAppend(Amps, pre + [b], post);
    BreakerMetricsAppend(Amps, pre, [b]);
    BreakerSingle(Amps, b);
    var x, y := BreakerMetrics(Amps, pre), BreakerMetrics(Amps, post);
    var ms := BreakerMetrics(Amps, bs);
    assert ms == x + [BreakerTrue(b), BreakerPeak(b)] + y;
    assert ms[|x|] == BreakerTrue(b) && ms[|x| + 1] == BreakerPeak(b);
  }

  /** The number of rows the filter accepts. */
  function AcceptedCount(bs: seq<BreakerMatch>): nat
    decreases |bs|
  {
    if bs == [] then 0
    else AcceptedCount(bs[..|bs| - 1]) + (if NameAccepted(Normalise(bs[|bs| - 1].name)) then 1 else 0)
  }

  /** Under AMPS every accepted row yields exactly two entries. */
  lemma {:induction false} BreakerCount(bs: seq<BreakerMatch>)
    ensures |BreakerMetrics(Amps, bs)| == 2 * AcceptedCount(bs)
    decreases |bs|
  {
    if bs != [] {
      BreakerCount(bs[..|bs| - 1]);
    }
  }

  // ---------------------------------------------------------------- circuit lemmas

  /** Circuit-group entries, position by position: two per row under AMPS, one voltage or
      one wattage entry per row under VOLTAGE or WATTAGE, none under any other category. */
  lemma {:induction false} CircuitMetricsAt(kind: string, cs: seq<CircuitMatch>)
    ensures var ms := CircuitMetrics(kind, cs);
      (kind == Amps ==>
        |ms| == 2 * |cs|
        && forall i :: 0 <= i < |cs| ==>
             ms[2 * i] == CircuitEntry(cs[i], "_true_rms_current", cs[i].trueRms)
             && ms[2 * i + 1] == CircuitEntry(cs[i], "_peak_rms_current", cs[i].peakRms))
      && (kind == Voltage ==>
        |ms| == |cs| && forall i :: 0 <= i < |cs| ==> ms[i] == CircuitEntry(cs[i], "_voltage", cs[i].voltage))
      && (kind == Wattage ==>
        |ms| == |cs| && forall i :: 0 <= i < |cs| ==> ms[i] == CircuitEntry(cs[i], "_wattage", cs[i].power))
      && (kind != Amps && kind != Voltage && kind != Wattage ==> ms == [])
    decreases |cs|
  {
    if cs != [] {
      var n := |cs|;
      var init := cs[..n - 1];
      CircuitMetricsAt(kind, init);
      var prev := CircuitMetrics(kind, init);
      var ms := CircuitMetrics(kind, cs);
      var row := CircuitRowMetrics(kind, cs[n - 1]);
      assert ms == prev + row;
      if kind == Amps {
        forall i | 0 <= i < n
          ensures ms[2 * i] == CircuitEntry(cs[i], "_true_rms_current", cs[i].trueRms)
          ensures ms[2 * i + 1] == CircuitEntry(cs[i], "_peak_rms_current", cs[i].peakRms)
        {
          if i < n - 1 {
            assert init[i] == cs[i];
            assert ms[2 * i] == prev[2 * i] && ms[2 * i + 1] == prev[2 * i + 1];
          } else {
            assert ms[2 * i] == row[0] && ms[2 * i + 1] == row[1];
          }
        }
      } else if kind == Voltage || kind == Wattage {
        forall i | 0 <= i < n
          ensures ms[i] == CircuitEntry(cs[i], if kind == Voltage then "_voltage" else "_wattage",
                                        if kind == Voltage then cs[i].voltage else cs[i].power)
        {
          if i < n - 1 {
            assert init[i] == cs[i];
            assert ms[i] == prev[i];
          } else {
            assert ms[i] == row[0];
          }
        }
      }
    }
  }

  /** The VA column never reaches the output: rows that differ only in VA give the same entries. */
  lemma {:induction false} VaNeverEmitted(kind: string, cs: seq<CircuitMatch>, ds: seq<CircuitMatch>)
    requires |cs| == |ds|
    requires forall i :: 0 <= i < |cs| ==> cs[i].(va := "") == ds[i].(va := "")
    ensures CircuitMetrics(kind, cs) == CircuitMetrics(kind, ds)
    decreases |cs|
  {
    if cs != [] {
      var n := |cs|;
      assert cs[n - 1].(va := "") == ds[n - 1].(va := "");
      assert CircuitRowMetrics(kind, cs[n - 1]) == CircuitRowMetrics(kind, ds[n - 1]);
      VaNeverEmitted(kind, cs[..n - 1], ds[..n - 1]);
    }
  }

  // ---------------------------------------------------------------- category isolation

  lemma StripWord(t: string)
    requires WordToken(t)
    ensures Strip(t) == t
  {
    StripAround([], t, []);
    assert [] + t + [] == t;
  }

  /** KWH: at most one entry, `total_kwh`, from the first match; the token is copied as is. */
  lemma KwhIsolation(scan: Scan)
    ensures Metrics(Kwh, scan) == (if |scan.kwh| > 0 then [Metric("total_kwh", Strip(scan.kwh[0]))] else [])
    ensures WellFormed(scan) && |scan.kwh| > 0 ==> Metrics(Kwh, scan) == [Metric("total_kwh", scan.kwh[0])]
  {
    CircuitMetricsAt(Kwh, scan.circuits);
    if WellFormed(scan) && |scan.kwh| > 0 {
      StripWord(scan.kwh[0]);
    }
  }

  /** TEMP: at most one entry, `internal_temp_celsius`, from the first match. */
  lemma TempIsolation(scan: Scan)
    ensures Metrics(Temp, scan) ==
      (if |scan.temp| > 0 then [Metric("internal_temp_celsius", scan.temp[0])] else [])
  {
    CircuitMetricsAt(Temp, scan.circuits);
  }

  /** VOLTAGE and WATTAGE: one `circuit_<m>_voltage` (group 4) or `circuit_<m>_wattage`
      (group 5) entry per circuit-group row, in match order, and nothing else. */
  lemma CircuitKindsIsolation(kind: string, scan: Scan)
    requires kind == Voltage || kind == Wattage
    ensures var ms, cs := Metrics(kind, scan), scan.circuits;
      |ms| == |cs|
      && forall i :: 0 <= i < |cs| ==>
           ms[i] == (if kind == Voltage then CircuitEntry(cs[i], "_voltage", cs[i].voltage)
                     else CircuitEntry(cs[i], "_wattage", cs[i].power))
  {
    CircuitMetricsAt(kind, scan.circuits);
    assert Metrics(kind, scan) == CircuitMetrics(kind, scan.circuits);
  }

  predicate IsCircuitKey(key: string) {
    StartsWith(key, "circuit_")
  }

  /** The tag of an accepted breaker entry starts `in` or `ck`, never `ci`, and, as its
      name, holds neither a space nor `=`. */
  lemma BreakerKeyShape(b: BreakerMatch, suffix: string)
    requires NameAccepted(Normalise(b.name))
    requires ' ' !in suffix && '=' !in suffix
    ensures var key := Normalise(b.name) + suffix;
      !IsCircuitKey(key) && ' ' !in key && '=' !in key
  {
    var n := Normalise(b.name);
    AcceptedIsFullMatch(b.name);
    AcceptedNamePlain(b.name);
    var key := n + suffix;
    assert key[1] == n[1];
    assert n[1] == 'n' || n[1] == 'k';
    assert "circuit_"[1] == 'i';
  }

  lemma SuffixesPlain()
    ensures ' ' !in "_true_rms_current" && '=' !in "_true_rms_current"
    ensures ' ' !in "_peak_rms_current" && '=' !in "_peak_rms_current"
  {
  }

  lemma BreakerRowKeys(kind: string, b: BreakerMatch)
    ensures forall m :: m in BreakerRowMetrics(kind, b) ==>
      !IsCircuitKey(m.key) && ' ' !in m.key && '=' !in m.key
  {
    if BreakerEmits(kind, b) {
      SuffixesPlain();
      BreakerKeyShape(b, "_true_rms_current");
      BreakerKeyShape(b, "_peak_rms_current");
      assert BreakerRowMetrics(kind, b) == [BreakerTrue(b), BreakerPeak(b)];
    }
  }

  /** No breaker entry looks like a circuit-group entry; none has a space or `=` in its tag. */
  lemma {:induction false} BreakerKeys(kind: string, bs: seq<BreakerMatch>)
    ensures forall m :: m in BreakerMetrics(kind, bs) ==>
      !IsCircuitKey(m.key) && ' ' !in m.key && '=' !in m.key
    decreases |bs|
  {
    if bs != [] {
      BreakerKeys(kind, bs[..|bs| - 1]);
      BreakerRowKeys(kind, bs[|bs| - 1]);
    }
  }

  lemma DecimalTokenNoSpace(t: string)
    requires DecimalToken(t)
    ensures ' ' !in t
  {
  }

  lemma {:induction false} BreakerPlain(kind: string, bs: seq<BreakerMatch>)
    requires forall i :: 0 <= i < |bs| ==> WellFormedBreaker(bs[i])
    ensures forall m :: m in BreakerMetrics(kind, bs) ==> Plain(m)
    decreases |bs|
  {
    if bs != [] {
      var init, last := bs[..|bs| - 1], bs[|bs| - 1];
      assert forall i :: 0 <= i < |init| ==> init[i] == bs[i];
      BreakerPlain(kind, init);
      BreakerRowKeys(kind, last);
      assert WellFormedBreaker(last);
      DecimalTokenNoSpace(last.trueRms);
      DecimalTokenNoSpace(last.peakRms);
    }
  }

  lemma CircuitEntryKey(c: CircuitMatch, suffix: string, value: string)
    ensures IsCircuitKey(CircuitEntry(c, suffix, value).key)
  {
    var key := CircuitEntry(c, suffix, value).key;
    assert key == "circuit_" + (Lower(c.group) + suffix);
  }

  lemma {:induction false} CircuitKeys(kind: string, cs: seq<CircuitMatch>)
    ensures forall m :: m in CircuitMetrics(kind, cs) ==> IsCircuitKey(m.key)
    decreases |cs|
  {
    if cs != [] {
      var c := cs[|cs| - 1];
      CircuitKeys(kind, cs[..|cs| - 1]);
      CircuitEntryKey(c, "_true_rms_current", c.trueRms);
      CircuitEntryKey(c, "_peak_rms_current", c.peakRms);
      CircuitEntryKey(c, "_voltage", c.voltage);
      CircuitEntryKey(c, "_wattage", c.power);
    }
  }

  lemma GroupPlain(c: CircuitMatch)
    requires WellFormedCircuit(c)
    ensures ' ' !in Lower(c.group) && '=' !in Lower(c.group)
  {
    forall q | 0 <= q < |c.group| ensures Lower(c.group)[q] != ' ' && Lower(c.group)[q] != '=' {
      if q > 0 { assert c.group[q] == c.group[1..][q - 1]; }
    }
  }

  lemma CircuitEntryPlain(c: CircuitMatch, suffix: string, value: string)
    requires WellFormedCircuit(c)
    requires ' ' !in suffix && '=' !in suffix && ' ' !in value
    ensures Plain(CircuitEntry(c, suffix, value))
  {
    GroupPlain(c);
    assert ' ' !in "circuit_" && '=' !in "circuit_";
  }

  lemma CircuitRowPlain(kind: string, c: CircuitMatch)
    requires WellFormedCircuit(c)
    ensures forall m :: m in CircuitRowMetrics(kind, c) ==> Plain(m)
  {
    DecimalTokenNoSpace(c.trueRms);
    DecimalTokenNoSpace(c.peakRms);
    DecimalTokenNoSpace(c.voltage);
    assert ' ' !in c.power;
    CircuitEntryPlain(c, "_true_rms_current", c.trueRms);
    CircuitEntryPlain(c, "_peak_rms_current", c.peakRms);
    CircuitEntryPlain(c, "_voltage", c.voltage);
    CircuitEntryPlain(c, "_wattage", c.power);
  }

  lemma {:induction false} CircuitPlain(kind: string, cs: seq<CircuitMatch>)
    requires forall i :: 0 <= i < |cs| ==> WellFormedCircuit(cs[i])
    ensures forall m :: m in CircuitMetrics(kind, cs) ==> Plain(m)
    decreases |cs|
  {
    if cs != [] {
      var init, last := cs[..|cs| - 1], cs[|cs| - 1];
      assert forall i :: 0 <= i < |init| ==> init[i] == cs[i];
      CircuitPlain(kind, init);
      assert WellFormedCircuit(last);
      CircuitRowPlain(kind, last);
    }
  }

  /** The five category names are pairwise distinct. */
  lemma KindsDistinct()
    ensures Amps != Kwh && Amps != Temp && Amps != Voltage && Amps != Wattage
    ensures Kwh != Temp && Kwh != Voltage && Kwh != Wattage
    ensures Temp != Voltage && Temp != Wattage && Voltage != Wattage
  {
    assert Amps[0] == 'A' && Kwh[0] == 'K' && Temp[0] == 'T' && Voltage[0] == 'V' && Wattage[0] == 'W';
  }

  /** Entries split at `b` into non-circuit ones and then circuit ones: once a circuit entry
      appears, every later entry is one. */
  lemma OrderAfterSplit(ms: seq<Metric>, b: nat)
    requires b <= |ms|
    requires forall k :: 0 <= k < b ==> !IsCircuitKey(ms[k].key)
    requires forall k :: b <= k < |ms| ==> IsCircuitKey(ms[k].key)
    ensures forall i, j :: 0 <= i < j < |ms| && IsCircuitKey(ms[i].key) ==> IsCircuitKey(ms[j].key)
  {
  }

  lemma AmpsSplit(scan: Scan)
    ensures Metrics(Amps, scan) == BreakerMetrics(Amps, scan.breakers) + CircuitMetrics(Amps, scan.circuits)
  {
    KindsDistinct();
    assert KwhMetrics(Amps, scan.kwh) == [] && TempMetrics(Amps, scan.temp) == [];
  }

  lemma SplitKeys(bm: seq<Metric>, cm: seq<Metric>)
    requires forall m :: m in bm ==> !IsCircuitKey(m.key)
    requires forall m :: m in cm ==> IsCircuitKey(m.key)
    ensures var ms := bm + cm;
      (forall k :: 0 <= k < |bm| ==> !IsCircuitKey(ms[k].key))
      && (forall k :: |bm| <= k < |ms| ==> IsCircuitKey(ms[k].key))
  {
    var ms := bm + cm;
    forall k | 0 <= k < |bm| ensures !IsCircuitKey(ms[k].key) {
      assert ms[k] == bm[k] && bm[k] in bm;
    }
    forall k | |bm| <= k < |ms| ensures IsCircuitKey(ms[k].key) {
      assert ms[k] == cm[k - |bm|] && cm[k - |bm|] in cm;
    }
  }

  /** AMPS: breaker entries, then circuit-group entries; no breaker entry looks like a
      circuit-group one, so once a `circuit_` entry appears every later entry is one. */
  lemma AmpsOrder(scan: Scan)
    ensures Metrics(Amps, scan) == BreakerMetrics(Amps, scan.breakers) + CircuitMetrics(Amps, scan.circuits)
    ensures var ms, b := Metrics(Amps, scan), |BreakerMetrics(Amps, scan.breakers)|;
      (forall k :: 0 <= k < b ==> !IsCircuitKey(ms[k].key))
      && (forall k :: b <= k < |ms| ==> IsCircuitKey(ms[k].key))
      && (forall i, j :: 0 <= i < j < |ms| && IsCircuitKey(ms[i].key) ==> IsCircuitKey(ms[j].key))
  {
    var bm, cm := BreakerMetrics(Amps, scan.breakers), CircuitMetrics(Amps, scan.circuits);
    AmpsSplit(scan);
    BreakerKeys(Amps, scan.breakers);
    CircuitKeys(Amps, scan.circuits);
    SplitKeys(bm, cm);
    OrderAfterSplit(bm + cm, |bm|);
  }

  // ---------------------------------------------------------------- output shape

  lemma AcceptedNamePlain(raw: string)
    requires NameAccepted(Normalise(raw))
    ensures ' ' !in Normalise(raw) && '=' !in Normalise(raw)
  {
    AcceptedIsFullMatch(raw);
    var n := Normalise(raw);
    if n != "input_a" {
      assert forall i :: 3 <= i < |n| ==> n[i] == n[3..][i - 3];
    }
  }

  lemma WordNoSpace(t: string)
    requires WordToken(t)
    ensures ' ' !in t
  {
    assert IsSpace(' ');
  }

  lemma KwhPlain(kind: string, kwh: seq<string>)
    requires forall i :: 0 <= i < |kwh| ==> WordToken(kwh[i])
    ensures forall m :: m in KwhMetrics(kind, kwh) ==> Plain(m)
  {
    assert ' ' !in "total_kwh" && '=' !in "total_kwh";
    if kind == Kwh && |kwh| > 0 {
      var t := kwh[0];
      StripWord(t);
      WordNoSpace(t);
      assert KwhMetrics(kind, kwh) == [Metric("total_kwh", t)];
    }
  }

  lemma TempPlain(kind: string, temp: seq<string>)
    requires forall i :: 0 <= i < |temp| ==> WordToken(temp[i])
    ensures forall m :: m in TempMetrics(kind, temp) ==> Plain(m)
  {
    if |temp| > 0 {
      WordNoSpace(temp[0]);
    }
    assert ' ' !in "internal_temp_celsius" && '=' !in "internal_temp_celsius";
  }

  lemma AllPlain(ms: seq<Metric>)
    requires forall m :: m in ms ==> Plain(m)
    ensures forall k :: 0 <= k < |ms| ==> Plain(ms[k])
  {
    forall k | 0 <= k < |ms| ensures Plain(ms[k]) {
      assert ms[k] in ms;
    }
  }

  /** No entry of a well-formed scan holds a space, and no tag holds `=`. */
  lemma MetricsPlain(kind: string, scan: Scan)
    requires WellFormed(scan)
    ensures forall k :: 0 <= k < |Metrics(kind, scan)| ==> Plain(Metrics(kind, scan)[k])
  {
    KwhPlain(kind, scan.kwh);
    TempPlain(kind, scan.temp);
    BreakerPlain(kind, scan.breakers);
    CircuitPlain(kind, scan.circuits);
    AllPlain(Metrics(kind, scan));
  }

  /** The joined performance data of any well-formed scan reads back to its entries. */
  lemma ScanPerfdataRoundTrip(kind: string, scan: Scan)
    requires WellFormed(scan)
    ensures ParsePerfdata(JoinSpaces(Rendered(Metrics(kind, scan)))) == Some(Metrics(kind, scan))
  {
    MetricsPlain(kind, scan);
    PerfdataRoundTrip(Metrics(kind, scan));
  }
}
