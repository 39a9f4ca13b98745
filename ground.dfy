/** The ground station's handling of the flight computer's serial lines:
    DATA lines become tab-separated records for the recording buffer, HUD
    lines refresh the overlay data and its time synchronisation, a STOP line
    raises the stop flag; and the rule that ends the recording. Converting
    text to a float is a parameter (`isFloat` says whether `float(s)`
    succeeds, `parseFloat` gives its value). */
module GroundStation {
  import opened Base
  import opened PyText
  import opened Recorder
  import opened FlightStatus
  import Nmea

  /** The overlay fields of a HUD line: time, altitude, velocity, g load and
      status, as text. */
  datatype HudFields = HudFields(time: string, altitude: string, velocity: string, gz: string, status: string)

  /** What a received line is taken for. */
  datatype LineKind =
    | Data(record: string)
    | Hud(fields: HudFields)
    | Stop
    | Ignored

  /** The classification in the serial thread, on the decoded line. */
  function Classify(raw: string, isFloat: string -> bool): LineKind
  {
    ClassifyText(Strip(raw), isFloat)
  }

  /** The classification of a stripped line. */
  function ClassifyText(linha: string, isFloat: string -> bool): (kind: LineKind)
    ensures kind.Data? ==> StartsWith(linha, "DATA")
    ensures kind.Hud? ==> StartsWith(linha, "HUD") && !StartsWith(linha, "DATA")
    ensures kind == Stop <==> linha == "STOP"
  {
    if StartsWith(linha, "DATA") then
      var valores := Split(RemoveAll(linha, "DATA,"), ',');
      if |valores| == 6 && isFloat(valores[0]) then Data(Join(valores, '\t')) else Ignored
    else if StartsWith(linha, "HUD") then
      var partes := Split(linha, '|');
      if |partes| >= 6 then Hud(HudFields(partes[1], partes[2], partes[3], partes[4], partes[5])) else Ignored
    else if linha == "STOP" then Stop
    else Ignored
  }

  /** The kind of a line is decided by its stripped text: a record only from
      a line starting with DATA whose remainder splits into six fields with
      a numeric first one, overlay fields only from a line starting with HUD
      (and not DATA) with six or more parts, the stop flag only from exactly
      STOP. A record read back on tabs gives the six fields when none holds
      a tab. */
  lemma ClassifyCases(linha: string, isFloat: string -> bool)
    ensures var kind := ClassifyText(linha, isFloat);
            var valores := Split(RemoveAll(linha, "DATA,"), ',');
            && (kind.Data? <==> StartsWith(linha, "DATA") && |valores| == 6 && isFloat(valores[0]))
            && (kind.Data? && (forall i :: 0 <= i < 6 ==> '\t' !in valores[i]) ==> Split(kind.record, '\t') == valores)
            && (kind.Hud? <==> !StartsWith(linha, "DATA") && StartsWith(linha, "HUD") && |Split(linha, '|')| >= 6)
            && (kind == Stop <==> linha == "STOP")
  {
    var valores := Split(RemoveAll(linha, "DATA,"), ',');
    if ClassifyText(linha, isFloat).Data? && forall i :: 0 <= i < 6 ==> '\t' !in valores[i] {
      SplitJoin(valores, '\t');
    }
  }

  // ---------------------------------------------------------------------------
  // The flight computer's lines, read back

  /** `%02d` of a value below 100: two digits. */
  lemma TwoDigits(n: nat)
    requires n < 100
    ensures |Nmea.Format02(n)| == 2 && Nmea.IsDigit(Nmea.Format02(n)[0]) && Nmea.IsDigit(Nmea.Format02(n)[1])
  {
    Nmea.DecimalDigits(n);
    Nmea.TwoDigitFormat(n);
  }

  /** The `HH:MM:SS` field of a HUD line for a mission time. */
  function ClockText(t: nat): string
  {
    var hms := HudClock(t);
    Join([Nmea.Format02(hms.0), Nmea.Format02(hms.1), Nmea.Format02(hms.2)], ':')
  }

  /** A DATA line as the flight computer prints it: the mission time and the
      five rendered numbers. */
  function DataText(tempo: nat, numbers: seq<string>): string
    requires |numbers| == 5
  {
    "DATA," + Join([Nmea.Decimal(tempo)] + numbers, ',')
  }

  /** A HUD line as the flight computer prints it: the clock, three rendered
      numbers and the status name. */
  function HudText(t: nat, altitude: string, velocity: string, gz: string, status: int): string
  {
    Join(["HUD", ClockText(t), altitude, velocity, gz, StatusToString(status)], '|')
  }

  /** A rendered number: non-empty, with no comma, separator, tab, `D` or
      surrounding whitespace, as the `%.1f`/`%.2f` conversions produce. */
  predicate Rendered(s: string)
  {
    && s != [] && !IsSpace(s[0]) && !IsSpace(s[|s| - 1])
    && ',' !in s && '|' !in s && '\t' !in s && 'D' !in s
  }

  /** The six fields of a DATA line. */
  function DataFields(tempo: nat, numbers: seq<string>): (fields: seq<string>)
    requires |numbers| == 5
    ensures |fields| == 6
  {
    [Nmea.Decimal(tempo)] + numbers
  }

  /** A DATA line has no surrounding whitespace, so its line end is all that
      `strip()` removes. */
  lemma DataStripped(tempo: nat, numbers: seq<string>, lineEnd: string)
    requires |numbers| == 5 && forall i :: 0 <= i < 5 ==> Rendered(numbers[i])
    requires forall i :: 0 <= i < |lineEnd| ==> IsSpace(lineEnd[i])
    ensures Strip(DataText(tempo, numbers) + lineEnd) == DataText(tempo, numbers)
  {
    var fields := DataFields(tempo, numbers);
    var body := Join(fields, ',');
    var text := DataText(tempo, numbers);
    assert fields[5] == numbers[4];
    JoinLastChar(fields, ',');
    assert text[|text| - 1] == body[|body| - 1];
    assert text[0] == 'D';
    StripSurrounded([], text, lineEnd);
    assert [] + text + lineEnd == text + lineEnd;
  }

  /** Removing the `DATA,` prefix leaves the comma-joined fields, and
      splitting them on commas gives the six fields back. */
  lemma DataBody(tempo: nat, numbers: seq<string>)
    requires |numbers| == 5 && forall i :: 0 <= i < 5 ==> Rendered(numbers[i])
    ensures Split(RemoveAll(DataText(tempo, numbers), "DATA,"), ',') == DataFields(tempo, numbers)
  {
    var fields := DataFields(tempo, numbers);
    var body := Join(fields, ',');
    Nmea.DecimalDigits(tempo);
    assert forall i :: 0 <= i < 6 ==> ',' !in fields[i] && 'D' !in fields[i];
    RemoveAllLeading("DATA,", body);
    JoinWithout(fields, ',', 'D');
    RemoveAllAbsentHead(body, "DATA,");
    SplitJoin(fields, ',');
  }

  /** Every DATA line the flight computer prints, followed by its line end,
      is stored as the record of its six values separated by tabs. */
  lemma DataLineRoundTrip(tempo: nat, numbers: seq<string>, lineEnd: string, isFloat: string -> bool)
    requires |numbers| == 5 && forall i :: 0 <= i < 5 ==> Rendered(numbers[i])
    requires forall i :: 0 <= i < |lineEnd| ==> IsSpace(lineEnd[i])
    requires isFloat(Nmea.Decimal(tempo))
    ensures Classify(DataText(tempo, numbers) + lineEnd, isFloat) == Data(Join(DataFields(tempo, numbers), '\t'))
  {
    var text := DataText(tempo, numbers);
    DataStripped(tempo, numbers, lineEnd);
    DataBody(tempo, numbers);
    assert StartsWith(text, "DATA");
  }

  /** A character in none of the pieces nor the separator is not in their
      join. */
  lemma {:induction false} JoinWithout(parts: seq<string>, sep: char, c: char)
    requires c != sep && forall i :: 0 <= i < |parts| ==> c !in parts[i]
    ensures c !in Join(parts, sep)
  {
    if |parts| > 1 {
      JoinWithout(parts[1..], sep, c);
    }
  }

  /** The six parts of a HUD line. */
  function HudParts(t: nat, altitude: string, velocity: string, gz: string, status: int): seq<string>
  {
    ["HUD", ClockText(t), altitude, velocity, gz, StatusToString(status)]
  }

  /** The clock field holds no bar. */
  lemma ClockTextNoBar(t: nat)
    ensures '|' !in ClockText(t)
  {
    var hms := HudClock(t);
    TwoDigits(hms.0);
    TwoDigits(hms.1);
    TwoDigits(hms.2);
    JoinWithout([Nmea.Format02(hms.0), Nmea.Format02(hms.1), Nmea.Format02(hms.2)], ':', '|');
  }

  /** A HUD line splits on bars into its six parts. */
  lemma HudSplit(t: nat, altitude: string, velocity: string, gz: string, status: int)
    requires Rendered(altitude) && Rendered(velocity) && Rendered(gz)
    ensures Split(HudText(t, altitude, velocity, gz, status), '|') == HudParts(t, altitude, velocity, gz, status)
  {
    var parts := HudParts(t, altitude, velocity, gz, status);
    ClockTextNoBar(t);
    assert forall i :: 0 <= i < 6 ==> '|' !in parts[i];
    SplitJoin(parts, '|');
  }

  /** The line end of a HUD line is all that `strip()` removes. */
  lemma HudStripped(t: nat, altitude: string, velocity: string, gz: string, status: int, lineEnd: string)
    requires forall i :: 0 <= i < |lineEnd| ==> IsSpace(lineEnd[i])
    ensures Strip(HudText(t, altitude, velocity, gz, status) + lineEnd) == HudText(t, altitude, velocity, gz, status)
  {
    var parts := HudParts(t, altitude, velocity, gz, status);
    var text := HudText(t, altitude, velocity, gz, status);
    assert |StatusToString(status)| == 3;
    JoinLastChar(parts, '|');
    assert text[0] == 'H';
    StripSurrounded([], text, lineEnd);
    assert [] + text + lineEnd == text + lineEnd;
  }

  /** Every HUD line the flight computer prints, followed by its line end,
      gives the overlay its clock, numbers and status name. */
  lemma HudLineRoundTrip(t: nat, altitude: string, velocity: string, gz: string, status: int,
                         lineEnd: string, isFloat: string -> bool)
    requires Rendered(altitude) && Rendered(velocity) && Rendered(gz)
    requires forall i :: 0 <= i < |lineEnd| ==> IsSpace(lineEnd[i])
    ensures Classify(HudText(t, altitude, velocity, gz, status) + lineEnd, isFloat)
            == Hud(HudFields(ClockText(t), altitude, velocity, gz, StatusToString(status)))
  {
    var text := HudText(t, altitude, velocity, gz, status);
    HudSplit(t, altitude, velocity, gz, status);
    HudStripped(t, altitude, velocity, gz, status, lineEnd);
    assert text == "HUD" + ['|'] + Join(HudParts(t, altitude, velocity, gz, status)[1..], '|');
    assert !StartsWith(text, "DATA") && StartsWith(text, "HUD");
  }

  /** The STOP line the flight computer prints, followed by its line end,
      raises the stop flag. */
  lemma StopLineRoundTrip(lineEnd: string, isFloat: string -> bool)
    requires forall i :: 0 <= i < |lineEnd| ==> IsSpace(lineEnd[i])
    ensures Classify("STOP" + lineEnd, isFloat) == Stop
  {
    StopStripped(lineEnd);
    StopText(isFloat);
  }

  /** `strip()` takes only the line end off the STOP line. */
  lemma StopStripped(lineEnd: string)
    requires forall i :: 0 <= i < |lineEnd| ==> IsSpace(lineEnd[i])
    ensures Strip("STOP" + lineEnd) == "STOP"
  {
    StripSurrounded([], "STOP", lineEnd);
    assert [] + "STOP" + lineEnd == "STOP" + lineEnd;
  }

  /** The stripped STOP line is classified as the stop command. */
  lemma StopText(isFloat: string -> bool)
    ensures ClassifyText("STOP", isFloat) == Stop
  {
    assert "STOP"[..4][0] == 'S' && "STOP"[..3][0] == 'S';
    assert !StartsWith("STOP", "DATA") && !StartsWith("STOP", "HUD");
  }

  /** The last character of a join is the last character of its last piece. */
  lemma {:induction false} JoinLastChar(parts: seq<string>, sep: char)
    requires |parts| >= 1 && parts[|parts| - 1] != []
    ensures var j := Join(parts, sep); j != [] && j[|j| - 1] == parts[|parts| - 1][|parts[|parts| - 1]| - 1]
  {
    if |parts| > 1 {
      JoinLastChar(parts[1..], sep);
    }
  }

  /** The clock field splits on colons into its three two-digit numbers. */
  lemma ClockTextParts(t: nat)
    ensures var hms := HudClock(t);
            Split(ClockText(t), ':') == [Nmea.Format02(hms.0), Nmea.Format02(hms.1), Nmea.Format02(hms.2)]
  {
    var hms := HudClock(t);
    TwoDigits(hms.0);
    TwoDigits(hms.1);
    TwoDigits(hms.2);
    SplitJoin([Nmea.Format02(hms.0), Nmea.Format02(hms.1), Nmea.Format02(hms.2)], ':');
  }

  // ---------------------------------------------------------------------------
  // Overlay data and time synchronisation

  /** The seconds of day a HUD time field stands for, when it has three
      colon-separated parts that all parse as floats. */
  function PicoSeconds(time: string, parseFloat: string -> Option<real>): Option<real>
  {
    var partes := Split(time, ':');
    if |partes| != 3 then None
    else
      match (parseFloat(partes[0]), parseFloat(partes[1]), parseFloat(partes[2]))
      case (Some(h), Some(m), Some(s)) => Some(h * 3600.0 + m * 60.0 + s)
      case _ => None
  }

  /** The clock printed for a mission time is read back, with a float parser
      that reads two digits as their value, as that time modulo one day: the
      two ends agree on the time of day. */
  lemma ClockReadBack(t: nat, parseFloat: string -> Option<real>)
    requires forall n :: 0 <= n < 100 ==> parseFloat(Nmea.Format02(n)) == Some(n as real)
    ensures PicoSeconds(ClockText(t), parseFloat) == Some((t % 86400) as real)
  {
    var hms := HudClock(t);
    ClockTextParts(t);
    assert parseFloat(Nmea.Format02(hms.0)) == Some(hms.0 as real);
    assert parseFloat(Nmea.Format02(hms.1)) == Some(hms.1 as real);
    assert parseFloat(Nmea.Format02(hms.2)) == Some(hms.2 as real);
    HudClockSplit(t);
  }

  /** `HUDData`: the latest overlay fields and the pair of clock readings
      used to synchronise the ground clock with the flight computer's. */
  class HudData {
    var data: Option<HudFields>
    var picoTime: Option<real>
    var piTime: Option<real>

    constructor ()
      ensures data == None && picoTime == None && piTime == None
    {
      data := None;
      picoTime := None;
      piTime := None;
    }

    /** `update`: store the fields; when their time parses, record it with
        the ground clock reading `now`. A time that does not parse leaves
        both readings as they were. */
    method Update(hud: HudFields, now: real, parseFloat: string -> Option<real>)
      modifies this
      ensures data == Some(hud)
      ensures PicoSeconds(hud.time, parseFloat).Some? ==>
                picoTime == PicoSeconds(hud.time, parseFloat) && piTime == Some(now)
      ensures PicoSeconds(hud.time, parseFloat).None? ==>
                picoTime == old(picoTime) && piTime == old(piTime)
    {
      data := Some(hud);
      var partes := Split(hud.time, ':');
      if |partes| == 3 {
        var h, m, s := parseFloat(partes[0]), parseFloat(partes[1]), parseFloat(partes[2]);
        if h.Some? && m.Some? && s.Some? {
          picoTime := Some(h.value * 3600.0 + m.value * 60.0 + s.value);
          piTime := Some(now);
        }
      }
    }

    /** `get_time_offset`: ground clock minus flight clock once both are
        known, 0 before. */
    method GetTimeOffset() returns (offset: real)
      ensures picoTime.Some? && piTime.Some? ==> offset == piTime.value - picoTime.value
      ensures picoTime.None? || piTime.None? ==> offset == 0.0
    {
      if picoTime.Some? && piTime.Some? {
        return piTime.value - picoTime.value;
      }
      return 0.0;
    }
  }

  // ---------------------------------------------------------------------------
  // The serial thread

  /** The counters the serial thread keeps. */
  datatype Stats = Stats(dataRecebidas: nat, hudRecebidas: nat, stopRecebido: bool)

  /** The counters after one line. */
  function Tally(stats: Stats, kind: LineKind): Stats
  {
    match kind
    case Data(_) => Stats(stats.dataRecebidas + 1, stats.hudRecebidas, stats.stopRecebido)
    case Hud(_) => Stats(stats.dataRecebidas, stats.hudRecebidas + 1, stats.stopRecebido)
    case Stop => Stats(stats.dataRecebidas, stats.hudRecebidas, true)
    case Ignored => stats
  }

  /** The kinds of a sequence of lines. */
  function Kinds(lines: seq<string>, isFloat: string -> bool): (kinds: seq<LineKind>)
    ensures |kinds| == |lines|
  {
    if lines == [] then [] else Kinds(lines[..|lines| - 1], isFloat) + [Classify(lines[|lines| - 1], isFloat)]
  }

  /** The counters after a sequence of lines of the given kinds. */
  function TallyAll(stats: Stats, kinds: seq<LineKind>): Stats
  {
    if kinds == [] then stats
    else Tally(TallyAll(stats, kinds[..|kinds| - 1]), kinds[|kinds| - 1])
  }

  /** The records lines of the given kinds add to the recording buffer. */
  function Records(kinds: seq<LineKind>): seq<string>
  {
    if kinds == [] then []
    else
      var kind := kinds[|kinds| - 1];
      Records(kinds[..|kinds| - 1]) + (if kind.Data? then [kind.record] else [])
  }

  /** The HUD counter counts the overlay lines. */
  function HudCount(kinds: seq<LineKind>): nat
  {
    if kinds == [] then 0 else HudCount(kinds[..|kinds| - 1]) + (if kinds[|kinds| - 1].Hud? then 1 else 0)
  }

  /** Whether the line at `i` is STOP. */
  predicate StopAt(kinds: seq<LineKind>, i: int)
  {
    0 <= i < |kinds| && kinds[i] == Stop
  }

  /** The data counter counts the records stored, the HUD counter the
      overlay lines, and the stop flag is up exactly when some line was STOP
      (or it was up already). */
  lemma {:induction false} TallyAllCounts(stats: Stats, kinds: seq<LineKind>)
    ensures TallyAll(stats, kinds).dataRecebidas == stats.dataRecebidas + |Records(kinds)|
    ensures TallyAll(stats, kinds).hudRecebidas == stats.hudRecebidas + HudCount(kinds)
    ensures TallyAll(stats, kinds).stopRecebido <==> stats.stopRecebido || exists i :: StopAt(kinds, i)
  {
    if kinds != [] {
      var init := kinds[..|kinds| - 1];
      TallyAllCounts(stats, init);
      assert TallyAll(stats, kinds) == Tally(TallyAll(stats, init), kinds[|kinds| - 1]);
      if kinds[|kinds| - 1] == Stop {
        assert StopAt(kinds, |kinds| - 1);
      }
      if exists i :: StopAt(init, i) {
        var i :| StopAt(init, i);
        assert StopAt(kinds, i);
      }
      if exists i :: StopAt(kinds, i) {
        var i :| StopAt(kinds, i);
        if i < |init| {
          assert StopAt(init, i);
        }
      }
    }
  }

  /** One more line adds its kind at the end. */
  lemma KindsStep(lines: seq<string>, i: nat, isFloat: string -> bool)
    requires i < |lines|
    ensures Kinds(lines[..i + 1], isFloat) == Kinds(lines[..i], isFloat) + [Classify(lines[i], isFloat)]
  {
    assert lines[..i + 1][..i] == lines[..i];
  }

  /** The counters and records after one more line. */
  lemma TallyStep(stats: Stats, kinds: seq<LineKind>, kind: LineKind)
    ensures TallyAll(stats, kinds + [kind]) == Tally(TallyAll(stats, kinds), kind)
    ensures Records(kinds + [kind]) == Records(kinds) + (if kind.Data? then [kind.record] else [])
  {
    assert (kinds + [kind])[..|kinds|] == kinds;
  }

  /** One pass of the serial thread on a received line. */
  method HandleLine(raw: string, buf: FlightDataBuffer, hud: HudData, stats: Stats, now: real,
                    isFloat: string -> bool, parseFloat: string -> Option<real>)
    returns (next: Stats, kind: LineKind)
    modifies buf, hud
    ensures kind == Classify(raw, isFloat)
    ensures next == Tally(stats, kind)
    ensures buf.buffer == old(buf.buffer) + (if kind.Data? then [kind.record] else [])
    ensures buf.totalWritten == old(buf.totalWritten)
    ensures kind.Hud? ==> hud.data == Some(kind.fields)
    ensures !kind.Hud? ==>
              hud.data == old(hud.data) && hud.picoTime == old(hud.picoTime) && hud.piTime == old(hud.piTime)
  {
    next := stats;
    kind := Ignored;
    var linha := Strip(raw);
    if StartsWith(linha, "DATA") {
      var dados := RemoveAll(linha, "DATA,");
      var valores := Split(dados, ',');
      if |valores| == 6 {
        if isFloat(valores[0]) {
          var linhaFormatada := Join(valores, '\t');
          buf.Add(linhaFormatada);
          kind := Data(linhaFormatada);
          next := Stats(stats.dataRecebidas + 1, stats.hudRecebidas, stats.stopRecebido);
        }
      }
    } else if StartsWith(linha, "HUD") {
      var partes := Split(linha, '|');
      if |partes| >= 6 {
        var novoHud := HudFields(partes[1], partes[2], partes[3], partes[4], partes[5]);
        hud.Update(novoHud, now, parseFloat);
        kind := Hud(novoHud);
        next := Stats(stats.dataRecebidas, stats.hudRecebidas + 1, stats.stopRecebido);
      }
    } else if linha == "STOP" {
      next := Stats(stats.dataRecebidas, stats.hudRecebidas, true);
      kind := Stop;
    }
  }

  /** The serial thread handling line `i` after the lines before it. */
  method SerialStep(lines: seq<string>, i: nat, now: real, buf: FlightDataBuffer, hud: HudData,
                    stats: Stats, ghost initial: seq<string>,
                    isFloat: string -> bool, parseFloat: string -> Option<real>)
    returns (next: Stats)
    requires i < |lines|
    requires stats == TallyAll(Stats(0, 0, false), Kinds(lines[..i], isFloat))
    requires buf.buffer == initial + Records(Kinds(lines[..i], isFloat))
    modifies buf, hud
    ensures next == TallyAll(Stats(0, 0, false), Kinds(lines[..i + 1], isFloat))
    ensures buf.buffer == initial + Records(Kinds(lines[..i + 1], isFloat))
    ensures buf.totalWritten == old(buf.totalWritten)
  {
    ghost var before := Kinds(lines[..i], isFloat);
    var kind;
    next, kind := HandleLine(lines[i], buf, hud, stats, now, isFloat, parseFloat);
    KindsStep(lines, i, isFloat);
    TallyStep(Stats(0, 0, false), before, kind);
  }

  /** The serial thread over a sequence of received lines, `now[i]` being the
      ground clock when line `i` is handled. */
  method SerialThread(lines: seq<string>, now: seq<real>, buf: FlightDataBuffer, hud: HudData,
                      isFloat: string -> bool, parseFloat: string -> Option<real>)
    returns (stats: Stats)
    requires |now| == |lines|
    modifies buf, hud
    ensures stats == TallyAll(Stats(0, 0, false), Kinds(lines, isFloat))
    ensures buf.buffer == old(buf.buffer) + Records(Kinds(lines, isFloat))
    ensures buf.totalWritten == old(buf.totalWritten)
  {
    ghost var initial := buf.buffer;
    stats := Stats(0, 0, false);
    var i := 0;
    while i < |lines|
      invariant 0 <= i <= |lines|
      invariant stats == TallyAll(Stats(0, 0, false), Kinds(lines[..i], isFloat))
      invariant buf.buffer == initial + Records(Kinds(lines[..i], isFloat))
      invariant buf.totalWritten == old(buf.totalWritten)
    {
      stats := SerialStep(lines, i, now[i], buf, hud, stats, initial, isFloat, parseFloat);
      i := i + 1;
    }
    assert lines[..|lines|] == lines;
  }

  // ---------------------------------------------------------------------------
  // End of recording

  /** `MIN_TIME_STOP`, seconds. */
  const MinTimeStop: real := 45.0

  /** The recording loop's two exit tests at the top of each frame. The STOP
      flag makes no difference: the loop ends exactly once the minimum time
      has elapsed. */
  function ShouldStop(elapsed: real, stopRecebido: bool): (stop: bool)
    ensures stop <==> elapsed >= MinTimeStop
  {
    (stopRecebido && elapsed >= MinTimeStop) || (elapsed >= MinTimeStop && !stopRecebido)
  }

  /** The recording loop over the elapsed times and stop flags seen at the
      top of successive frames: returns the number of frames recorded. */
  method RecordingLoop(elapsed: seq<real>, stopFlags: seq<bool>) returns (frames: nat)
    requires |elapsed| == |stopFlags|
    ensures frames <= |elapsed|
    ensures forall j :: 0 <= j < frames ==> elapsed[j] < MinTimeStop
    ensures frames < |elapsed| ==> elapsed[frames] >= MinTimeStop
  {
    frames := 0;
    while frames < |elapsed|
      invariant 0 <= frames <= |elapsed|
      invariant forall j :: 0 <= j < frames ==> elapsed[j] < MinTimeStop
    {
      if stopFlags[frames] {
        if elapsed[frames] >= MinTimeStop {
          return;
        }
      }
      if elapsed[frames] >= MinTimeStop && !stopFlags[frames] {
        return;
      }
      frames := frames + 1;
    }
  }
}
