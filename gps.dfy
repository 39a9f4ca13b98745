/** The GPS NEO-6 driver's fix state: how validated RMC and GGA sentences
    update the global `gps_data`, the local-frame origin, the held altitude and
    the diagnostic counters, and how `read_gps_data` frames UART bytes into
    sentences. The spec functions describe one step each; the class
    `GpsReceiver` keeps the driver's globals as fields and is proved to follow
    them. */
module Gps {
  import opened Base
  import opened Nmea

  const EarthRadius: real := 6371000.0
  const DegToRad: real := 3.14159265358979323846 / 180.0
  /** Minimum planar movement (m) that is taken as real motion. */
  const PositionThreshold: real := 0.5

  /** The fields of `gps_data_t` the driver writes. Times are text as received
      (`time`) and local text "HH:MM:SS" (`timeBr`); `timeSeconds` is the local
      seconds of day; `x`, `y` are metres from the origin, `z` the GPS altitude. */
  datatype GpsData = GpsData(
    time: string,
    timeBr: string,
    timeSeconds: nat,
    validFix: bool,
    latitude: real,
    longitude: real,
    x: real,
    y: real,
    z: real,
    velocity: real,
    satellites: string)

  /** All of the driver's persistent parser and tracker globals. */
  datatype Receiver = Receiver(
    data: GpsData,
    originLat: real,
    originLon: real,
    originSet: bool,
    zgpsAnterior: real,
    received: nat,
    valid: nat,
    rmcCount: nat)

  /** The zero-initialised globals at start-up. */
  const InitialReceiver: Receiver :=
    Receiver(GpsData("", "", 0, false, 0.0, 0.0, 0.0, 0.0, 0.0, 0.0, ""), 0.0, 0.0, false, 0.0, 0, 0, 0)

  /** What every reachable receiver state satisfies: no more valid sentences
      than received ones, the reported altitude is the held altitude and never
      negative, and the local position stays (0, 0) until an origin exists. */
  ghost predicate Inv(st: Receiver)
  {
    && st.valid <= st.received
    && st.data.z == st.zgpsAnterior
    && st.zgpsAnterior >= 0.0
    && (!st.originSet ==> st.data.x == 0.0 && st.data.y == 0.0)
  }

  // ---------------------------------------------------------------------------
  // Coordinate arithmetic (nmea_to_decimal, latlon_to_xy)

  /** `nmea_to_decimal`: ddmm.mmmm to signed decimal degrees; 0 for an empty field. */
  function NmeaToDecimal(coord: string, direction: char, m: Libm): real
  {
    if |coord| == 0 then 0.0
    else
      var value := m.atof(coord);
      var degrees := TruncReal(value / 100.0);
      var minutes := value - degrees as real * 100.0;
      var decimal := degrees as real + minutes / 60.0;
      if direction == 'S' || direction == 'W' then -decimal else decimal
  }

  /** `latlon_to_xy`: equirectangular projection around the origin, in metres. */
  function LatLonToXy(lat: real, lon: real, lat0: real, lon0: real, m: Libm): (real, real)
  {
    var dLat := (lat - lat0) * DegToRad;
    var dLon := (lon - lon0) * DegToRad;
    (dLon * m.cos(lat0 * DegToRad) * EarthRadius, dLat * EarthRadius)
  }

  /** Ground speed from the RMC knots value: ×1.852 to km/h, 0 below 0.5 km/h. */
  function SpeedKmh(knots: real): (v: real)
    ensures v == 0.0 || (v >= 0.5 && v == knots * 1.852)
    ensures knots * 1.852 < 0.5 ==> v == 0.0
  {
    var v := knots * 1.852;
    if v < 0.5 then 0.0 else v
  }

  // ---------------------------------------------------------------------------
  // process_gprmc

  /** The locals `process_gprmc` collects from the tokens, with their defaults. */
  datatype RmcFields = RmcFields(
    time: string, status: char, lat: string, latDir: char, lon: string, lonDir: char, speed: string)

  /** The RMC fields found among `toks` (token k is field k; a field keeps its
      default when there are too few tokens). */
  function RmcFieldsOf(toks: seq<string>): RmcFields
  {
    RmcFields(
      if |toks| > 1 && |toks[1]| >= 6 then Take(toks[1], 11) else "",
      if |toks| > 2 && |toks[2]| > 0 then toks[2][0] else 'V',
      if |toks| > 3 && |toks[3]| > 0 then Take(toks[3], 15) else "",
      if |toks| > 4 && |toks[4]| > 0 then toks[4][0] else '\0',
      if |toks| > 5 && |toks[5]| > 0 then Take(toks[5], 15) else "",
      if |toks| > 6 && |toks[6]| > 0 then toks[6][0] else '\0',
      if |toks| > 7 && |toks[7]| > 0 then Take(toks[7], 15) else "")
  }

  /** The token loop of `process_gprmc`. */
  method ScanRmcFields(toks: seq<string>) returns (f: RmcFields)
    ensures f == RmcFieldsOf(toks)
  {
    var timeStr, status, latStr, latDir, lonStr, lonDir, speedStr := "", 'V', "", '\0', "", '\0', "";
    var field := 0;
    while field < |toks|
      invariant 0 <= field <= |toks|
      invariant RmcFields(timeStr, status, latStr, latDir, lonStr, lonDir, speedStr) == RmcFieldsOf(toks[..field])
    {
      var token := toks[field];
      if field == 1 {
        if |token| >= 6 { timeStr := Take(token, 11); }
      } else if field == 2 {
        if |token| > 0 { status := token[0]; }
      } else if field == 3 {
        if |token| > 0 { latStr := Take(token, 15); }
      } else if field == 4 {
        if |token| > 0 { latDir := token[0]; }
      } else if field == 5 {
        if |token| > 0 { lonStr := Take(token, 15); }
      } else if field == 6 {
        if |token| > 0 { lonDir := token[0]; }
      } else if field == 7 {
        if |token| > 0 { speedStr := Take(token, 15); }
      }
      field := field + 1;
    }
    assert toks[..field] == toks;
    f := RmcFields(timeStr, status, latStr, latDir, lonStr, lonDir, speedStr);
  }

  /** The time part of `process_gprmc`: a time token of at least six
      characters sets the UTC text and its local conversion. */
  function RmcTime(d: GpsData, f: RmcFields): GpsData
  {
    if |f.time| >= 6 then
      var conv := ConvertUtcToBrasilia(f.time);
      d.(time := f.time, timeBr := conv.0, timeSeconds := conv.1)
    else d
  }

  /** Planar distance covered by the offsets `dx`, `dy`. */
  function Distance(dx: real, dy: real, m: Libm): real
  {
    m.sqrt(dx * dx + dy * dy)
  }

  /** The position tracker, run once `st.data` holds a new latitude and
      longitude: the first fix becomes the origin at (0, 0); later fixes move
      X/Y to the projection only past the jitter gate. */
  function TrackPosition(st: Receiver, m: Libm): Receiver
  {
    if !st.originSet then
      st.(data := st.data.(x := 0.0, y := 0.0),
          originLat := st.data.latitude, originLon := st.data.longitude, originSet := true)
    else
      var xy := LatLonToXy(st.data.latitude, st.data.longitude, st.originLat, st.originLon, m);
      if Distance(xy.0 - st.data.x, xy.1 - st.data.y, m) > PositionThreshold || st.data.velocity > 1.0 then
        st.(data := st.data.(x := xy.0, y := xy.1))
      else st
  }

  /** `sentences_gprmc++` together with the time update. */
  function RmcStamp(st: Receiver, f: RmcFields): Receiver
  {
    st.(rmcCount := st.rmcCount + 1, data := RmcTime(st.data, f))
  }

  /** An active status: the fix is valid, and a speed token sets the velocity. */
  function MarkActive(st: Receiver, f: RmcFields, m: Libm): Receiver
  {
    var v := if |f.speed| > 0 then SpeedKmh(m.atof(f.speed)) else st.data.velocity;
    st.(data := st.data.(validFix := true, velocity := v))
  }

  /** The decoded latitude and longitude of the sentence. */
  function WithPosition(st: Receiver, f: RmcFields, m: Libm): Receiver
  {
    st.(data := st.data.(latitude := NmeaToDecimal(f.lat, f.latDir, m), longitude := NmeaToDecimal(f.lon, f.lonDir, m)))
  }

  /** Any status other than 'A': the fix is not valid. */
  function MarkInactive(st: Receiver): Receiver
  {
    st.(data := st.data.(validFix := false))
  }

  /** The status part of `process_gprmc`. */
  function RmcFix(st: Receiver, f: RmcFields, m: Libm): Receiver
  {
    if f.status == 'A' then
      if |f.lat| > 0 && |f.lon| > 0 then TrackPosition(WithPosition(MarkActive(st, f, m), f, m), m)
      else MarkActive(st, f, m)
    else MarkInactive(st)
  }

  /** `process_gprmc` on the tokens of a sentence. */
  function ApplyRmc(st: Receiver, toks: seq<string>, m: Libm): Receiver
  {
    RmcFix(RmcStamp(st, RmcFieldsOf(toks)), RmcFieldsOf(toks), m)
  }

  // ---------------------------------------------------------------------------
  // process_gpgga

  /** Fix quality as the GGA token loop has it once `toks` are read. */
  function GgaFix(toks: seq<string>): char
  {
    if |toks| > 6 && |toks[6]| > 0 then toks[6][0] else '0'
  }

  /** `process_gpgga` on the tokens of a sentence: field 7 gives the satellite
      text, field 9 the altitude, taken only with a non-zero fix quality and a
      positive value, the held value being reported otherwise. */
  function ApplyGga(st: Receiver, toks: seq<string>, m: Libm): Receiver
  {
    var d1 := if |toks| > 7 && |toks[7]| > 0 then st.data.(satellites := Take(toks[7], 3)) else st.data;
    if |toks| > 9 then
      if |toks[9]| > 0 && GgaFix(toks) != '0' then
        var z := m.atof(Take(toks[9], 15));
        if z > 0.0 then st.(data := d1.(z := z), zgpsAnterior := z)
        else st.(data := d1.(z := st.zgpsAnterior))
      else st.(data := d1.(z := st.zgpsAnterior))
    else st.(data := d1)
  }

  // ---------------------------------------------------------------------------
  // process_nmea_sentence

  predicate IsRmc(s: string)
  {
    HasPrefix(s, "$GPRMC") || HasPrefix(s, "$GNRMC")
  }

  predicate IsGga(s: string)
  {
    HasPrefix(s, "$GPGGA") || HasPrefix(s, "$GNGGA")
  }

  /** `process_nmea_sentence`: count, validate, then dispatch by talker and type. */
  function ProcessSentence(st: Receiver, s: string, m: Libm): Receiver
  {
    if !ChecksumValid(s) then CountReceived(st)
    else Dispatch(CountValid(CountReceived(st)), s, m)
  }

  /** `sentences_received++`. */
  function CountReceived(st: Receiver): Receiver
  {
    st.(received := st.received + 1)
  }

  /** `sentences_valid++`. */
  function CountValid(st: Receiver): Receiver
  {
    st.(valid := st.valid + 1)
  }

  /** The handler chosen by the sentence's first six characters. */
  function Dispatch(st: Receiver, s: string, m: Libm): Receiver
  {
    if IsRmc(s) then ApplyRmc(st, Tokens(s), m)
    else if IsGga(s) then ApplyGga(st, Tokens(s), m)
    else st
  }

  // ---------------------------------------------------------------------------
  // read_gps_data

  /** The receiver together with the characters pending in `nmea_buffer`. */
  datatype Framer = Framer(rx: Receiver, pending: seq<char>)

  /** Hand the pending buffer to the sentence processor if, as a C string, it
      is longer than 6 characters. */
  function Flush(rx: Receiver, pending: seq<char>, m: Libm): Receiver
  {
    var s := CString(pending);
    if |s| > 6 then ProcessSentence(rx, s, m) else rx
  }

  /** One iteration of the `read_gps_data` loop for the byte `c`. */
  function FeedByte(fr: Framer, c: char, m: Libm): Framer
  {
    if c == '$' then
      Framer(if |fr.pending| > 0 then Flush(fr.rx, fr.pending, m) else fr.rx, ['$'])
    else if c == '\n' || c == '\r' then
      if |fr.pending| > 0 && fr.pending[0] == '$' then Framer(Flush(fr.rx, fr.pending, m), [])
      else fr
    else if |fr.pending| < NmeaBufferSize - 1 then Framer(fr.rx, fr.pending + [c])
    else fr
  }

  /** The bytes fed in order. */
  function FeedAll(fr: Framer, bytes: seq<char>, m: Libm): Framer
  {
    if bytes == [] then fr else FeedByte(FeedAll(fr, bytes[..|bytes| - 1], m), bytes[|bytes| - 1], m)
  }

  // ---------------------------------------------------------------------------
  // Properties of the sentence processor

  /** A sentence that fails the checksum only bumps `sentences_received`. */
  lemma ChecksumFailureOnlyCounts(st: Receiver, s: string, m: Libm)
    requires !ChecksumValid(s)
    ensures ProcessSentence(st, s, m) == CountReceived(st)
    ensures ProcessSentence(st, s, m).valid == st.valid
  {
  }

  /** A valid sentence that is neither RMC nor GGA (in the GP or GN dialect)
      changes nothing but the two counters. */
  lemma OtherSentencesOnlyCount(st: Receiver, s: string, m: Libm)
    requires ChecksumValid(s) && !IsRmc(s) && !IsGga(s)
    ensures ProcessSentence(st, s, m) == CountValid(CountReceived(st))
  {
  }

  /** Only the four six-character prefixes reach a handler: "$GPRMC"/"$GNRMC"
      the RMC one and "$GPGGA"/"$GNGGA" the GGA one, and no sentence is both. */
  lemma DispatchByPrefix(s: string)
    ensures IsRmc(s) <==> |s| >= 6 && (s[..6] == "$GPRMC" || s[..6] == "$GNRMC")
    ensures IsGga(s) <==> |s| >= 6 && (s[..6] == "$GPGGA" || s[..6] == "$GNGGA")
    ensures !(IsRmc(s) && IsGga(s))
  {
  }

  /** The position tracker touches only X/Y and the origin. */
  lemma TrackPositionFrame(st: Receiver, m: Libm)
    ensures var r := TrackPosition(st, m);
      && r.data.time == st.data.time && r.data.timeBr == st.data.timeBr && r.data.timeSeconds == st.data.timeSeconds
      && r.data.validFix == st.data.validFix && r.data.velocity == st.data.velocity
      && r.data.latitude == st.data.latitude && r.data.longitude == st.data.longitude
      && r.data.z == st.data.z && r.data.satellites == st.data.satellites
      && r.received == st.received && r.valid == st.valid && r.rmcCount == st.rmcCount
      && r.zgpsAnterior == st.zgpsAnterior
  {
  }

  /** `process_gprmc` as its stages: stamp, then either the tracker on an
      active fix with a position, or the status update alone. */
  lemma ApplyRmcStages(st: Receiver, toks: seq<string>, m: Libm)
    ensures var f := RmcFieldsOf(toks);
      var stamped := RmcStamp(st, f);
      && (f.status == 'A' && |f.lat| > 0 && |f.lon| > 0 ==>
            ApplyRmc(st, toks, m) == TrackPosition(WithPosition(MarkActive(stamped, f, m), f, m), m))
      && (f.status == 'A' && !(|f.lat| > 0 && |f.lon| > 0) ==> ApplyRmc(st, toks, m) == MarkActive(stamped, f, m))
      && (f.status != 'A' ==> ApplyRmc(st, toks, m) == MarkInactive(stamped))
  {
  }

  /** What `process_gprmc` leaves alone: the other counters, the altitude
      fields and the satellite text. */
  lemma RmcFrame(st: Receiver, toks: seq<string>, m: Libm)
    ensures var r := ApplyRmc(st, toks, m);
      && r.received == st.received && r.valid == st.valid && r.rmcCount == st.rmcCount + 1
      && r.zgpsAnterior == st.zgpsAnterior && r.data.z == st.data.z && r.data.satellites == st.data.satellites
  {
    var f := RmcFieldsOf(toks);
    ApplyRmcStages(st, toks, m);
    TrackPositionFrame(WithPosition(MarkActive(RmcStamp(st, f), f, m), f, m), m);
  }

  /** What `process_gpgga` leaves alone: the counters, the origin, X/Y and
      everything the RMC handler owns. */
  lemma GgaFrame(st: Receiver, toks: seq<string>, m: Libm)
    ensures var r := ApplyGga(st, toks, m);
      && r.received == st.received && r.valid == st.valid && r.rmcCount == st.rmcCount
      && r.originSet == st.originSet && r.originLat == st.originLat && r.originLon == st.originLon
      && r.data.x == st.data.x && r.data.y == st.data.y
      && r.data.validFix == st.data.validFix && r.data.time == st.data.time
  {
  }

  /** Which handler a sentence reaches: none on a checksum failure, the RMC
      handler for "$GPRMC"/"$GNRMC", the GGA one for "$GPGGA"/"$GNGGA", and
      only the counters change for any other valid sentence. */
  lemma ProcessSentenceDispatch(st: Receiver, s: string, m: Libm)
    ensures var counted := CountValid(CountReceived(st));
      && (!ChecksumValid(s) ==> ProcessSentence(st, s, m) == CountReceived(st))
      && (ChecksumValid(s) && IsRmc(s) ==> ProcessSentence(st, s, m) == ApplyRmc(counted, Tokens(s), m))
      && (ChecksumValid(s) && IsGga(s) ==> ProcessSentence(st, s, m) == ApplyGga(counted, Tokens(s), m))
      && (ChecksumValid(s) && !IsRmc(s) && !IsGga(s) ==> ProcessSentence(st, s, m) == counted)
  {
    if IsRmc(s) && IsGga(s) {
      DispatchByPrefix(s);
    }
  }

  /** Every sentence bumps `sentences_received`; `sentences_valid` goes up
      exactly for the ones with a correct checksum. */
  lemma ProcessSentenceCounters(st: Receiver, s: string, m: Libm)
    ensures var r := ProcessSentence(st, s, m);
      && r.received == st.received + 1
      && r.valid == (if ChecksumValid(s) then st.valid + 1 else st.valid)
  {
    ProcessSentenceDispatch(st, s, m);
    var counted := CountValid(CountReceived(st));
    RmcFrame(counted, Tokens(s), m);
    GgaFrame(counted, Tokens(s), m);
  }

  /** RMC: the time is taken whenever the time token has at least six
      characters, independently of the status; `valid_fix` becomes true exactly
      when the status is 'A'. */
  lemma RmcTimeAndValidity(st: Receiver, toks: seq<string>, m: Libm)
    ensures var r := ApplyRmc(st, toks, m);
      && (|toks| > 1 && |toks[1]| >= 6 ==>
            r.data.time == Take(toks[1], 11) && r.data.timeSeconds == ConvertUtcToBrasilia(Take(toks[1], 11)).1)
      && (!(|toks| > 1 && |toks[1]| >= 6) ==> r.data.time == st.data.time && r.data.timeSeconds == st.data.timeSeconds)
      && (r.data.validFix <==> |toks| > 2 && |toks[2]| > 0 && toks[2][0] == 'A')
  {
    var f := RmcFieldsOf(toks);
    ApplyRmcStages(st, toks, m);
    TrackPositionFrame(WithPosition(MarkActive(RmcStamp(st, f), f, m), f, m), m);
  }

  /** RMC speed: with an active status and a speed token, the velocity is the
      knots value ×1.852, or 0 when that is below 0.5 km/h; otherwise it is kept. */
  lemma RmcSpeed(st: Receiver, toks: seq<string>, m: Libm)
    ensures var r := ApplyRmc(st, toks, m);
      var f := RmcFieldsOf(toks);
      && (f.status == 'A' && |f.speed| > 0 ==> r.data.velocity == SpeedKmh(m.atof(f.speed)))
      && (!(f.status == 'A' && |f.speed| > 0) ==> r.data.velocity == st.data.velocity)
  {
    var f := RmcFieldsOf(toks);
    ApplyRmcStages(st, toks, m);
    TrackPositionFrame(WithPosition(MarkActive(RmcStamp(st, f), f, m), f, m), m);
  }

  /** The origin is captured by the first active RMC sentence that has both a
      latitude and a longitude, and the local position is (0, 0) then. */
  lemma OriginCapturedOnFirstFix(st: Receiver, toks: seq<string>, m: Libm)
    requires !st.originSet
    ensures var r := ApplyRmc(st, toks, m);
      var f := RmcFieldsOf(toks);
      && (r.originSet <==> f.status == 'A' && |f.lat| > 0 && |f.lon| > 0)
      && (r.originSet ==>
            && r.originLat == NmeaToDecimal(f.lat, f.latDir, m) == r.data.latitude
            && r.originLon == NmeaToDecimal(f.lon, f.lonDir, m) == r.data.longitude
            && r.data.x == 0.0 && r.data.y == 0.0)
      && (!r.originSet ==> r.data.x == st.data.x && r.data.y == st.data.y)
  {
  }

  /** Jitter gate of the tracker: with an origin, X/Y move to the projected
      position exactly when that is more than 0.5 m away from the current X/Y
      or the velocity exceeds 1.0 km/h; the origin never moves. */
  lemma JitterGate(st: Receiver, m: Libm)
    requires st.originSet
    ensures var r := TrackPosition(st, m);
      var xy := LatLonToXy(st.data.latitude, st.data.longitude, st.originLat, st.originLon, m);
      var moves := Distance(xy.0 - st.data.x, xy.1 - st.data.y, m) > PositionThreshold || st.data.velocity > 1.0;
      && r.originSet && r.originLat == st.originLat && r.originLon == st.originLon
      && (moves ==> r.data == st.data.(x := xy.0, y := xy.1))
      && (!moves ==> r == st)
  {
  }

  /** The same gate seen from a whole RMC sentence: once an origin exists, X/Y
      change only to the projection of the sentence's own position, and only
      when the gate opens with the velocity this sentence just set. */
  lemma RmcMovesOnlyPastGate(st: Receiver, toks: seq<string>, m: Libm)
    requires st.originSet
    ensures var r := ApplyRmc(st, toks, m);
      && r.originSet && r.originLat == st.originLat && r.originLon == st.originLon
      && ((r.data.x, r.data.y) != (st.data.x, st.data.y) ==>
            var xy := LatLonToXy(r.data.latitude, r.data.longitude, st.originLat, st.originLon, m);
            && (r.data.x, r.data.y) == xy
            && (Distance(xy.0 - st.data.x, xy.1 - st.data.y, m) > PositionThreshold || r.data.velocity > 1.0))
  {
    var f := RmcFieldsOf(toks);
    if f.status == 'A' && |f.lat| > 0 && |f.lon| > 0 {
      var st3 := WithPosition(MarkActive(RmcStamp(st, f), f, m), f, m);
      assert ApplyRmc(st, toks, m) == TrackPosition(st3, m);
      JitterGate(st3, m);
      assert st3.data.x == st.data.x && st3.data.y == st.data.y;
    }
  }

  /** GGA altitude: with an altitude token, the reported altitude is the new
      value when the fix quality is not '0' and the value is positive, and the
      held one otherwise; without it the altitude is untouched. The held value
      only ever takes positive readings. */
  lemma GgaAltitudeHold(st: Receiver, toks: seq<string>, m: Libm)
    ensures var r := ApplyGga(st, toks, m);
      && (|toks| > 9 && |toks[9]| > 0 && GgaFix(toks) != '0' && m.atof(Take(toks[9], 15)) > 0.0 ==>
            r.data.z == m.atof(Take(toks[9], 15)) == r.zgpsAnterior)
      && (|toks| > 9 && !(|toks[9]| > 0 && GgaFix(toks) != '0' && m.atof(Take(toks[9], 15)) > 0.0) ==>
            r.data.z == st.zgpsAnterior == r.zgpsAnterior)
      && (|toks| <= 9 ==> r.data.z == st.data.z && r.zgpsAnterior == st.zgpsAnterior)
      && (r.zgpsAnterior != st.zgpsAnterior ==> r.zgpsAnterior > 0.0)
  {
  }

  lemma RmcPreservesInv(st: Receiver, toks: seq<string>, m: Libm)
    requires Inv(st)
    ensures Inv(ApplyRmc(st, toks, m))
    ensures var r := ApplyRmc(st, toks, m);
      st.originSet ==> r.originSet && r.originLat == st.originLat && r.originLon == st.originLon
  {
    RmcFrame(st, toks, m);
    if st.originSet {
      RmcMovesOnlyPastGate(st, toks, m);
    } else {
      OriginCapturedOnFirstFix(st, toks, m);
    }
  }

  lemma GgaPreservesInv(st: Receiver, toks: seq<string>, m: Libm)
    requires Inv(st)
    ensures Inv(ApplyGga(st, toks, m))
  {
    GgaFrame(st, toks, m);
    GgaAltitudeHold(st, toks, m);
  }

  /** The receiver invariant survives every sentence, and an origin once set
      stays set and unchanged. */
  lemma ProcessSentencePreservesInv(st: Receiver, s: string, m: Libm)
    requires Inv(st)
    ensures Inv(ProcessSentence(st, s, m))
    ensures var r := ProcessSentence(st, s, m);
      st.originSet ==> r.originSet && r.originLat == st.originLat && r.originLon == st.originLon
  {
    ProcessSentenceDispatch(st, s, m);
    var counted := CountValid(CountReceived(st));
    if ChecksumValid(s) && IsRmc(s) {
      RmcPreservesInv(counted, Tokens(s), m);
    } else if ChecksumValid(s) && IsGga(s) {
      GgaFrame(counted, Tokens(s), m);
      GgaPreservesInv(counted, Tokens(s), m);
    }
  }

  // ---------------------------------------------------------------------------
  // Properties of the framer

  /** A '$' hands any pending buffer to the processor and restarts the buffer
      with the '$'. This and the next three lemmas state the framer's rules
      one branch of `FeedByte` at a time and need no proof beyond unfolding
      it; the reasoning over whole byte streams is in `FeedAllPreserves`. */
  lemma DollarRestartsBuffer(fr: Framer, m: Libm)
    ensures FeedByte(fr, '$', m).pending == ['$']
    ensures FeedByte(fr, '$', m).rx == if |fr.pending| > 0 then Flush(fr.rx, fr.pending, m) else fr.rx
  {
  }

  /** A line end processes the buffer only when it begins with '$'; otherwise
      nothing at all changes (the buffer is not even cleared). A rule of the
      framer, by unfolding `FeedByte`. */
  lemma LineEndRule(fr: Framer, c: char, m: Libm)
    requires c == '\n' || c == '\r'
    ensures |fr.pending| > 0 && fr.pending[0] == '$' ==> FeedByte(fr, c, m) == Framer(Flush(fr.rx, fr.pending, m), [])
    ensures !(|fr.pending| > 0 && fr.pending[0] == '$') ==> FeedByte(fr, c, m) == fr
  {
  }

  /** A buffer of at most six characters (as a C string) never reaches the
      processor. A rule of the framer, by unfolding `Flush`. */
  lemma ShortBufferNeverProcessed(rx: Receiver, pending: seq<char>, m: Libm)
    requires |CString(pending)| <= 6
    ensures Flush(rx, pending, m) == rx
  {
  }

  /** Ordinary characters are appended while the buffer holds fewer than 255,
      and dropped once it is full. A rule of the framer, by unfolding
      `FeedByte`. */
  lemma OrdinaryByteAppendsOrDrops(fr: Framer, c: char, m: Libm)
    requires c != '$' && c != '\n' && c != '\r'
    ensures |fr.pending| < 255 ==> FeedByte(fr, c, m) == Framer(fr.rx, fr.pending + [c])
    ensures |fr.pending| >= 255 ==> FeedByte(fr, c, m) == fr
  {
  }

  /** Over any byte stream: the buffer never exceeds 255 characters (so
      `buffer_index` stays in [0, 255]), the receiver invariant holds, and an
      origin once set stays set and unchanged. */
  lemma {:induction false} FeedAllPreserves(fr: Framer, bytes: seq<char>, m: Libm)
    requires |fr.pending| <= NmeaBufferSize - 1 && Inv(fr.rx)
    ensures var r := FeedAll(fr, bytes, m);
      && |r.pending| <= NmeaBufferSize - 1
      && Inv(r.rx)
      && (fr.rx.originSet ==> r.rx.originSet && r.rx.originLat == fr.rx.originLat && r.rx.originLon == fr.rx.originLon)
    decreases |bytes|
  {
    if bytes != [] {
      var prev := FeedAll(fr, bytes[..|bytes| - 1], m);
      FeedAllPreserves(fr, bytes[..|bytes| - 1], m);
      if |prev.pending| > 0 {
        ProcessSentencePreservesInv(prev.rx, CString(prev.pending), m);
      }
    }
  }

  /** Over any byte stream, the counters never decrease and the number of valid
      sentences never overtakes the number received. */
  lemma {:induction false} FeedAllCountersMonotone(fr: Framer, bytes: seq<char>, m: Libm)
    ensures var r := FeedAll(fr, bytes, m);
      r.rx.received >= fr.rx.received && r.rx.valid >= fr.rx.valid
      && r.rx.valid - fr.rx.valid <= r.rx.received - fr.rx.received
    decreases |bytes|
  {
    if bytes != [] {
      var prev := FeedAll(fr, bytes[..|bytes| - 1], m);
      FeedAllCountersMonotone(fr, bytes[..|bytes| - 1], m);
      if |prev.pending| > 0 {
        ProcessSentenceCounters(prev.rx, CString(prev.pending), m);
      }
    }
  }

  // ---------------------------------------------------------------------------
  // The driver's globals

  /** The driver's static state: `nmea_buffer` and `buffer_index`, and in
      `rx` the globals the parser updates (`gps_data`, the origin, the held
      altitude and the diagnostic counters). */
  class GpsReceiver {
    /** The numeric library the driver links against. */
    const libm: Libm
    /** `nmea_buffer`. */
    const nmeaBuffer: array<char>
    var bufferIndex: int
    var rx: Receiver

    /** The buffer has its declared size and `buffer_index` stays inside it
        (with room for the terminating NUL). */
    ghost predicate Valid()
      reads this
    {
      && nmeaBuffer.Length == NmeaBufferSize
      && 0 <= bufferIndex < NmeaBufferSize
    }

    /** The characters pending in `nmea_buffer`. */
    function Pending(): seq<char>
      reads this, nmeaBuffer
      requires 0 <= bufferIndex <= nmeaBuffer.Length
    {
      nmeaBuffer[..bufferIndex]
    }

    constructor (m: Libm)
      ensures Valid() && fresh(nmeaBuffer)
      ensures rx == InitialReceiver && bufferIndex == 0 && libm == m
    {
      libm := m;
      nmeaBuffer := new char[NmeaBufferSize];
      bufferIndex := 0;
      rx := InitialReceiver;
    }

    /** The origin capture and jitter-gated X/Y update of `process_gprmc`,
        run once `gps_data` holds the new latitude and longitude. */
    method UpdatePosition()
      modifies this
      ensures rx == TrackPosition(old(rx), libm)
      ensures bufferIndex == old(bufferIndex)
    {
      if !rx.originSet {
        rx := rx.(originLat := rx.data.latitude, originLon := rx.data.longitude, originSet := true);
        rx := rx.(data := rx.data.(x := 0.0, y := 0.0));
      } else {
        var xy := LatLonToXy(rx.data.latitude, rx.data.longitude, rx.originLat, rx.originLon, libm);
        var dx := xy.0 - rx.data.x;
        var dy := xy.1 - rx.data.y;
        var dist := libm.sqrt(dx * dx + dy * dy);
        assert dist == Distance(dx, dy, libm);
        if dist > PositionThreshold || rx.data.velocity > 1.0 {
          rx := rx.(data := rx.data.(x := xy.0, y := xy.1));
        }
      }
    }

    /** `process_gprmc`. */
    method ProcessGprmc(sentence: string)
      modifies this
      ensures rx == ApplyRmc(old(rx), Tokens(sentence), libm)
      ensures bufferIndex == old(bufferIndex)
    {
      var f := ScanRmcFields(Tokens(sentence));
      rx := rx.(rmcCount := rx.rmcCount + 1);
      if |f.time| >= 6 {
        var conv := ConvertUtcToBrasilia(f.time);
        rx := rx.(data := rx.data.(time := f.time, timeBr := conv.0, timeSeconds := conv.1));
      }
      ghost var stamped := rx;
      assert stamped == RmcStamp(old(rx), f);
      if f.status == 'A' {
        rx := rx.(data := rx.data.(validFix := true));
        if |f.speed| > 0 {
          var v := libm.atof(f.speed) * 1.852;
          if v < 0.5 { v := 0.0; }
          rx := rx.(data := rx.data.(velocity := v));
        }
        assert rx == MarkActive(stamped, f, libm);
        if |f.lat| > 0 && |f.lon| > 0 {
          rx := rx.(data := rx.data.(latitude := NmeaToDecimal(f.lat, f.latDir, libm),
                                     longitude := NmeaToDecimal(f.lon, f.lonDir, libm)));
          assert rx == WithPosition(MarkActive(stamped, f, libm), f, libm);
          UpdatePosition();
        }
      } else {
        rx := rx.(data := rx.data.(validFix := false));
        assert rx == MarkInactive(stamped);
      }
    }

    /** `process_gpgga`, whose token loop writes the altitude as it goes. */
    method ProcessGpgga(sentence: string)
      modifies this
      ensures rx == ApplyGga(old(rx), Tokens(sentence), libm)
      ensures bufferIndex == old(bufferIndex)
    {
      var toks := Tokens(sentence);
      var fixQuality := '0';
      var field := 0;
      while field < |toks|
        invariant 0 <= field <= |toks|
        invariant fixQuality == GgaFix(toks[..field])
        invariant rx == ApplyGga(old(rx), toks[..field], libm)
        invariant bufferIndex == old(bufferIndex)
      {
        var token := toks[field];
        if field == 6 {
          if |token| > 0 { fixQuality := token[0]; }
        } else if field == 7 {
          if |token| > 0 { rx := rx.(data := rx.data.(satellites := Take(Take(token, 7), 3))); }
        } else if field == 9 {
          if |token| > 0 && fixQuality != '0' {
            var zgpsNovo := libm.atof(Take(token, 15));
            if zgpsNovo > 0.0 {
              rx := rx.(data := rx.data.(z := zgpsNovo), zgpsAnterior := zgpsNovo);
            } else {
              rx := rx.(data := rx.data.(z := rx.zgpsAnterior));
            }
          } else {
            rx := rx.(data := rx.data.(z := rx.zgpsAnterior));
          }
        }
        field := field + 1;
      }
      assert toks[..field] == toks;
    }

    /** The talker/type dispatch at the end of `process_nmea_sentence`. */
    method DispatchSentence(sentence: string)
      modifies this
      ensures rx == Dispatch(old(rx), sentence, libm)
      ensures bufferIndex == old(bufferIndex)
    {
      if HasPrefix(sentence, "$GPRMC") || HasPrefix(sentence, "$GNRMC") {
        ProcessGprmc(sentence);
      } else if HasPrefix(sentence, "$GPGGA") || HasPrefix(sentence, "$GNGGA") {
        ProcessGpgga(sentence);
      }
    }

    /** `process_nmea_sentence`. */
    method ProcessNmeaSentence(sentence: string)
      modifies this
      ensures rx == ProcessSentence(old(rx), sentence, libm)
      ensures bufferIndex == old(bufferIndex)
    {
      rx := CountReceived(rx);
      var ok := ValidateNmeaChecksum(sentence);
      if !ok {
        return;
      }
      rx := CountValid(rx);
      DispatchSentence(sentence);
    }

    /** The block both branches of `read_gps_data` share: terminate the
        buffer and process it when it holds more than six characters. */
    method FlushBuffer()
      requires Valid()
      modifies this, nmeaBuffer
      ensures Valid() && bufferIndex == old(bufferIndex) && Pending() == old(Pending())
      ensures rx == Flush(old(rx), old(Pending()), libm)
    {
      nmeaBuffer[bufferIndex] := '\0';
      assert Pending() == old(Pending());
      var s := CString(nmeaBuffer[..bufferIndex]);
      if |s| > 6 {
        ProcessNmeaSentence(s);
      }
    }

    /** `read_gps_data`: drain the bytes the UART holds. */
    method ReadGpsData(bytes: seq<char>)
      requires Valid()
      modifies this, nmeaBuffer
      ensures Valid()
      ensures Framer(rx, Pending()) == FeedAll(Framer(old(rx), old(Pending())), bytes, libm)
    {
      var i := 0;
      while i < |bytes|
        invariant 0 <= i <= |bytes|
        invariant Valid()
        invariant Framer(rx, Pending()) == FeedAll(Framer(old(rx), old(Pending())), bytes[..i], libm)
      {
        var c := bytes[i];
        ghost var before := Framer(rx, Pending());
        if c == '$' {
          if bufferIndex > 0 {
            FlushBuffer();
          }
          bufferIndex := 0;
          nmeaBuffer[bufferIndex] := c;
          bufferIndex := bufferIndex + 1;
          assert Pending() == ['$'];
        } else if c == '\n' || c == '\r' {
          if bufferIndex > 0 && nmeaBuffer[0] == '$' {
            FlushBuffer();
            bufferIndex := 0;
          }
        } else if bufferIndex < NmeaBufferSize - 1 {
          nmeaBuffer[bufferIndex] := c;
          bufferIndex := bufferIndex + 1;
          assert Pending() == before.pending + [c];
        }
        assert Framer(rx, Pending()) == FeedByte(before, c, libm);
        assert bytes[..i + 1][..i] == bytes[..i];
        i := i + 1;
      }
      assert bytes[..i] == bytes;
    }
  }
}
