/** The decisions `main` takes in each pass of the flight computer's loop: the
    wrapping cycle counter, the barometer sampled every fifth cycle with its
    altitude hold, the capture counter, the mission clock started once on the
    first valid fix, and the HUD record assembled on every cycle with a fix.
    Sensor answers and clock readings are inputs of each cycle. */
module FlightLoop {
  import opened Base
  import opened Barometer
  import opened FlightStatus
  import opened MovingAverage

  /** The barometer is sampled on cycles whose counter is a multiple of this. */
  const BarometerPeriod: nat := 5

  /** Altitude readings at or below this are not stored. */
  const AltitudeFloor: real := 0.1

  /** Below this stored altitude the loop emits its `STOP` line. */
  const StopAltitude: real := 0.2

  /** The loop's locals that outlive a cycle (`contador`, `contador_captura`,
      `altitude_bme`, `altitude_bme_anterior`, `pressao_atual`,
      `gps_time_offset`, `tempo_inicio`, `tempo_inicializado`). */
  datatype LoopState = LoopState(
    contador: nat,
    contadorCaptura: nat,
    altitudeBme: real,
    altitudeBmeAnterior: real,
    pressaoAtual: real,
    gpsTimeOffset: nat,
    tempoInicio: int,
    tempoInicializado: bool)

  /** The values the locals are declared with. */
  const InitialLoop: LoopState := LoopState(0, 0, 0.0, 0.0, 0.0, 0, 0, false)

  /** What one cycle observes: the clock at the top of the cycle (µs), the
      barometer driver's answer when it is sampled, the GPS fix getters, and
      the clock read again when the mission clock is started. */
  datatype Cycle = Cycle(
    atual: int,
    barometer: FieldData,
    fixValid: bool,
    gpsZ: real,
    gpsTime: nat,
    inicio: int)

  // ---------------------------------------------------------------------------
  // Mission clock

  /** `tempo_total` exactly as computed: the signed microsecond difference is
      divided by 1000 truncating, converted to `uint32_t`, divided by 1000 and
      added to the offset in `uint32_t` arithmetic. */
  function MissionTimeAsWritten(offset: nat, inicio: int, atual: int): (t: nat)
    ensures t < UInt32Modulus
  {
    var tempoPicoMs := ToUInt32(CDiv(atual - inicio, 1000));
    ToUInt32(offset + tempoPicoMs / 1000)
  }

  /** `tempo_total` with the start time read after the cycle's own clock
      counting as no time elapsed: whole seconds since the start added to the
      GPS time captured with it. */
  function MissionTime(offset: nat, inicio: int, atual: int): (t: nat)
    ensures t < UInt32Modulus
  {
    var diff := atual - inicio;
    var tempoPicoMs := if diff < 0 then 0 else ToUInt32(diff / 1000);
    ToUInt32(offset + tempoPicoMs / 1000)
  }

  lemma SplitThousand(x: nat, q: nat, r: nat)
    requires x == 1000 * q + r && r < 1000
    ensures x / 1000 == q
  {
  }

  lemma SplitMillion(x: nat, q: nat, r: nat)
    requires x == 1000000 * q + r && r < 1000000
    ensures x / 1000000 == q
  {
  }

  /** Dividing by 1000 twice is dividing by a million. */
  lemma ThousandThousand(x: nat)
    ensures x / 1000 / 1000 == x / 1000000
  {
    var a, r1 := x / 1000, x % 1000;
    var q, r2 := a / 1000, a % 1000;
    SplitMillion(x, q, 1000 * r2 + r1);
  }

  /** Without wrap-around the mission time is the captured GPS time plus the
      whole seconds elapsed since the capture. */
  lemma MissionTimeElapsed(offset: nat, inicio: int, atual: int)
    requires 0 <= atual - inicio < 1000 * UInt32Modulus
    requires offset + (atual - inicio) / 1000000 < UInt32Modulus
    ensures MissionTime(offset, inicio, atual) == offset + (atual - inicio) / 1000000
  {
    var diff: nat := atual - inicio;
    SplitThousand(diff, diff / 1000, diff % 1000);
    ThousandThousand(diff);
  }

  /** Within the no-wrap range the mission time never runs backwards. */
  lemma MissionTimeMonotone(offset: nat, inicio: int, atual1: int, atual2: int)
    requires inicio <= atual1 <= atual2
    requires atual2 - inicio < 1000 * UInt32Modulus
    requires offset + (atual2 - inicio) / 1000000 < UInt32Modulus
    ensures MissionTime(offset, inicio, atual1) <= MissionTime(offset, inicio, atual2)
  {
    var d1: nat, d2: nat := atual1 - inicio, atual2 - inicio;
    assert d1 / 1000000 <= d2 / 1000000 by {
      SplitMillion(d1, d1 / 1000000, d1 % 1000000);
      SplitMillion(d2, d2 / 1000000, d2 % 1000000);
    }
    MissionTimeElapsed(offset, inicio, atual1);
    MissionTimeElapsed(offset, inicio, atual2);
  }

  /** 5.4 s after the capture the clock reads the captured time plus 5. */
  lemma MissionTimeExample(offset: nat, inicio: int)
    requires offset + 5 < UInt32Modulus
    ensures MissionTime(offset, inicio, inicio + 5400000) == offset + 5
  {
    MissionTimeElapsed(offset, inicio, inicio + 5400000);
  }

  /** On the capture cycle itself the clock reads the captured GPS time. */
  lemma MissionTimeAtCapture(offset: nat, inicio: int, atual: int)
    requires offset < UInt32Modulus && atual <= inicio
    ensures MissionTime(offset, inicio, atual) == offset
  {
  }

  /** The correction only concerns a start read more than a millisecond after
      the cycle's clock: otherwise both computations agree. */
  lemma MissionTimeCorrectionScope(offset: nat, inicio: int, atual: int)
    requires atual - inicio > -1000
    ensures MissionTime(offset, inicio, atual) == MissionTimeAsWritten(offset, inicio, atual)
  {
    if atual - inicio < 0 {
      assert CDiv(atual - inicio, 1000) == 0;
    }
  }

  /** As written, a start read between one millisecond and one second after
      the cycle's clock (the barometer read alone sleeps five milliseconds or
      more) makes the millisecond count negative; its conversion to
      `uint32_t` wraps, and the capture cycle reports a time more than
      4294965 s (about 49.7 days) past the captured GPS time. */
  lemma CaptureCycleClockJumps(offset: nat, inicio: int, atual: int)
    requires offset + 4294967 < UInt32Modulus
    requires 1000 <= inicio - atual < 1000000
    ensures MissionTimeAsWritten(offset, inicio, atual) >= offset + 4294966
    ensures MissionTime(offset, inicio, atual) == offset
  {
    var k := (inicio - atual) / 1000;
    assert 1 <= k <= 999;
    assert CDiv(atual - inicio, 1000) == -k;
    assert ToUInt32(-k) == UInt32Modulus - k;
    if k <= 296 {
      SplitThousand(UInt32Modulus - k, 4294967, 296 - k);
    } else {
      SplitThousand(UInt32Modulus - k, 4294966, 1296 - k);
    }
  }

  /** The classifier's 60-second gate is compared with this clock, which
      starts from the time of day: once the captured GPS time is past 00:01:00
      the gate is open from the first fix on. */
  lemma FlightTimeGateAlwaysOpen(offset: nat, inicio: int, atual: int)
    requires 60 < offset && offset + 1000000 < UInt32Modulus
    requires inicio <= atual < inicio + 1000000000000
    ensures MissionTime(offset, inicio, atual) > 60
  {
    MissionTimeElapsed(offset, inicio, atual);
  }

  // ---------------------------------------------------------------------------
  // Altitude hold

  /** The protection around each barometer reading: a reading above 0.1 m
      replaces both stored altitudes; otherwise, once the counter is past 100,
      the last stored reading is restored. Returns the new `altitude_bme` and
      `altitude_bme_anterior`. */
  function HoldAltitude(contador: nat, altTemp: real, altitudeBme: real, anterior: real): (r: (real, real))
    ensures altTemp > AltitudeFloor ==> r == (altTemp, altTemp)
    ensures r.1 != anterior ==> r.1 == altTemp && altTemp > AltitudeFloor
    ensures contador > 100 ==> r.0 == r.1
    ensures r.0 == altTemp || r.0 == altitudeBme || r.0 == anterior
  {
    if altTemp > AltitudeFloor then (altTemp, altTemp)
    else if contador > 100 then (anterior, anterior)
    else (altitudeBme, anterior)
  }

  /** The two stored altitudes agree and hold either the initial zero or a
      reading above the floor. */
  predicate AltitudeHeld(st: LoopState)
  {
    && st.altitudeBme == st.altitudeBmeAnterior
    && (st.altitudeBme == 0.0 || st.altitudeBme > AltitudeFloor)
  }

  /** With the two stored altitudes equal, the restore branch changes nothing:
      the stored altitude moves exactly when a reading is above the floor. */
  lemma HoldRestoreIsNoOp(contador: nat, altTemp: real, stored: real)
    ensures HoldAltitude(contador, altTemp, stored, stored)
            == (if altTemp > AltitudeFloor then (altTemp, altTemp) else (stored, stored))
  {
  }

  // ---------------------------------------------------------------------------
  // One cycle

  /** `contador++` on a `uint32_t`: the counter goes up by one and wraps
      from 2^32 - 1 to 0; the rest of the state is kept. */
  function Tick(st: LoopState): (r: LoopState)
    ensures st.contador + 1 < UInt32Modulus ==> r.contador == st.contador + 1
    ensures st.contador + 1 == UInt32Modulus ==> r.contador == 0
    ensures r.contador < UInt32Modulus
    ensures r == st.(contador := r.contador)
  {
    LoopState(ToUInt32(st.contador + 1), st.contadorCaptura, st.altitudeBme, st.altitudeBmeAnterior,
              st.pressaoAtual, st.gpsTimeOffset, st.tempoInicio, st.tempoInicializado)
  }

  /** Every fifth cycle: read the barometer into a zeroed `alt_temp` and the
      running pressure, then apply the hold. Returns the new `altitude_bme`,
      `altitude_bme_anterior` and `pressao_atual`. */
  function SampleAltitude(contador: nat, d: FieldData, pressaoBase: real, pressaoAtual: real,
                          altitudeBme: real, anterior: real, m: Libm): (real, real, real)
    requires pressaoBase != 0.0
  {
    if contador % BarometerPeriod != 0 then (altitudeBme, anterior, pressaoAtual)
    else
      var pressao := if IsNewData(d) then d.pressure / 100.0 else pressaoAtual;
      var altTemp := if IsNewData(d) then AltitudeFromPressure(pressao, pressaoBase, m) else 0.0;
      var held := HoldAltitude(contador, altTemp, altitudeBme, anterior);
      (held.0, held.1, pressao)
  }

  /** The barometer part of a cycle on the loop state. */
  function SampleBarometer(st: LoopState, d: FieldData, pressaoBase: real, m: Libm): LoopState
    requires pressaoBase != 0.0
  {
    var r := SampleAltitude(st.contador, d, pressaoBase, st.pressaoAtual, st.altitudeBme, st.altitudeBmeAnterior, m);
    LoopState(st.contador, st.contadorCaptura, r.0, r.1, r.2, st.gpsTimeOffset, st.tempoInicio, st.tempoInicializado)
  }

  /** On a valid fix: count captures with a positive GPS altitude, and start
      the mission clock if it has not been started. */
  function TrackFix(st: LoopState, c: Cycle): LoopState
  {
    if !c.fixValid then st
    else
      var captura := if c.gpsZ > 0.0 then ToUInt32(st.contadorCaptura + 1) else st.contadorCaptura;
      var offset := if st.tempoInicializado then st.gpsTimeOffset else ToUInt32(c.gpsTime);
      var inicio := if st.tempoInicializado then st.tempoInicio else c.inicio;
      LoopState(st.contador, captura, st.altitudeBme, st.altitudeBmeAnterior,
                st.pressaoAtual, offset, inicio, true)
  }

  /** One pass of the loop. */
  function Step(st: LoopState, c: Cycle, pressaoBase: real, m: Libm): LoopState
    requires pressaoBase != 0.0
  {
    TrackFix(SampleBarometer(Tick(st), c.barometer, pressaoBase, m), c)
  }

  /** The state after the given cycles, in order. */
  function Run(st: LoopState, cycles: seq<Cycle>, pressaoBase: real, m: Libm): LoopState
    requires pressaoBase != 0.0
    decreases |cycles|
  {
    if cycles == [] then st
    else Step(Run(st, cycles[..|cycles| - 1], pressaoBase, m), cycles[|cycles| - 1], pressaoBase, m)
  }

  /** What a cycle emits: whether it printed `STOP`, and the mission time
      when it had a fix. */
  datatype Report = Report(stop: bool, tempoTotal: Option<nat>)

  /** The report of a cycle, from the state at its end. */
  function ReportOf(st: LoopState, c: Cycle): Report
  {
    Report(st.altitudeBme < StopAltitude,
           if c.fixValid then Some(MissionTime(st.gpsTimeOffset, st.tempoInicio, c.atual)) else None)
  }

  /** The report uses the corrected clock, but once the clock has started it
      differs from the code as written on no later cycle: the monotonic clock
      never reads earlier than the start. */
  lemma ReportMatchesCodeAfterCapture(st: LoopState, c: Cycle, pressaoBase: real, m: Libm)
    requires pressaoBase != 0.0 && st.tempoInicializado && c.fixValid && c.atual >= st.tempoInicio
    ensures var next := Step(st, c, pressaoBase, m);
            ReportOf(next, c).tempoTotal == Some(MissionTimeAsWritten(next.gpsTimeOffset, next.tempoInicio, c.atual))
  {
    var next := Step(st, c, pressaoBase, m);
    ClockCapturedOnce(st, [c], pressaoBase, m);
    assert Run(st, [c], pressaoBase, m) == next;
    MissionTimeCorrectionScope(next.gpsTimeOffset, next.tempoInicio, c.atual);
  }

  /** A cycle keeps the altitude hold. */
  lemma StepKeepsHold(st: LoopState, c: Cycle, pressaoBase: real, m: Libm)
    requires pressaoBase != 0.0 && AltitudeHeld(st)
    ensures AltitudeHeld(Step(st, c, pressaoBase, m))
  {
  }

  /** The hold is kept over any run. */
  lemma {:induction false} RunKeepsHold(st: LoopState, cycles: seq<Cycle>, pressaoBase: real, m: Libm)
    requires pressaoBase != 0.0 && AltitudeHeld(st)
    ensures AltitudeHeld(Run(st, cycles, pressaoBase, m))
    decreases |cycles|
  {
    if cycles != [] {
      RunKeepsHold(st, cycles[..|cycles| - 1], pressaoBase, m);
      StepKeepsHold(Run(st, cycles[..|cycles| - 1], pressaoBase, m), cycles[|cycles| - 1], pressaoBase, m);
    }
  }

  /** The barometer is read only on every fifth cycle: on the others the
      altitudes and the pressure stay as they were. */
  lemma BarometerEveryFifthCycle(st: LoopState, c: Cycle, pressaoBase: real, m: Libm)
    requires pressaoBase != 0.0
    requires ToUInt32(st.contador + 1) % BarometerPeriod != 0
    ensures var next := Step(st, c, pressaoBase, m);
            next.altitudeBme == st.altitudeBme && next.altitudeBmeAnterior == st.altitudeBmeAnterior
            && next.pressaoAtual == st.pressaoAtual
  {
  }

  /** The first valid fix starts the clock with its GPS time and the start
      reading; a cycle without a fix leaves the clock alone. */
  lemma ClockStartsOnFirstFix(st: LoopState, c: Cycle, pressaoBase: real, m: Libm)
    requires pressaoBase != 0.0
    ensures var next := Step(st, c, pressaoBase, m);
            && (!st.tempoInicializado && c.fixValid ==>
                  next.tempoInicializado && next.gpsTimeOffset == ToUInt32(c.gpsTime) && next.tempoInicio == c.inicio)
            && (!c.fixValid ==>
                  next.tempoInicializado == st.tempoInicializado
                  && next.gpsTimeOffset == st.gpsTimeOffset && next.tempoInicio == st.tempoInicio)
  {
  }

  /** Once started, the clock is never started again: later cycles keep the
      captured offset and start time. */
  lemma {:induction false} ClockCapturedOnce(st: LoopState, cycles: seq<Cycle>, pressaoBase: real, m: Libm)
    requires pressaoBase != 0.0 && st.tempoInicializado
    ensures var end := Run(st, cycles, pressaoBase, m);
            end.tempoInicializado && end.gpsTimeOffset == st.gpsTimeOffset && end.tempoInicio == st.tempoInicio
    decreases |cycles|
  {
    if cycles != [] {
      ClockCapturedOnce(st, cycles[..|cycles| - 1], pressaoBase, m);
    }
  }

  /** The capture counter advances (modulo 2^32) exactly on cycles with a
      valid fix and a positive GPS altitude. */
  lemma CaptureCounting(st: LoopState, c: Cycle, pressaoBase: real, m: Libm)
    requires pressaoBase != 0.0
    ensures var next := Step(st, c, pressaoBase, m);
            next.contadorCaptura
            == if c.fixValid && c.gpsZ > 0.0 then ToUInt32(st.contadorCaptura + 1) else st.contadorCaptura
  {
  }

  /** The barometer part of a cycle: on every fifth count, `alt_temp` is
      zeroed, the barometer read into it and the running pressure, and the
      hold applied; returns `altitude_bme`, `altitude_bme_anterior` and
      `pressao_atual`. */
  method BarometerStage(contador: nat, d: FieldData, pressaoBase: real, pressaoAtual: real,
                        altitudeBme: real, altitudeBmeAnterior: real, m: Libm)
    returns (alt: real, anterior: real, pressao: real)
    requires pressaoBase != 0.0
    ensures (alt, anterior, pressao) == SampleAltitude(contador, d, pressaoBase, pressaoAtual, altitudeBme, altitudeBmeAnterior, m)
  {
    alt, anterior, pressao := altitudeBme, altitudeBmeAnterior, pressaoAtual;
    if contador % BarometerPeriod == 0 {
      var ok, altTemp;
      ok, pressao, altTemp := LerAltitude(d, pressaoBase, pressao, 0.0, m);
      if altTemp > AltitudeFloor {
        alt := altTemp;
        anterior := altTemp;
      } else if contador > 100 {
        alt := anterior;
      }
    }
  }

  /** `tempo_pico_ms` and `tempo_total` of a cycle with a fix. */
  method MissionClock(gpsTimeOffset: nat, tempoInicio: int, atual: int) returns (tempoTotal: nat)
    ensures tempoTotal == MissionTime(gpsTimeOffset, tempoInicio, atual)
  {
    var diff := atual - tempoInicio;
    var tempoPicoMs := if diff < 0 then 0 else ToUInt32(diff / 1000);
    tempoTotal := ToUInt32(gpsTimeOffset + tempoPicoMs / 1000);
  }

  /** One pass of `main`'s loop, from the counter increment to the mission
      time of a cycle with a fix. */
  method RunCycle(st: LoopState, c: Cycle, pressaoBase: real, m: Libm) returns (next: LoopState, report: Report)
    requires pressaoBase != 0.0
    ensures next == Step(st, c, pressaoBase, m)
    ensures report == ReportOf(next, c)
  {
    var contador := ToUInt32(st.contador + 1);
    var altitudeBme, altitudeBmeAnterior, pressaoAtual :=
      BarometerStage(contador, c.barometer, pressaoBase, st.pressaoAtual, st.altitudeBme, st.altitudeBmeAnterior, m);
    var stop := altitudeBme < StopAltitude;
    var contadorCaptura, gpsTimeOffset, tempoInicio, tempoInicializado :=
      st.contadorCaptura, st.gpsTimeOffset, st.tempoInicio, st.tempoInicializado;
    var tempoTotal := None;
    if c.fixValid {
      if c.gpsZ > 0.0 {
        contadorCaptura := ToUInt32(contadorCaptura + 1);
      }
      if !tempoInicializado {
        gpsTimeOffset := ToUInt32(c.gpsTime);
        tempoInicio := c.inicio;
        tempoInicializado := true;
      }
      var t := MissionClock(gpsTimeOffset, tempoInicio, c.atual);
      tempoTotal := Some(t);
    }
    next := LoopState(contador, contadorCaptura, altitudeBme, altitudeBmeAnterior, pressaoAtual,
                      gpsTimeOffset, tempoInicio, tempoInicializado);
    report := Report(stop, tempoTotal);
  }

  /** `main`'s loop over a finite prefix of its cycles. */
  method MainLoop(cycles: seq<Cycle>, pressaoBase: real, m: Libm) returns (st: LoopState, reports: seq<Report>)
    requires pressaoBase != 0.0
    ensures st == Run(InitialLoop, cycles, pressaoBase, m)
    ensures |reports| == |cycles|
    ensures forall i :: 0 <= i < |cycles| ==>
              reports[i] == ReportOf(Run(InitialLoop, cycles[..i + 1], pressaoBase, m), cycles[i])
    ensures AltitudeHeld(st)
  {
    st := InitialLoop;
    reports := [];
    var i := 0;
    while i < |cycles|
      invariant 0 <= i <= |cycles| && |reports| == i
      invariant st == Run(InitialLoop, cycles[..i], pressaoBase, m)
      invariant forall k :: 0 <= k < i ==>
                  reports[k] == ReportOf(Run(InitialLoop, cycles[..k + 1], pressaoBase, m), cycles[k])
    {
      assert cycles[..i + 1][..i] == cycles[..i];
      var report;
      st, report := RunCycle(st, cycles[i], pressaoBase, m);
      reports := reports + [report];
      i := i + 1;
    }
    assert cycles[..|cycles|] == cycles;
    RunKeepsHold(InitialLoop, cycles, pressaoBase, m);
  }

  // ---------------------------------------------------------------------------
  // HUD record

  /** `hud_data_t`. */
  datatype HudData = HudData(
    gpsTime: nat,
    latitude: real,
    longitude: real,
    altitudeGps: real,
    gpsSats: nat,
    altitudeBme: real,
    velocityCas: real,
    accelZ: real,
    theta: real,
    phi: real,
    status: Status)

  /** The filter part of a cycle with a fix: add the raw position and read
      back the window's mean. */
  method SmoothPosition(filter: GpsFilter, gpsX: real, gpsY: real, gpsZ: real) returns (avg: Vec3)
    requires filter.Valid()
    modifies filter, filter.xBuffer, filter.yBuffer, filter.zBuffer
    ensures filter.Valid() && filter.samples == old(filter.samples) + [Vec3(gpsX, gpsY, gpsZ)]
    ensures avg == RecentMean(filter.samples)
  {
    filter.Add(gpsX, gpsY, gpsZ);
    var x, y, z := filter.GetAverage();
    avg := Vec3(x, y, z);
  }

  /** The HUD record of a cycle with a valid fix: the raw position goes
      through the moving average, the airspeed comes from the running
      pressure, the satellite count is stored in a byte, and the classifier
      is given the mission time. */
  method UpdateHud(filter: GpsFilter, classifier: StatusClassifier, tempoTotal: nat,
                   gpsX: real, gpsY: real, gpsZ: real, satellites: int,
                   altitudeBme: real, pressaoAtual: real, pressaoBase: real,
                   accelZ: real, theta: real, phi: real, m: Libm)
    returns (hud: HudData)
    requires filter.Valid()
    modifies filter, filter.xBuffer, filter.yBuffer, filter.zBuffer, classifier
    ensures filter.Valid() && filter.samples == old(filter.samples) + [Vec3(gpsX, gpsY, gpsZ)]
    ensures var avg, cas := RecentMean(filter.samples), Cas(pressaoAtual, pressaoBase, m);
            hud == HudData(tempoTotal, avg.x, avg.y, avg.z, satellites % 256, altitudeBme, cas, accelZ, theta, phi,
                           NextStatus(old(classifier.statusAnterior), altitudeBme, cas, tempoTotal))
    ensures classifier.statusAnterior == hud.status
  {
    var avg := SmoothPosition(filter, gpsX, gpsY, gpsZ);
    var cas := Cas(pressaoAtual, pressaoBase, m);
    var status := classifier.DeterminarStatus(altitudeBme, cas, tempoTotal);
    hud := HudData(tempoTotal, avg.x, avg.y, avg.z, satellites % 256, altitudeBme, cas, accelZ, theta, phi, status);
  }
}
