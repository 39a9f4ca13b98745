/** The glider's flight-phase classifier (attached / deployed / landed) with
    its hysteresis, the names the HUD prints for it, the HUD clock, and the
    calibrated-airspeed estimate from dynamic pressure. */
module FlightStatus {
  import opened Base

  /** `drone_status_t`: attached to the mother ship, in flight, on the ground. */
  datatype Status = ATT | DPL | LND

  /** The enum's integer value. */
  function Code(s: Status): (c: int)
    ensures 0 <= c <= 2
  {
    match s
    case ATT => 0
    case DPL => 1
    case LND => 2
  }

  /** The three-letter name the HUD line carries for a status code; any other
      code prints as "UNK". */
  function StatusToString(code: int): (name: string)
    ensures |name| == 3
    ensures name == "UNK" <==> !(0 <= code <= 2)
  {
    if code == 0 then "ATT"
    else if code == 1 then "DPL"
    else if code == 2 then "LND"
    else "UNK"
  }

  /** Reading a printed name back into a status. */
  function StatusOfName(name: string): Option<Status>
  {
    if name == "ATT" then Some(ATT)
    else if name == "DPL" then Some(DPL)
    else if name == "LND" then Some(LND)
    else None
  }

  /** Every status prints under its own name, and reading the name back gives
      the status again. */
  lemma StatusNameRoundTrip(s: Status)
    ensures StatusOfName(StatusToString(Code(s))) == Some(s)
    ensures StatusToString(Code(s)) != "UNK"
  {
  }

  /** The landed entry rule: below 2 m and slower than 0.5 km/h. */
  predicate LandedEntry(altitude: real, velocidade: real)
  {
    altitude < 2.0 && velocidade < 0.5
  }

  /** The in-flight entry rule: above 5 m, more than 60 s of mission time and
      faster than 0.5 km/h. */
  predicate DeployedEntry(altitude: real, velocidade: real, tempoVoo: nat)
  {
    altitude > 5.0 && tempoVoo > 60 && velocidade > 0.5
  }

  /** The status `determinar_status` returns after `previous`, rule by rule
      in the order of the C code. */
  function NextStatus(previous: Status, altitude: real, velocidade: real, tempoVoo: nat): (next: Status)
    ensures LandedEntry(altitude, velocidade) ==> next == LND
    ensures next == LND ==> LandedEntry(altitude, velocidade) || previous == LND
    ensures next == DPL ==> DeployedEntry(altitude, velocidade, tempoVoo) || previous == DPL
    ensures next != previous ==> next == ATT || LandedEntry(altitude, velocidade) || DeployedEntry(altitude, velocidade, tempoVoo)
  {
    if LandedEntry(altitude, velocidade) then LND
    else if DeployedEntry(altitude, velocidade, tempoVoo) then DPL
    else if previous == LND && (altitude > 3.0 || velocidade > 1.0) then ATT
    else if previous == DPL && (altitude < 3.0 || velocidade < 0.5) then ATT
    else previous
  }

  /** Landing wins over every other rule and every previous status. */
  lemma LandingOverridesHistory(previous: Status, altitude: real, velocidade: real, tempoVoo: nat)
    requires altitude < 2.0 && velocidade < 0.5
    ensures NextStatus(previous, altitude, velocidade, tempoVoo) == LND
  {
  }

  /** Entering flight from any other status needs all three thresholds. */
  lemma DeployNeedsAllThresholds(previous: Status, altitude: real, velocidade: real, tempoVoo: nat)
    requires previous != DPL && NextStatus(previous, altitude, velocidade, tempoVoo) == DPL
    ensures altitude > 5.0 && tempoVoo > 60 && velocidade > 0.5
  {
  }

  /** Touching down from any other status needs low and slow. */
  lemma TouchdownNeedsLowAndSlow(previous: Status, altitude: real, velocidade: real, tempoVoo: nat)
    requires previous != LND && NextStatus(previous, altitude, velocidade, tempoVoo) == LND
    ensures altitude < 2.0 && velocidade < 0.5
  {
  }

  /** Leaving the ground needs a climb above 3 m or more than 1 km/h, and
      leaving flight needs a descent below 3 m or less than 0.5 km/h; an
      attached glider stays attached until an entry rule fires. */
  lemma ExitThresholds(previous: Status, altitude: real, velocidade: real, tempoVoo: nat)
    ensures var next := NextStatus(previous, altitude, velocidade, tempoVoo);
            && (previous == LND && next != LND ==> altitude > 3.0 || velocidade > 1.0)
            && (previous == DPL && next != DPL ==> altitude < 3.0 || velocidade < 0.5)
            && (previous == ATT ==> (next == ATT <==> !LandedEntry(altitude, velocidade) && !DeployedEntry(altitude, velocidade, tempoVoo)))
  {
  }

  /** With the readings held, a second call returns the same status: the
      classifier settles after one step. */
  lemma StatusSettles(previous: Status, altitude: real, velocidade: real, tempoVoo: nat)
    ensures var next := NextStatus(previous, altitude, velocidade, tempoVoo);
            NextStatus(next, altitude, velocidade, tempoVoo) == next
  {
  }

  /** `determinar_status` together with its static `status_anterior`. */
  class StatusClassifier {
    var statusAnterior: Status

    constructor ()
      ensures statusAnterior == ATT
    {
      statusAnterior := ATT;
    }

    method DeterminarStatus(altitude: real, velocidade: real, tempoVoo: nat) returns (status: Status)
      modifies this
      ensures status == NextStatus(old(statusAnterior), altitude, velocidade, tempoVoo)
      ensures statusAnterior == status
    {
      if altitude < 2.0 && velocidade < 0.5 {
        statusAnterior := LND;
        return LND;
      }
      if altitude > 5.0 && tempoVoo > 60 && velocidade > 0.5 {
        statusAnterior := DPL;
        return DPL;
      }
      if statusAnterior == LND && (altitude > 3.0 || velocidade > 1.0) {
        statusAnterior := ATT;
        return ATT;
      }
      if statusAnterior == DPL && (altitude < 3.0 || velocidade < 0.5) {
        statusAnterior := ATT;
        return ATT;
      }
      return statusAnterior;
    }
  }

  /** The HUD's `HH:MM:SS` fields for a mission time in seconds. */
  function HudClock(t: nat): (hms: (nat, nat, nat))
    ensures hms.0 < 24 && hms.1 < 60 && hms.2 < 60
  {
    ((t / 3600) % 24, (t / 60) % 60, t % 60)
  }

  /** Division and remainder by the literal divisors the clock uses. */
  lemma SplitHours(t: nat, p: nat, r: nat)
    requires t == 3600 * p + r && r < 3600
    ensures t / 3600 == p
  {
  }

  lemma SplitDays(t: nat, k: nat, r: nat)
    requires t == 86400 * k + r && r < 86400
    ensures t % 86400 == r
  {
  }

  /** The HUD clock is the time of day: hours, minutes and seconds recombine
      to the mission time modulo one day. */
  lemma HudClockSplit(t: nat)
    ensures var hms := HudClock(t); hms.0 * 3600 + hms.1 * 60 + hms.2 == t % 86400
  {
    var q, s := t / 60, t % 60;
    var p, m := q / 60, q % 60;
    var k, h := p / 24, p % 24;
    SplitHours(t, p, 60 * m + s);
    SplitDays(t, k, 3600 * h + 60 * m + s);
  }

  /** Air density at sea level, kg/m³. */
  const AirDensity: real := 1.225

  /** The dynamic pressure in Pa from the current and base pressures in hPa,
      with readings under 0.5 Pa (negative ones included) taken as rest. */
  function DynamicPressure(pressaoAtual: real, pressaoBase: real): (q: real)
    ensures q >= 0.0
    ensures q == 0.0 <==> (pressaoAtual - pressaoBase) * 100.0 < 0.5
    ensures q != 0.0 ==> q == (pressaoAtual - pressaoBase) * 100.0
  {
    var raw := (pressaoAtual - pressaoBase) * 100.0;
    if raw < 0.5 then 0.0 else raw
  }

  /** `calcular_cas`: calibrated airspeed in km/h, sqrt(2q/ρ) m/s times 3.6. */
  function Cas(pressaoAtual: real, pressaoBase: real, m: Libm): (v: real)
    ensures (pressaoAtual - pressaoBase) * 100.0 < 0.5 ==> v == m.sqrt(0.0) * 3.6
  {
    m.sqrt(2.0 * DynamicPressure(pressaoAtual, pressaoBase) / AirDensity) * 3.6
  }

  /** Below the noise floor the airspeed is exactly zero. */
  lemma CasAtRest(pressaoAtual: real, pressaoBase: real, m: Libm)
    requires m.sqrt(0.0) == 0.0
    requires (pressaoAtual - pressaoBase) * 100.0 < 0.5
    ensures Cas(pressaoAtual, pressaoBase, m) == 0.0
  {
  }

  /** The airspeed is never negative. */
  lemma CasNonNegative(pressaoAtual: real, pressaoBase: real, m: Libm)
    requires forall x: real :: x >= 0.0 ==> m.sqrt(x) >= 0.0
    ensures Cas(pressaoAtual, pressaoBase, m) >= 0.0
  {
    var q := DynamicPressure(pressaoAtual, pressaoBase);
    assert 2.0 * q / AirDensity >= 0.0;
  }

  /** A higher current pressure never gives a lower airspeed. */
  lemma CasMonotone(p1: real, p2: real, pressaoBase: real, m: Libm)
    requires forall x: real, y: real :: 0.0 <= x <= y ==> m.sqrt(x) <= m.sqrt(y)
    requires p1 <= p2
    ensures Cas(p1, pressaoBase, m) <= Cas(p2, pressaoBase, m)
  {
    var q1, q2 := DynamicPressure(p1, pressaoBase), DynamicPressure(p2, pressaoBase);
    assert q1 <= q2;
    assert 2.0 * q1 / AirDensity <= 2.0 * q2 / AirDensity;
  }
}
