/** The BME680 barometer glue: the I²C callbacks handed to the vendor driver,
    the base-pressure calibration at start-up and the altitude reading used by
    the flight loop. The vendor driver and the bus are parameters: the bus as
    functions from a request to its result, the driver as the field data it
    returns for each forced measurement. */
module Barometer {
  import opened Base

  /** `BME680_OK` and `BME680_E_COM_FAIL`. */
  const BmeOk: int := 0
  const BmeComFail: int := -2

  /** `BME680_NEW_DATA_MSK`: the status bit of a fresh measurement. */
  const NewDataMask: bv8 := 0x80

  /** `NUM_CALIBRACAO`: measurements attempted while calibrating. */
  const NumCalibracao: nat := 50

  /** One transaction put on the bus. */
  datatype Transfer =
    | Write(devId: Byte, bytes: seq<Byte>, noStop: bool)
    | Read(devId: Byte, len: nat)

  /** The bus's answers: a write returns the number of bytes acknowledged (or a
      negative error code), a read that count and the bytes received. */
  datatype I2cBus = I2cBus(
    write: (Byte, seq<Byte>, bool) -> int,
    read: (Byte, nat) -> (int, seq<Byte>))

  /** `user_i2c_write`: one write of the register address followed by the
      payload, reported as success only when every byte was acknowledged. */
  method UserI2cWrite(bus: I2cBus, devId: Byte, regAddr: Byte, data: seq<Byte>)
    returns (status: int, transfers: seq<Transfer>)
    requires |data| < 0x1_0000
    ensures transfers == [Write(devId, [regAddr] + data, false)]
    ensures status == BmeOk <==> bus.write(devId, [regAddr] + data, false) == |data| + 1
    ensures status == BmeOk || status == BmeComFail
  {
    var buf := new Byte[|data| + 1];
    buf[0] := regAddr;
    var i := 0;
    while i < |data|
      invariant 0 <= i <= |data|
      invariant buf[..i + 1] == [regAddr] + data[..i]
    {
      buf[i + 1] := data[i];
      assert buf[..i + 2] == buf[..i + 1] + [data[i]];
      assert data[..i + 1] == data[..i] + [data[i]];
      i := i + 1;
    }
    assert buf[..] == buf[..|data| + 1];
    assert data[..|data|] == data;
    var result := bus.write(devId, buf[..], false);
    transfers := [Write(devId, buf[..], false)];
    status := if result == |data| + 1 then BmeOk else BmeComFail;
  }

  /** `user_i2c_read`: write the register address without a stop, then read
      `len` bytes. When the address write is not acknowledged the read is
      never attempted and the caller's buffer is left as it was. */
  method UserI2cRead(bus: I2cBus, devId: Byte, regAddr: Byte, buffer: seq<Byte>, len: nat)
    returns (status: int, data: seq<Byte>, transfers: seq<Transfer>)
    requires len < 0x1_0000
    ensures status == BmeOk || status == BmeComFail
    ensures bus.write(devId, [regAddr], true) != 1 ==>
              status == BmeComFail && data == buffer && transfers == [Write(devId, [regAddr], true)]
    ensures bus.write(devId, [regAddr], true) == 1 ==>
              && transfers == [Write(devId, [regAddr], true), Read(devId, len)]
              && data == bus.read(devId, len).1
              && (status == BmeOk <==> bus.read(devId, len).0 == len)
  {
    transfers := [Write(devId, [regAddr], true)];
    var writeResult := bus.write(devId, [regAddr], true);
    if writeResult != 1 {
      return BmeComFail, buffer, transfers;
    }
    var readResult;
    readResult, data := bus.read(devId, len).0, bus.read(devId, len).1;
    transfers := transfers + [Read(devId, len)];
    status := if readResult == len then BmeOk else BmeComFail;
  }

  /** `bme680_get_sensor_data`'s return code and the fields it fills. */
  datatype FieldData = FieldData(driverStatus: int, dataStatus: bv8, pressure: real)

  /** A measurement the flight software accepts: the driver succeeded and
      flagged new data. */
  predicate IsNewData(d: FieldData)
  {
    d.driverStatus == BmeOk && d.dataStatus & NewDataMask != 0
  }

  /** The accepted pressures, in hPa, among the first `n` measurements. */
  function ValidPressures(driver: nat -> FieldData, n: nat): seq<real>
  {
    if n == 0 then []
    else ValidPressures(driver, n - 1)
         + (if IsNewData(driver(n - 1)) then [driver(n - 1).pressure / 100.0] else [])
  }

  /** What calibration returns: the mean accepted pressure, or -1 when no
      measurement was accepted. */
  function CalibrationResult(driver: nat -> FieldData): real
  {
    var v := ValidPressures(driver, NumCalibracao);
    if |v| > 0 then Sum(v) / |v| as real else -1.0
  }

  /** `calibrar_pressao`: up to fifty forced measurements, averaging the
      accepted ones. */
  method CalibrarPressao(driver: nat -> FieldData) returns (base: real)
    ensures base == CalibrationResult(driver)
  {
    var soma := 0.0;
    var contadorValido := 0;
    var i := 0;
    while i < NumCalibracao && contadorValido < NumCalibracao
      invariant 0 <= i <= NumCalibracao
      invariant soma == Sum(ValidPressures(driver, i))
      invariant contadorValido == |ValidPressures(driver, i)| <= i
    {
      ValidPressuresStep(driver, i);
      var data := driver(i);
      if data.driverStatus == BmeOk {
        if data.dataStatus & NewDataMask != 0 {
          soma := soma + data.pressure / 100.0;
          contadorValido := contadorValido + 1;
        }
      }
      i := i + 1;
    }
    if contadorValido > 0 {
      base := soma / contadorValido as real;
    } else {
      base := -1.0;
    }
  }

  /** One more measurement adds its pressure to the sum and one to the count
      exactly when it is accepted. */
  lemma ValidPressuresStep(driver: nat -> FieldData, i: nat)
    ensures var before, after := ValidPressures(driver, i), ValidPressures(driver, i + 1);
            && |after| == |before| + (if IsNewData(driver(i)) then 1 else 0)
            && Sum(after) == Sum(before) + (if IsNewData(driver(i)) then driver(i).pressure / 100.0 else 0.0)
  {
    var before := ValidPressures(driver, i);
    if IsNewData(driver(i)) {
      SumAppend(before, [driver(i).pressure / 100.0]);
      assert [driver(i).pressure / 100.0][..0] == [];
    } else {
      assert ValidPressures(driver, i + 1) == before;
    }
  }

  /** No more measurements are accepted than were attempted. */
  lemma {:induction false} ValidCountBounded(driver: nat -> FieldData, n: nat)
    ensures |ValidPressures(driver, n)| <= n
  {
    if n > 0 {
      ValidCountBounded(driver, n - 1);
    }
  }

  /** Every accepted pressure comes from an accepted measurement. */
  lemma {:induction false} ValidPressuresWithin(driver: nat -> FieldData, n: nat, lo: real, hi: real)
    requires forall i :: 0 <= i < n && IsNewData(driver(i)) ==> lo <= driver(i).pressure / 100.0 <= hi
    ensures forall k :: 0 <= k < |ValidPressures(driver, n)| ==> lo <= ValidPressures(driver, n)[k] <= hi
  {
    if n > 0 {
      ValidPressuresWithin(driver, n - 1, lo, hi);
    }
  }

  /** The calibrated base lies within the range of the accepted readings. */
  lemma CalibrationWithinReadings(driver: nat -> FieldData, lo: real, hi: real)
    requires |ValidPressures(driver, NumCalibracao)| > 0
    requires forall i :: 0 <= i < NumCalibracao && IsNewData(driver(i)) ==> lo <= driver(i).pressure / 100.0 <= hi
    ensures lo <= CalibrationResult(driver) <= hi
  {
    ValidPressuresWithin(driver, NumCalibracao, lo, hi);
    MeanBounds(ValidPressures(driver, NumCalibracao), lo, hi);
  }

  /** With physical (non-negative) pressures, -1 is returned exactly when no
      measurement was accepted, so it cannot be mistaken for a base. */
  lemma CalibrationSentinel(driver: nat -> FieldData)
    requires forall i :: 0 <= i < NumCalibracao ==> driver(i).pressure >= 0.0
    ensures CalibrationResult(driver) == -1.0 <==> |ValidPressures(driver, NumCalibracao)| == 0
  {
    var v := ValidPressures(driver, NumCalibracao);
    if |v| > 0 {
      ValidPressuresWithin(driver, NumCalibracao, 0.0, MaxPressure(driver, NumCalibracao));
      MeanBounds(v, 0.0, MaxPressure(driver, NumCalibracao));
    }
  }

  /** An upper bound on the first `n` pressures, in hPa. */
  function MaxPressure(driver: nat -> FieldData, n: nat): (hi: real)
    ensures forall i :: 0 <= i < n ==> driver(i).pressure / 100.0 <= hi
  {
    if n == 0 then 0.0
    else
      var rest := MaxPressure(driver, n - 1);
      var p := driver(n - 1).pressure / 100.0;
      if p > rest then p else rest
  }

  /** The exponent of the barometric formula, 1/5.255. */
  const AltitudeExponent: real := 1.0 / 5.255

  /** `powf(ratio, 1/5.255)`. */
  function AltitudeFactor(ratio: real, m: Libm): real
  {
    m.pow(ratio, AltitudeExponent)
  }

  /** The standard-atmosphere altitude in metres for a pressure relative to
      the base: 44330·(1 − (p/base)^(1/5.255)). */
  function AltitudeFromPressure(pressao: real, pressaoBase: real, m: Libm): (h: real)
    requires pressaoBase != 0.0
    ensures h > 0.0 <==> AltitudeFactor(pressao / pressaoBase, m) < 1.0
    ensures h == 0.0 <==> AltitudeFactor(pressao / pressaoBase, m) == 1.0
  {
    44330.0 * (1.0 - AltitudeFactor(pressao / pressaoBase, m))
  }

  /** At the base pressure the altitude is zero. */
  lemma AltitudeAtBase(pressaoBase: real, m: Libm)
    requires pressaoBase != 0.0
    requires AltitudeFactor(1.0, m) == 1.0
    ensures AltitudeFromPressure(pressaoBase, pressaoBase, m) == 0.0
  {
    assert pressaoBase / pressaoBase == 1.0;
  }

  /** A lower pressure never gives a lower altitude. */
  lemma AltitudeFallsWithPressure(p1: real, p2: real, pressaoBase: real, m: Libm)
    requires pressaoBase > 0.0 && 0.0 <= p1 <= p2
    requires forall x: real, y: real :: 0.0 <= x <= y ==> AltitudeFactor(x, m) <= AltitudeFactor(y, m)
    ensures AltitudeFromPressure(p2, pressaoBase, m) <= AltitudeFromPressure(p1, pressaoBase, m)
  {
    assert p1 / pressaoBase <= p2 / pressaoBase by {
      assert p2 / pressaoBase - p1 / pressaoBase == (p2 - p1) / pressaoBase;
    }
  }

  /** `bme680_ler_altitude`: on an accepted measurement the pressure (hPa) and
      altitude outputs are written; otherwise both keep what the caller had. */
  method LerAltitude(data: FieldData, pressaoBase: real, pressao: real, altitude: real, m: Libm)
    returns (ok: bool, pressaoOut: real, altitudeOut: real)
    requires pressaoBase != 0.0
    ensures ok <==> IsNewData(data)
    ensures !ok ==> pressaoOut == pressao && altitudeOut == altitude
    ensures ok ==> pressaoOut == data.pressure / 100.0
                   && altitudeOut == AltitudeFromPressure(pressaoOut, pressaoBase, m)
  {
    pressaoOut, altitudeOut := pressao, altitude;
    if data.driverStatus == BmeOk && data.dataStatus & NewDataMask != 0 {
      pressaoOut := data.pressure / 100.0;
      var fator := m.pow(pressaoOut / pressaoBase, 1.0 / 5.255);
      assert fator == AltitudeFactor(pressaoOut / pressaoBase, m);
      altitudeOut := 44330.0 * (1.0 - fator);
      return true, pressaoOut, altitudeOut;
    }
    return false, pressaoOut, altitudeOut;
  }
}
