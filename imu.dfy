/** The MPU6500 inertial unit: decoding of its big-endian 16-bit samples, the
    gyroscope and accelerometer calibration at rest, and the complementary
    filter that turns one accelerometer and one gyroscope burst into pitch
    (theta) and roll (phi). Each six-byte burst the sensor returns is a
    parameter; `atan2` and `sqrt` are uninterpreted. */
module Imu {
  import opened Base

  /** `NUM_AMOSTRAS`, `SENSIBILIDADE_GIRO`, `SENSIBILIDADE_ACELERACAO`, `GRAVIDADE`. */
  const NumAmostras: nat := 1000
  const SensibilidadeGiro: real := 131.0
  const SensibilidadeAceleracao: real := 8192.0
  const Gravidade: real := 9.81

  /** `M_PI`. */
  const Pi: real := 3.14159265358979323846

  /** Degrees per radian, `180.0 / M_PI`. */
  const RadToDeg: real := 180.0 / Pi

  /** The gyroscope's weight in the complementary filter. */
  const Alpha: real := 0.95

  /** The bounds of `int16_t` and `int32_t`. */
  const Int16Min: int := -0x8000
  const Int16Max: int := 0x7FFF
  const Int32Min: int := -0x8000_0000
  const Int32Max: int := 0x7FFF_FFFF

  /** Six bytes read from the sensor: three big-endian axis values. */
  type Burst = b: seq<Byte> | |b| == 6 witness [0, 0, 0, 0, 0, 0]

  /** `(int16_t)((hi << 8) | lo)`: two's complement of the 16-bit word. */
  function DecodeBe16(hi: Byte, lo: Byte): (v: int)
    ensures Int16Min <= v <= Int16Max
    ensures v >= 0 <==> hi < 0x80
  {
    var u := hi * 256 + lo;
    if u >= 0x8000 then u - 0x1_0000 else u
  }

  /** The two bytes the sensor sends for a 16-bit value. */
  function EncodeBe16(v: int): (Byte, Byte)
    requires Int16Min <= v <= Int16Max
  {
    var u := if v < 0 then v + 0x1_0000 else v;
    (u / 256, u % 256)
  }

  lemma Be16RoundTrip(v: int)
    requires Int16Min <= v <= Int16Max
    ensures DecodeBe16(EncodeBe16(v).0, EncodeBe16(v).1) == v
  {
  }

  lemma Be16BytesRoundTrip(hi: Byte, lo: Byte)
    ensures EncodeBe16(DecodeBe16(hi, lo)) == (hi, lo)
  {
  }

  /** Axis `j` of a burst. */
  function Axis(b: Burst, j: nat): int
    requires j < 3
  {
    DecodeBe16(b[2 * j], b[2 * j + 1])
  }

  /** The sum of axis `j` over the first `n` bursts. */
  function AxisSum(sensor: nat -> Burst, j: nat, n: nat): int
    requires j < 3
  {
    if n == 0 then 0 else AxisSum(sensor, j, n - 1) + Axis(sensor(n - 1), j)
  }

  lemma {:induction false} AxisSumBounds(sensor: nat -> Burst, j: nat, n: nat)
    requires j < 3
    ensures Int16Min * n <= AxisSum(sensor, j, n) <= Int16Max * n
  {
    if n > 0 {
      AxisSumBounds(sensor, j, n - 1);
    }
  }

  /** The calibration sums of up to 1000 samples fit `int32_t`. */
  lemma CalibrationSumFitsInt32(sensor: nat -> Burst, j: nat, n: nat)
    requires j < 3 && n <= NumAmostras
    ensures Int32Min <= AxisSum(sensor, j, n) <= Int32Max
  {
    AxisSumBounds(sensor, j, n);
  }

  /** Gyroscope bias of axis `j` in °/s: the mean raw value over the
      sensitivity. */
  function GyroBias(sensor: nat -> Burst, j: nat): real
    requires j < 3
  {
    (AxisSum(sensor, j, NumAmostras) as real / NumAmostras as real) / SensibilidadeGiro
  }

  /** Accelerometer offset of axis `j` in g: the mean over the sensitivity,
      less the 1 g of gravity on the Z axis. */
  function AccelOffset(sensor: nat -> Burst, j: nat): real
    requires j < 3
  {
    var media := (AxisSum(sensor, j, NumAmostras) as real / NumAmostras as real) / SensibilidadeAceleracao;
    if j == 2 then media - 1.0 else media
  }

  /** A sensor held still and level (0, 0, +1 g) calibrates to zero offsets. */
  lemma LevelSensorHasNoOffset(sensor: nat -> Burst)
    requires forall i :: 0 <= i < NumAmostras ==>
               Axis(sensor(i), 0) == 0 && Axis(sensor(i), 1) == 0 && Axis(sensor(i), 2) == 8192
    ensures AccelOffset(sensor, 0) == 0.0 && AccelOffset(sensor, 1) == 0.0 && AccelOffset(sensor, 2) == 0.0
  {
    ConstantAxisSum(sensor, 0, 0, NumAmostras);
    ConstantAxisSum(sensor, 1, 0, NumAmostras);
    ConstantAxisSum(sensor, 2, 8192, NumAmostras);
  }

  lemma {:induction false} ConstantAxisSum(sensor: nat -> Burst, j: nat, c: int, n: nat)
    requires j < 3
    requires forall i :: 0 <= i < n ==> Axis(sensor(i), j) == c
    ensures AxisSum(sensor, j, n) == c * n
  {
    if n > 0 {
      ConstantAxisSum(sensor, j, c, n - 1);
      assert c * n == c * (n - 1) + c;
    }
  }

  /** The calibration results, `bias_giro` and `erro_aceleracao`. */
  class Mpu6500 {
    const biasGiro: array<real>
    const erroAceleracao: array<real>

    ghost predicate Valid()
      reads this
    {
      biasGiro.Length == 3 && erroAceleracao.Length == 3 && biasGiro != erroAceleracao
    }

    /** The zero-initialised globals. */
    constructor ()
      ensures Valid() && fresh(biasGiro) && fresh(erroAceleracao)
      ensures biasGiro[..] == [0.0, 0.0, 0.0] && erroAceleracao[..] == [0.0, 0.0, 0.0]
    {
      biasGiro := new real[3](_ => 0.0);
      erroAceleracao := new real[3](_ => 0.0);
    }

    /** `calibra_giroscopio`: sum 1000 gyroscope bursts per axis in 32-bit
        accumulators and store each mean over the sensitivity. */
    method CalibraGiroscopio(sensor: nat -> Burst)
      requires Valid()
      modifies biasGiro
      ensures forall j :: 0 <= j < 3 ==> biasGiro[j] == GyroBias(sensor, j)
    {
      var soma := SumBursts(sensor);
      var j := 0;
      while j < 3
        invariant 0 <= j <= 3
        invariant forall k :: 0 <= k < j ==> biasGiro[k] == GyroBias(sensor, k)
      {
        biasGiro[j] := (soma[j] as real / NumAmostras as real) / SensibilidadeGiro;
        j := j + 1;
      }
    }

    /** `calibra_aceleracao`: the same sums over accelerometer bursts; the Z
        axis is corrected for the 1 g it reads when level. */
    method CalibraAceleracao(sensor: nat -> Burst)
      requires Valid()
      modifies erroAceleracao
      ensures forall j :: 0 <= j < 3 ==> erroAceleracao[j] == AccelOffset(sensor, j)
    {
      var soma := SumBursts(sensor);
      var j := 0;
      while j < 3
        invariant 0 <= j <= 3
        invariant forall k :: 0 <= k < j ==> erroAceleracao[k] == AccelOffset(sensor, k)
      {
        var media := (soma[j] as real / NumAmostras as real) / SensibilidadeAceleracao;
        if j == 2 {
          erroAceleracao[j] := media - 1.0;
        } else {
          erroAceleracao[j] := media;
        }
        j := j + 1;
      }
    }
  }

  /** The calibration loop shared by both routines: per-axis sums of 1000
      bursts, every partial sum within `int32_t`. */
  method SumBursts(sensor: nat -> Burst) returns (soma: seq<int>)
    ensures |soma| == 3 && forall j :: 0 <= j < 3 ==> soma[j] == AxisSum(sensor, j, NumAmostras)
    ensures forall j :: 0 <= j < 3 ==> Int32Min <= soma[j] <= Int32Max
  {
    var acc := new int[3](_ => 0);
    var i := 0;
    while i < NumAmostras
      invariant 0 <= i <= NumAmostras
      invariant forall k :: 0 <= k < 3 ==> acc[k] == AxisSum(sensor, k, i)
    {
      var buffer := sensor(i);
      var j := 0;
      while j < 3
        invariant 0 <= j <= 3
        invariant forall k :: 0 <= k < j ==> acc[k] == AxisSum(sensor, k, i + 1)
        invariant forall k :: j <= k < 3 ==> acc[k] == AxisSum(sensor, k, i)
      {
        var leituraBruta := DecodeBe16(buffer[j * 2], buffer[j * 2 + 1]);
        assert leituraBruta == Axis(sensor(i), j);
        acc[j] := acc[j] + leituraBruta;
        j := j + 1;
      }
      i := i + 1;
    }
    soma := acc[..];
    forall j | 0 <= j < 3
      ensures Int32Min <= soma[j] <= Int32Max
    {
      CalibrationSumFitsInt32(sensor, j, NumAmostras);
    }
  }

  /** C's `copysign(magnitude, sign)` for an integer sign source: the
      magnitude of the first argument with the sign of the second, where 0
      counts as positive. */
  function CopySign(magnitude: real, sign: int): (r: real)
    ensures (if r >= 0.0 then r else -r) == (if magnitude >= 0.0 then magnitude else -magnitude)
    ensures sign >= 0 ==> r >= 0.0
    ensures sign < 0 ==> r <= 0.0
  {
    var m := if magnitude >= 0.0 then magnitude else -magnitude;
    if sign >= 0 then m else -m
  }

  /** Acceleration in m/s² from a raw sample and the axis offset in g. */
  function Acceleration(raw: int, erro: real): real
  {
    (raw as real / SensibilidadeAceleracao - CopySign(erro, raw)) * Gravidade
  }

  /** Angular rate in °/s from a raw sample and the axis bias. */
  function GyroRate(raw: int, bias: real): real
  {
    raw as real / SensibilidadeGiro - bias
  }

  /** Tilt of axis `a` against the plane of the other two, in degrees. */
  function AccelAngle(a: real, b: real, c: real, m: Libm): real
  {
    m.atan2(a, m.sqrt(b * b + c * c)) * RadToDeg
  }

  /** The complementary filter: 0.95 of the integrated gyroscope angle and
      0.05 of the accelerometer angle. */
  function Blend(gyroAngle: real, accAngle: real): real
  {
    Alpha * gyroAngle + (1.0 - Alpha) * accAngle
  }

  /** The blend lies between the two estimates ... */
  lemma BlendBetween(gyroAngle: real, accAngle: real)
    ensures gyroAngle <= accAngle ==> gyroAngle <= Blend(gyroAngle, accAngle) <= accAngle
    ensures accAngle <= gyroAngle ==> accAngle <= Blend(gyroAngle, accAngle) <= gyroAngle
  {
  }

  /** ... and leaves an angle both agree on unchanged. */
  lemma BlendAgreement(v: real)
    ensures Blend(v, v) == v
  {
  }

  /** The new pitch and roll after one filter step. */
  function FilterStep(erro: seq<real>, bias: seq<real>, theta: real, phi: real, dt: real,
                      accel: Burst, gyro: Burst, m: Libm): (real, real)
    requires |erro| == 3 && |bias| == 3
  {
    var a0 := Acceleration(Axis(accel, 0), erro[0]);
    var a1 := Acceleration(Axis(accel, 1), erro[1]);
    var a2 := Acceleration(Axis(accel, 2), erro[2]);
    var thetaGiro := theta + GyroRate(Axis(gyro, 0), bias[0]) * dt;
    var phiGiro := phi + GyroRate(Axis(gyro, 1), bias[1]) * dt;
    (Blend(thetaGiro, AccelAngle(a0, a1, a2, m)), Blend(phiGiro, AccelAngle(a1, a0, a2, m)))
  }

  /** With no time step and the accelerometer agreeing with the current
      attitude, the attitude is kept. */
  lemma FilterStepSteady(erro: seq<real>, bias: seq<real>, theta: real, phi: real,
                         accel: Burst, gyro: Burst, m: Libm)
    requires |erro| == 3 && |bias| == 3
    requires var a0, a1, a2 := Acceleration(Axis(accel, 0), erro[0]), Acceleration(Axis(accel, 1), erro[1]), Acceleration(Axis(accel, 2), erro[2]);
             AccelAngle(a0, a1, a2, m) == theta && AccelAngle(a1, a0, a2, m) == phi
    ensures FilterStep(erro, bias, theta, phi, 0.0, accel, gyro, m) == (theta, phi)
  {
  }

  /** The accelerometer half of `leitura`: each axis decoded, its offset
      removed with the sign of the sample, and scaled to m/s². */
  method AccelerationStage(erroAceleracao: array<real>, accelBurst: Burst) returns (aceleracao: seq<real>)
    requires erroAceleracao.Length == 3
    ensures |aceleracao| == 3
    ensures forall k :: 0 <= k < 3 ==> aceleracao[k] == Acceleration(Axis(accelBurst, k), erroAceleracao[k])
  {
    var acc := new real[3];
    var i := 0;
    while i < 3
      invariant 0 <= i <= 3
      invariant forall k :: 0 <= k < i ==> acc[k] == Acceleration(Axis(accelBurst, k), erroAceleracao[k])
    {
      var bruto := DecodeBe16(accelBurst[i * 2], accelBurst[i * 2 + 1]);
      var erroCorrigido := CopySign(erroAceleracao[i], bruto);
      acc[i] := (bruto as real / SensibilidadeAceleracao - erroCorrigido) * Gravidade;
      i := i + 1;
    }
    aceleracao := acc[..];
  }

  /** The gyroscope half of `leitura`: each axis decoded, scaled to °/s and
      its bias removed. */
  method GyroStage(biasGiro: array<real>, gyroBurst: Burst) returns (giro: seq<real>)
    requires biasGiro.Length == 3
    ensures |giro| == 3
    ensures forall k :: 0 <= k < 3 ==> giro[k] == GyroRate(Axis(gyroBurst, k), biasGiro[k])
  {
    var g := new real[3];
    var i := 0;
    while i < 3
      invariant 0 <= i <= 3
      invariant forall k :: 0 <= k < i ==> g[k] == GyroRate(Axis(gyroBurst, k), biasGiro[k])
    {
      var bruto := DecodeBe16(gyroBurst[i * 2], gyroBurst[i * 2 + 1]);
      g[i] := bruto as real / SensibilidadeGiro - biasGiro[i];
      i := i + 1;
    }
    giro := g[..];
  }

  /** `leitura`: decode and correct the accelerometer burst, decode the
      gyroscope burst, integrate the gyroscope over `dt` and blend with the
      accelerometer angles. */
  method Leitura(biasGiro: array<real>, erroAceleracao: array<real>, theta: real, phi: real, dt: real,
                 accelBurst: Burst, gyroBurst: Burst, m: Libm)
    returns (thetaOut: real, phiOut: real)
    requires biasGiro.Length == 3 && erroAceleracao.Length == 3
    ensures (thetaOut, phiOut) == FilterStep(erroAceleracao[..], biasGiro[..], theta, phi, dt, accelBurst, gyroBurst, m)
  {
    var aceleracao := AccelerationStage(erroAceleracao, accelBurst);
    var giro := GyroStage(biasGiro, gyroBurst);
    var thetaAcc := AccelAngle(aceleracao[0], aceleracao[1], aceleracao[2], m);
    var phiAcc := AccelAngle(aceleracao[1], aceleracao[0], aceleracao[2], m);
    var thetaGiro := theta + giro[0] * dt;
    var phiGiro := phi + giro[1] * dt;
    thetaOut := Alpha * thetaGiro + (1.0 - Alpha) * thetaAcc;
    phiOut := Alpha * phiGiro + (1.0 - Alpha) * phiAcc;
    ghost var step := FilterStep(erroAceleracao[..], biasGiro[..], theta, phi, dt, accelBurst, gyroBurst, m);
    assert step.0 == thetaOut && step.1 == phiOut;
  }
}
