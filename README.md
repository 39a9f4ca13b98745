# AeroChico flight computer and ground recorder, modelled in Dafny

AeroChico is a glider's avionics. A Raspberry Pi Pico reads a NEO-6 GPS
receiver, a BME680 barometer and an MPU6500 inertial sensor. Each cycle it
emits a HUD line, a DATA line and sometimes a STOP line on its serial port. A
Raspberry Pi 4 ground station reads those lines and fills a recording buffer
that a disk thread drains to a file. It also keeps the overlay fields and a
clock offset for the video overlay, and it ends the recording after a minimum
time.

This project models that core and proves properties of the model:

- `base.dfy` (`Base`): shared vocabulary.
  - `Option`, bytes, and `uint32_t` wrap-around (`ToUInt32`).
  - C's truncating division (`CDiv`).
  - Sums and means of reals.
  - `Libm`, a record of the libm functions the code calls (`atof`, `sqrt`,
    `cos`, `atan2`, `pow`), passed in as uninterpreted functions.
- `nmea.dfy` (`Nmea`): NMEA text handling in `GPS_neo_6.c`.
  - C-string view of the 256-byte buffer, `strtok` tokenisation on commas.
  - The XOR checksum and its validation (rightmost `*`, `strtol` base 16).
  - The UTC to local (UTC-3) time conversion.
- `gps.dfy` (`Gps`): the GPS receiver.
  - All of its globals form one `Receiver` value, with RMC/GGA processing,
    sentence dispatch and the byte framer as functions.
  - Lemmas cover counters, frames, origin capture, the 0.5 m jitter gate,
    altitude hold and the receiver invariant.
  - The class `GpsReceiver` has the 256-character buffer as an array. Each of
    its methods is proved equal to the matching function.
- `gps_filter.dfy` (`MovingAverage`): `gps_filter_t`, a five-slot ring buffer
  per axis, as a class over three arrays. Its average is proved to be the mean
  of the most recent (up to five) samples.
- `flight_status.dfy` (`FlightStatus`):
  - the flight-phase classifier with hysteresis;
  - status names;
  - the HUD's `HH:MM:SS` split;
  - the calibrated-airspeed estimate.
- `barometer.dfy` (`Barometer`): the BME680 I2C callbacks, the 50-sample
  base-pressure calibration loop, and the altitude read with the barometric
  formula.
- `imu.dfy` (`Imu`):
  - the MPU6500 big-endian decoding;
  - the 1000-sample gyro and accelerometer calibration (with proof that the
    `int32_t` sums cannot overflow);
  - the complementary filter.
- `flight_loop.dfy` (`FlightLoop`): the main loop of `aero_unificado.c`.
  - Counter, barometer sampling every fifth cycle, altitude hold and STOP
    detection.
  - Capture counting and the mission clock.
  - HUD assembly through the filter and the classifier.
- `pytext.dfy` (`PyText`): the Python string operations the ground station
  uses (`strip`, `split`, `join`, `startswith`, `replace(p, "")`).
- `recorder.dfy` (`Recorder`): `FlightDataBuffer` as a class, the disk thread's
  cycle and final flush, and a whole recording session.
- `ground.dfy` (`GroundStation`): the serial thread's line classification and
  loop, `HUDData` and its time offset, and the recording loop's stop rule. It
  also holds lemmas proving that every DATA, HUD and STOP line the flight
  computer prints is read back by the ground station as intended.

Modelling conventions:

- `float` and `double` are `real`; rounding is not modelled.
- Hardware reads (I2C transfers, UART bytes, the monotonic clock, the
  barometer driver's answers, the outcome of each file append) are
  parameters.
- Counters the C code keeps in `uint32_t` wrap explicitly where they feed a
  result (`contador`, `contador_captura`, the mission clock). The GPS
  diagnostic counters are `nat`.

Where the code and its description differ, the model follows the code
(with the one exception under "## Findings", whose corrected clock the loop
model runs):

- `strtok` merges consecutive commas, so an empty NMEA field does not "leave
  its output unset": it shifts every later field one position to the left
  (`Nmea.EmptyFieldShiftsLaterFields`).
- The classifier's "elapsed time" argument is the mission time `tempo_total`.
  That is the GPS time of day at the first fix plus the seconds since, not the
  seconds since the first fix. It does not wrap at midnight, so unless the
  first fix falls within the first minute after local midnight, the "more
  than 60 s" rule holds from the first fix on
  (`FlightLoop.FlightTimeGateAlwaysOpen`).

## Model

| member | source | states |
|---|---|---|
| Base.ToUInt32 | aero_unificado/aero_unificado.c:283-284 | the `uint32_t` conversion yields a value below 2^32 and leaves in-range values unchanged |
| Base.CDiv | aero_unificado/aero_unificado.c:283 | C integer division truncates toward zero: Euclidean for non-negative dividends, rounded up for negative ones |
| Base.TruncReal | aero_unificado/lib/GPS_neo_6.c:81 | the C conversion of a `double` to `int` truncates toward zero: the floor for non-negative values, the ceiling for negative ones |
| Base.Take | aero_unificado/lib/GPS_neo_6.c:107-125 | `strncpy(dst, token, n)` into a zeroed buffer keeps the first n characters of the token, or all of a shorter token |
| Base.MeanBounds | aero_unificado/aero_unificado.c:58-70 | a mean of readings lies between any bounds of the readings |
| Nmea.CString | aero_unificado/lib/GPS_neo_6.c:252-253 | the C string in a buffer is its prefix before the first NUL, and contains no NUL |
| Nmea.FieldLength | aero_unificado/lib/GPS_neo_6.c:93 | a field runs up to, not including, the next comma |
| Nmea.TokensPartitionInput | aero_unificado/lib/GPS_neo_6.c:93-128 | `strtok` tokens are non-empty, comma-free, and concatenate to the input with its commas removed |
| Nmea.EmptyFieldShiftsLaterFields | aero_unificado/lib/GPS_neo_6.c:93-129 | an empty field between two commas disappears, so later fields move one position left |
| Nmea.CalculateNmeaChecksum | aero_unificado/lib/GPS_neo_6.c:57-61 | the loop computes the XOR of the characters in [start, end) |
| Nmea.XorRangeOfPrefix | aero_unificado/lib/GPS_neo_6.c:57-61 | the checksum of a range depends only on the characters in that range |
| Nmea.HexValue | aero_unificado/lib/GPS_neo_6.c:72 | a hex digit is worth less than 16 |
| Nmea.SkipSpaces | aero_unificado/lib/GPS_neo_6.c:72 | `strtol` skips a run of leading white space, stopping at the first other character |
| Nmea.HexRunLength | aero_unificado/lib/GPS_neo_6.c:72 | `strtol` base 16 reads the longest run of hex digits |
| Nmea.StarSearch | aero_unificado/lib/GPS_neo_6.c:66-69 | the search result is -1 or an index no later than where it started |
| Nmea.FindStar | aero_unificado/lib/GPS_neo_6.c:66-69 | the downward loop finds the position the search function gives |
| Nmea.StarSearchFindsRightmost | aero_unificado/lib/GPS_neo_6.c:66-69 | the backward scan finds the rightmost `*` at or before its start, or -1 when there is none |
| Nmea.TwoHexDigits | aero_unificado/lib/GPS_neo_6.c:72-74 | `strtol` base 16 of two hex digits is their value |
| Nmea.ChecksumValidIff | aero_unificado/lib/GPS_neo_6.c:63-76 | a sentence is accepted exactly when it is at least 5 long, has a `*` at or before its third-to-last character, and the XOR after the `$` up to the rightmost such `*` equals the two hex digits after it |
| Nmea.ValidateNmeaChecksum | aero_unificado/lib/GPS_neo_6.c:63-76 | the scanning implementation returns exactly the validity predicate |
| Nmea.ChecksumRoundTrip | aero_unificado/lib/GPS_neo_6.c:63-76 | a body followed by `*` and its own checksum in upper-case hex is accepted |
| Nmea.WithChecksumLayout | aero_unificado/lib/GPS_neo_6.c:66-74 | the appended `*` is the one validation finds, followed by the two hex digits |
| Nmea.HexDigitChar | aero_unificado/lib/GPS_neo_6.c:72-74 | each value below 16 has an upper-case hex digit that reads back as that value |
| Nmea.HexPairValue | aero_unificado/lib/GPS_neo_6.c:74 | two hex digits printed for a byte read back as that byte |
| Nmea.ConvertUtcToBrasilia | aero_unificado/lib/GPS_neo_6.c:42-55 | a time shorter than 6 characters gives "00:00:00" and 0; the seconds always fit in `uint32_t` |
| Nmea.UtcDigitsConversion | aero_unificado/lib/GPS_neo_6.c:48-54 | for a valid hhmmss the local hour is hh-3 wrapped into [0, 24), the seconds of day are below 86400, and the text reads back as those seconds |
| Nmea.TwoDigitFormat | aero_unificado/lib/GPS_neo_6.c:53 | `%02d` of a value below 100 is two digits that read back as the value |
| Nmea.DigitChar | aero_unificado/lib/GPS_neo_6.c:53 | each value below 10 is printed as a digit that reads back as that value |
| Nmea.DecimalDigits | aero_unificado/aero_unificado.c:158 | `%u` prints a non-empty run of decimal digits |
| Gps.SpeedKmh | aero_unificado/lib/GPS_neo_6.c:142-144 | speed in km/h is knots times 1.852, forced to zero below 0.5 km/h |
| Gps.ScanRmcFields | aero_unificado/lib/GPS_neo_6.c:93-130 | the token loop fills the RMC fields exactly as the field-by-position function does |
| Gps.ChecksumFailureOnlyCounts | aero_unificado/lib/GPS_neo_6.c:224-226 | a sentence failing the checksum only increments the received counter |
| Gps.OtherSentencesOnlyCount | aero_unificado/lib/GPS_neo_6.c:224-234 | a valid sentence that is neither RMC nor GGA only increments both counters |
| Gps.DispatchByPrefix | aero_unificado/lib/GPS_neo_6.c:230-233 | RMC and GGA are recognised by their `$GP`/`$GN` six-character prefixes, and no sentence is both |
| Gps.TrackPositionFrame | aero_unificado/lib/GPS_neo_6.c:151-169 | position tracking changes only the position and the origin |
| Gps.ApplyRmcStages | aero_unificado/lib/GPS_neo_6.c:132-173 | RMC processing is time stamping, then the fix/no-fix split, then position update and tracking when latitude and longitude are present |
| Gps.RmcFrame | aero_unificado/lib/GPS_neo_6.c:88-174 | RMC leaves the altitude, satellites and sentence counters alone and counts one RMC sentence |
| Gps.GgaFrame | aero_unificado/lib/GPS_neo_6.c:176-222 | GGA leaves position, origin, fix flag, time and counters alone |
| Gps.ProcessSentenceDispatch | aero_unificado/lib/GPS_neo_6.c:223-235 | a sentence is counted, checked, then routed to RMC, GGA or nothing by prefix |
| Gps.ProcessSentenceCounters | aero_unificado/lib/GPS_neo_6.c:224-228 | each sentence adds one to received, and one to valid exactly when its checksum holds |
| Gps.RmcTimeAndValidity | aero_unificado/lib/GPS_neo_6.c:106-172 | a time field of 6 or more characters sets the time (first 11 characters) and local seconds, otherwise both are kept; the fix is valid exactly when the status field starts with `A` |
| Gps.RmcSpeed | aero_unificado/lib/GPS_neo_6.c:141-145 | with an active fix and a speed field the speed becomes its km/h value, otherwise it is kept |
| Gps.OriginCapturedOnFirstFix | aero_unificado/lib/GPS_neo_6.c:147-156 | the origin is set by the first active fix with a position, at that position, with local coordinates (0, 0) |
| Gps.JitterGate | aero_unificado/lib/GPS_neo_6.c:157-169 | with an origin, the local position moves to the projected point only when it is more than 0.5 m away or the speed exceeds 1 km/h, and otherwise nothing changes |
| Gps.RmcMovesOnlyPastGate | aero_unificado/lib/GPS_neo_6.c:157-169 | once the origin is set it never changes, and any change of position passed the gate |
| Gps.GgaAltitudeHold | aero_unificado/lib/GPS_neo_6.c:199-216 | a positive altitude with a fix becomes both the altitude and the held altitude; any other altitude field restores the held altitude; the held altitude only ever becomes positive |
| Gps.RmcPreservesInv | aero_unificado/lib/GPS_neo_6.c:88-174 | RMC keeps the receiver invariant and never changes a set origin |
| Gps.GgaPreservesInv | aero_unificado/lib/GPS_neo_6.c:176-222 | GGA keeps the receiver invariant |
| Gps.ProcessSentencePreservesInv | aero_unificado/lib/GPS_neo_6.c:223-235 | sentence processing keeps the receiver invariant and a set origin |
| Gps.DollarRestartsBuffer | aero_unificado/lib/GPS_neo_6.c:249-258 | a `$` processes any pending text and restarts the buffer with `$` |
| Gps.LineEndRule | aero_unificado/lib/GPS_neo_6.c:260-267 | a line end processes and clears a buffer that starts with `$`, and is otherwise ignored |
| Gps.ShortBufferNeverProcessed | aero_unificado/lib/GPS_neo_6.c:253-263 | a pending text of 6 characters or fewer changes nothing |
| Gps.OrdinaryByteAppendsOrDrops | aero_unificado/lib/GPS_neo_6.c:269-271 | any other byte is appended while room remains and dropped when the buffer is full |
| Gps.FeedAllPreserves | aero_unificado/lib/GPS_neo_6.c:245-273 | any byte stream keeps the buffer within bounds, keeps the invariant, and keeps a set origin |
| Gps.FeedAllCountersMonotone | aero_unificado/lib/GPS_neo_6.c:223-273 | the counters never decrease, and valid grows no faster than received |
| Gps.GpsReceiver.constructor | aero_unificado/lib/GPS_neo_6.c:12-32 | the receiver starts in its initial state with an empty buffer |
| Gps.GpsReceiver.UpdatePosition | aero_unificado/lib/GPS_neo_6.c:147-170 | the imperative position update leaves the receiver state the tracking function gives |
| Gps.GpsReceiver.ProcessGprmc | aero_unificado/lib/GPS_neo_6.c:88-174 | the imperative RMC handler leaves the receiver state the RMC function gives |
| Gps.GpsReceiver.ProcessGpgga | aero_unificado/lib/GPS_neo_6.c:176-222 | the imperative GGA handler leaves the receiver state the GGA function gives |
| Gps.GpsReceiver.DispatchSentence | aero_unificado/lib/GPS_neo_6.c:229-234 | the prefix dispatch leaves the state the dispatch function gives |
| Gps.GpsReceiver.ProcessNmeaSentence | aero_unificado/lib/GPS_neo_6.c:223-235 | the imperative dispatcher leaves the state the sentence function gives |
| Gps.GpsReceiver.FlushBuffer | aero_unificado/lib/GPS_neo_6.c:251-265 | terminating and processing the pending buffer leaves the text in place and the state the flush function gives |
| Gps.GpsReceiver.ReadGpsData | aero_unificado/lib/GPS_neo_6.c:245-273 | the byte loop over the array buffer leaves the receiver and pending text the framer function gives, and keeps the buffer invariant |
| MovingAverage.Recent | aero_unificado/aero_unificado.c:52-55 | the window is the last min(n, 5) samples |
| MovingAverage.RingAdd | aero_unificado/aero_unificado.c:47-56 | writing at the cursor keeps each slot holding the sample of its residue among the recent ones |
| MovingAverage.RingSum | aero_unificado/aero_unificado.c:58-66 | a full ring sums to the sum of the last five samples, whatever the rotation |
| MovingAverage.SlotSums | aero_unificado/aero_unificado.c:61-65 | the first `count` slots sum to the sum of the last `count` samples |
| MovingAverage.RecentMeanBounds | aero_unificado/aero_unificado.c:58-70 | the average lies, on all three axes, in any box that holds every sample still in the window, whatever the samples that have left it |
| MovingAverage.ThreeSampleExample | aero_unificado/aero_unificado.c:58-70 | three samples 1, 2, 3 average to 2 on each axis |
| MovingAverage.GpsFilter.constructor | aero_unificado/aero_unificado.c:44 | the filter starts with no samples, count 0 and cursor 0 |
| MovingAverage.GpsFilter.WindowSums | aero_unificado/aero_unificado.c:61-65 | the first `count` slots of each axis sum to that axis over the recent samples |
| MovingAverage.GpsFilter.Add | aero_unificado/aero_unificado.c:47-56 | `gps_filter_add` writes each axis at the cursor, advances it modulo 5 and saturates the count at 5, keeping the ring invariant |
| MovingAverage.GpsFilter.GetAverage | aero_unificado/aero_unificado.c:58-70 | `gps_filter_get_average` returns the mean of the most recent min(n, 5) samples on each axis |
| FlightStatus.StatusToString | aero_unificado/aero_unificado.c:125-132 | every name is three letters, and it is "UNK" exactly for a code outside 0..2 |
| FlightStatus.StatusNameRoundTrip | aero_unificado/aero_unificado.c:125-132 | every status prints under its own name and reads back as itself |
| FlightStatus.NextStatus | aero_unificado/aero_unificado.c:95-123 | the landing rule always wins; LND comes only from the landing rule or a previous LND, DPL only from the deployment rule or a previous DPL, and any other change of status is a fall back to ATT |
| FlightStatus.LandingOverridesHistory | aero_unificado/aero_unificado.c:97-100 | below 2 m and 0.5 km/h the status is LND whatever came before |
| FlightStatus.DeployNeedsAllThresholds | aero_unificado/aero_unificado.c:103-106 | entering DPL needs altitude above 5 m, time above 60 s and speed above 0.5 km/h |
| FlightStatus.TouchdownNeedsLowAndSlow | aero_unificado/aero_unificado.c:97-100 | entering LND needs altitude below 2 m and speed below 0.5 km/h |
| FlightStatus.ExitThresholds | aero_unificado/aero_unificado.c:108-122 | leaving LND needs above 3 m or above 1 km/h; leaving DPL needs below 3 m or below 0.5 km/h; ATT persists exactly while no entry rule fires |
| FlightStatus.StatusSettles | aero_unificado/aero_unificado.c:95-123 | with the readings held, a second call returns the same status |
| FlightStatus.StatusClassifier.DeterminarStatus | aero_unificado/aero_unificado.c:92-123 | the method returns the rule-by-rule next status and stores it as the previous status |
| FlightStatus.StatusClassifier.constructor | aero_unificado/aero_unificado.c:91 | the remembered status starts as ATT |
| FlightStatus.HudClock | aero_unificado/aero_unificado.c:139-142 | hours below 24, minutes and seconds below 60 |
| FlightStatus.HudClockSplit | aero_unificado/aero_unificado.c:139-142 | hours, minutes and seconds recombine to the time modulo one day |
| FlightStatus.DynamicPressure | aero_unificado/aero_unificado.c:75-83 | dynamic pressure is 100 times the pressure difference, never negative, and zero exactly when that value is below 0.5 Pa |
| FlightStatus.Cas | aero_unificado/aero_unificado.c:73-89 | below the 0.5 Pa noise floor the airspeed is the rest value `sqrt(0)` × 3.6 whatever the readings; `CasAtRest`, `CasNonNegative` and `CasMonotone` state its other properties |
| FlightStatus.CasAtRest | aero_unificado/aero_unificado.c:81-86 | below the noise floor the airspeed is zero |
| FlightStatus.CasNonNegative | aero_unificado/aero_unificado.c:73-89 | the airspeed is never negative |
| FlightStatus.CasMonotone | aero_unificado/aero_unificado.c:73-89 | a higher current pressure never gives a lower airspeed |
| Barometer.UserI2cWrite | aero_unificado/lib/bme680_custom.c:5-12 | one write of the register address followed by the data, reported OK exactly when every byte was acknowledged |
| Barometer.UserI2cRead | aero_unificado/lib/bme680_custom.c:14-20 | the address write comes first, and a failed one aborts with COM_FAIL before any read; otherwise OK exactly when `len` bytes arrive |
| Barometer.CalibrarPressao | aero_unificado/lib/bme680_custom.c:67-102 | the loop returns the mean of the new-data readings in hPa among 50 attempts, or -1 when there were none |
| Barometer.ValidPressuresStep | aero_unificado/lib/bme680_custom.c:80-85 | one attempt adds one reading and its pressure to the running sum exactly when it has new data |
| Barometer.ValidCountBounded | aero_unificado/lib/bme680_custom.c:72 | no more valid readings than attempts, so the count guard never stops the loop early |
| Barometer.CalibrationWithinReadings | aero_unificado/lib/bme680_custom.c:93-97 | with any valid reading, the base pressure lies between bounds of the valid readings |
| Barometer.CalibrationSentinel | aero_unificado/lib/bme680_custom.c:93-101 | for non-negative pressures the result is -1 exactly when no reading was valid |
| Barometer.MaxPressure | aero_unificado/lib/bme680_custom.c:82 | an upper bound of the first n readings in hPa |
| Barometer.AltitudeFromPressure | aero_unificado/lib/bme680_custom.c:116-118 | the altitude is positive exactly when the pressure ratio's power is below 1, and zero exactly when it is 1 |
| Barometer.AltitudeAtBase | aero_unificado/lib/bme680_custom.c:116-118 | at the base pressure the altitude is zero |
| Barometer.AltitudeFallsWithPressure | aero_unificado/lib/bme680_custom.c:116-118 | a higher pressure never gives a higher altitude |
| Barometer.LerAltitude | aero_unificado/lib/bme680_custom.c:104-122 | success exactly on new data; then the pressure in hPa and the barometric altitude are written, otherwise both outputs are left unchanged |
| Imu.DecodeBe16 | aero_unificado/lib/mpu6500.c:44 | the `int16_t` of two bytes is in range, negative exactly when the high bit is set |
| Imu.Be16RoundTrip | aero_unificado/lib/mpu6500.c:44 | encoding a 16-bit value and decoding it gives it back |
| Imu.Be16BytesRoundTrip | aero_unificado/lib/mpu6500.c:44 | decoding two bytes and encoding the value gives the bytes back |
| Imu.AxisSumBounds | aero_unificado/lib/mpu6500.c:38-46 | the sum of n readings lies between n times the 16-bit extremes |
| Imu.CalibrationSumFitsInt32 | aero_unificado/lib/mpu6500.c:36-68 | the 1000-sample sums never overflow `int32_t` |
| Imu.LevelSensorHasNoOffset | aero_unificado/lib/mpu6500.c:73-80 | a level sensor reading (0, 0, 1 g) has zero accelerometer offset on each axis |
| Imu.ConstantAxisSum | aero_unificado/lib/mpu6500.c:38-46 | n equal readings sum to n times the reading |
| Imu.Mpu6500.constructor | aero_unificado/lib/mpu6500.c:6-7 | biases and offsets start at zero |
| Imu.Mpu6500.CalibraGiroscopio | aero_unificado/lib/mpu6500.c:34-54 | each gyro bias is the mean raw reading divided by the sensitivity |
| Imu.Mpu6500.CalibraAceleracao | aero_unificado/lib/mpu6500.c:57-83 | each accelerometer offset is the mean reading in g, minus 1 g on Z |
| Imu.SumBursts | aero_unificado/lib/mpu6500.c:38-71 | the sampling loop sums each axis over the 1000 bursts, within `int32_t` |
| Imu.CopySign | aero_unificado/lib/mpu6500.c:95 | the magnitude of the first argument with the sign of the second |
| Imu.BlendBetween | aero_unificado/lib/mpu6500.c:114-117 | the complementary filter's output lies between the gyro and accelerometer angles |
| Imu.BlendAgreement | aero_unificado/lib/mpu6500.c:114-117 | when both angles agree the filter returns that angle |
| Imu.FilterStepSteady | aero_unificado/lib/mpu6500.c:86-120 | with no elapsed time and the accelerometer agreeing with the current angles, the angles stay |
| Imu.AccelerationStage | aero_unificado/lib/mpu6500.c:92-97 | the accelerometer loop yields each axis corrected by its sign-matched offset, in m/s² |
| Imu.GyroStage | aero_unificado/lib/mpu6500.c:100-104 | the gyro loop yields each axis in °/s minus its bias |
| Imu.Leitura | aero_unificado/lib/mpu6500.c:86-120 | `leitura` produces the new pitch and roll of one complementary-filter step |
| FlightLoop.MissionTimeAsWritten | aero_unificado/aero_unificado.c:283-284 | `tempo_total` as written is a `uint32_t` value |
| FlightLoop.MissionTime | aero_unificado/aero_unificado.c:283-284 | the corrected `tempo_total` is a `uint32_t` value |
| FlightLoop.MissionTimeElapsed | aero_unificado/aero_unificado.c:283-284 | without wrap, mission time is the GPS offset plus whole seconds since the clock started |
| FlightLoop.MissionTimeMonotone | aero_unificado/aero_unificado.c:283-284 | mission time never decreases as the cycle clock advances |
| FlightLoop.MissionTimeExample | aero_unificado/aero_unificado.c:283-284 | 5.4 s after the start, mission time is the offset plus 5 |
| FlightLoop.MissionTimeAtCapture | aero_unificado/aero_unificado.c:276-284 | on the cycle that starts the clock, mission time is the GPS offset |
| FlightLoop.MissionTimeCorrectionScope | aero_unificado/aero_unificado.c:283-284 | the corrected clock agrees with the code as written whenever the difference is above -1 ms |
| FlightLoop.CaptureCycleClockJumps | aero_unificado/aero_unificado.c:278-284 | as written, a start-clock read 1 ms to 1 s after the cycle's read puts the mission time at least 4294966 s ahead of the offset |
| FlightLoop.FlightTimeGateAlwaysOpen | aero_unificado/aero_unificado.c:284-308 | with a GPS offset above 60 s the classifier's time argument is above 60 from the first fix on |
| FlightLoop.HoldAltitude | aero_unificado/aero_unificado.c:250-255 | a reading above 0.1 m replaces both stored altitudes; the remembered altitude changes only to such a reading; past cycle 100 the two stored altitudes agree; the altitude is always the reading or one of the stored values |
| FlightLoop.HoldRestoreIsNoOp | aero_unificado/aero_unificado.c:250-255 | with equal stored altitudes the stored altitude moves exactly when a reading is above 0.1 m |
| FlightLoop.Tick | aero_unificado/aero_unificado.c:226 | the cycle counter goes up by one, wraps from 2^32 - 1 to 0, stays below 2^32, and nothing else in the state changes |
| FlightLoop.StepKeepsHold | aero_unificado/aero_unificado.c:244-256 | a cycle keeps the two stored altitudes equal and either zero or above 0.1 m |
| FlightLoop.RunKeepsHold | aero_unificado/aero_unificado.c:225-318 | any sequence of cycles keeps that hold |
| FlightLoop.BarometerEveryFifthCycle | aero_unificado/aero_unificado.c:244 | on cycles whose counter is not a multiple of 5 the altitudes and pressure do not change |
| FlightLoop.ClockStartsOnFirstFix | aero_unificado/aero_unificado.c:264-280 | the first valid fix sets the offset to the GPS seconds and the start to the second clock read; without a fix the clock is untouched |
| FlightLoop.ClockCapturedOnce | aero_unificado/aero_unificado.c:276-280 | once started, the clock's offset and start never change |
| FlightLoop.CaptureCounting | aero_unificado/aero_unificado.c:264-273 | the capture counter increments (mod 2^32) exactly on valid fixes with positive GPS altitude |
| FlightLoop.ReportMatchesCodeAfterCapture | aero_unificado/aero_unificado.c:276-284 | once the clock has started, on any later cycle whose clock reads no earlier than the start, the reported mission time is the code's as-written `tempo_total` |
| FlightLoop.BarometerStage | aero_unificado/aero_unificado.c:244-256 | the sampling block yields the altitude, stored altitude and pressure of the cycle's sampling function |
| FlightLoop.MissionClock | aero_unificado/aero_unificado.c:283-284 | the clock computation returns the corrected mission time of the Findings row |
| FlightLoop.RunCycle | aero_unificado/aero_unificado.c:226-315 | one pass of the loop yields the next state and the cycle's STOP and (corrected) mission-time report |
| FlightLoop.MainLoop | aero_unificado/aero_unificado.c:214-318 | the loop reaches the state of the cycles run in order, reports each cycle from the state after it, and keeps the altitude hold |
| FlightLoop.SmoothPosition | aero_unificado/aero_unificado.c:291-293 | the filter gains the raw position and yields the mean of its recent samples |
| FlightLoop.UpdateHud | aero_unificado/aero_unificado.c:296-308 | the HUD record gets the mission time, the smoothed position, the satellites modulo 256, the barometric altitude, the airspeed, and the classifier's next status, which becomes the previous status |
| PyText.StripStart | aero_pi4.py:151 | the result is a suffix without leading whitespace, and only whitespace was removed |
| PyText.StripEnd | aero_pi4.py:151 | the result is a prefix without trailing whitespace, and only whitespace was removed |
| PyText.Strip | aero_pi4.py:151 | the result neither starts nor ends with white space |
| PyText.StripSurrounded | aero_pi4.py:151 | a text with non-space ends is recovered from any whitespace around it |
| PyText.StripIdempotent | aero_pi4.py:151 | stripping twice is stripping once |
| PyText.Split | aero_pi4.py:156-172 | a split has at least one piece, and no piece holds the separator |
| PyText.JoinSplit | aero_pi4.py:156-160 | joining the pieces of a split with the same separator gives the string back |
| PyText.SplitPiece | aero_pi4.py:156-172 | a separator-free piece followed by the separator splits off as one piece |
| PyText.SplitWhole | aero_pi4.py:156-172 | a separator-free text is one piece |
| PyText.SplitJoin | aero_pi4.py:156-172 | splitting the join of separator-free pieces gives the pieces back |
| PyText.RemoveAll | aero_pi4.py:155 | removal never lengthens the text |
| PyText.RemoveAllUnchanged | aero_pi4.py:155 | removal leaves the text unchanged exactly when the pattern does not occur |
| PyText.RemoveAllLeading | aero_pi4.py:155 | a leading occurrence is removed and the scan resumes after it |
| PyText.RemoveAllAbsentHead | aero_pi4.py:155 | a text without the pattern's first character is unchanged |
| Recorder.FlightDataBuffer.constructor | aero_pi4.py:50-53 | the buffer starts empty with nothing written |
| Recorder.FlightDataBuffer.Add | aero_pi4.py:55-58 | a line is appended at the tail and the written count is unchanged |
| Recorder.FlightDataBuffer.Flush | aero_pi4.py:60-65 | every buffered line is returned in insertion order, and the buffer is left empty |
| Recorder.FlightDataBuffer.Size | aero_pi4.py:67-70 | the number of buffered lines |
| Recorder.FlightDataBuffer.GetTotalWritten | aero_pi4.py:72-75 | the written count |
| Recorder.FlightDataBuffer.IncrementWritten | aero_pi4.py:77-80 | the written count grows by the given count, and the buffer is unchanged |
| Recorder.FlightDataBuffer.PeekLast | aero_pi4.py:82-87 | nothing exactly when the buffer is empty, otherwise the newest line, left in place |
| Recorder.ChunkLines | aero_pi4.py:215-217 | a written chunk read back line by line gives the lines written, then the empty remainder |
| Recorder.DiskCycle | aero_pi4.py:212-227 | a successful append writes all buffered lines and counts them; a failed one puts them back in their order |
| Recorder.FinalFlush | aero_pi4.py:229-238 | the final flush writes and counts every buffered line, or loses them all when the append fails |
| Recorder.AddBatch | aero_pi4.py:163 | the serial thread's adds append the batch in order |
| Recorder.SessionStep | aero_pi4.py:163-227 | after a batch and a disk pass, what was written followed by what stays buffered is the old buffer followed by the batch |
| Recorder.RecordSession | aero_pi4.py:143-244 | every added line ends up, in order, in the file or (only when the final append fails) among the lost lines; the buffer ends empty, and the count equals the lines in the file |
| GroundStation.ClassifyText | aero_pi4.py:153-187 | a record only from a line starting with DATA, overlay fields only from a line starting with HUD and not DATA, the stop flag exactly from STOP |
| GroundStation.ClassifyCases | aero_pi4.py:151-187 | a record comes exactly from a DATA line with six fields and a numeric time, overlay fields exactly from a HUD (not DATA) line with at least six parts, and the stop flag exactly from STOP; a record splits back into its six fields |
| GroundStation.TwoDigits | aero_unificado/aero_unificado.c:147 | `%02d` of an hour, minute or second is two digits |
| GroundStation.DataStripped | aero_unificado/aero_unificado.c:158 | a printed DATA line loses only its line end to `strip()` |
| GroundStation.DataBody | aero_pi4.py:155-158 | removing `DATA,` and splitting on commas yields the six printed fields |
| GroundStation.DataLineRoundTrip | aero_unificado/aero_unificado.c:156-160 | every DATA line the flight computer prints is stored as its six values separated by tabs |
| GroundStation.JoinWithout | aero_pi4.py:160 | a character absent from the pieces and the separator is absent from the join |
| GroundStation.ClockTextNoBar | aero_unificado/aero_unificado.c:147 | the clock field holds no bar |
| GroundStation.HudSplit | aero_pi4.py:172-174 | a printed HUD line splits on bars into its six parts |
| GroundStation.HudStripped | aero_unificado/aero_unificado.c:147-152 | a printed HUD line loses only its line end to `strip()` |
| GroundStation.HudLineRoundTrip | aero_unificado/aero_unificado.c:135-153 | every HUD line the flight computer prints gives the overlay its clock, numbers and status name |
| GroundStation.StopLineRoundTrip | aero_unificado/aero_unificado.c:259-261 | the STOP line raises the stop flag |
| GroundStation.StopStripped | aero_pi4.py:151 | `strip()` takes only the line end off the STOP line |
| GroundStation.StopText | aero_pi4.py:186-187 | the stripped STOP line is the stop command |
| GroundStation.JoinLastChar | aero_pi4.py:172 | the last character of a join is that of its last piece |
| GroundStation.ClockTextParts | aero_pi4.py:108-109 | the clock field splits on colons into its three two-digit numbers |
| GroundStation.ClockReadBack | aero_pi4.py:107-112 | the ground station reads the printed clock back as the mission time modulo one day |
| GroundStation.HudData.constructor | aero_pi4.py:92-97 | no overlay fields and no clock readings yet |
| GroundStation.HudData.Update | aero_pi4.py:99-115 | the fields are stored; a time of three parseable parts records the flight time and the ground clock; otherwise both are kept |
| GroundStation.HudData.GetTimeOffset | aero_pi4.py:122-127 | ground minus flight time once both are known, 0 before |
| GroundStation.TallyAllCounts | aero_pi4.py:163-187 | the data counter counts the stored records, the HUD counter the overlay lines, and the stop flag is up exactly when some line was STOP |
| GroundStation.Kinds | aero_pi4.py:148-151 | one kind per line read |
| GroundStation.KindsStep | aero_pi4.py:148-151 | one more line adds its kind at the end |
| GroundStation.TallyStep | aero_pi4.py:154-187 | the counters and records after one more line |
| GroundStation.HandleLine | aero_pi4.py:151-187 | one pass of the serial thread classifies the line, updates the counters, adds a record only for a DATA line, and updates the overlay only for a HUD line |
| GroundStation.SerialStep | aero_pi4.py:148-187 | handling one more line extends the counters and stored records by that line |
| GroundStation.SerialThread | aero_pi4.py:143-199 | over any sequence of lines, the counters and stored records are those of the lines' kinds, and the written count is unchanged |
| GroundStation.ShouldStop | aero_pi4.py:535-548 | the loop stops exactly once 45 s have elapsed, whether or not STOP was received |
| GroundStation.RecordingLoop | aero_pi4.py:535-548 | every frame recorded had less than 45 s elapsed, and the loop stops at the first frame with 45 s or more |

## Left out

- Hardware bring-up and register configuration (`gps_init`,
  `mpu6500_inicializar`, `bme680_inicializar`, the sensor identity check in
  `main`), debug and diagnostic routines (`read_gps_data_zgps_debug`,
  `read_gps_data_debug`, `test_uart_raw`, `display_gps_data`,
  `gps_print_stats`) and every `printf` that only logs: they are I/O.
- The GPS getters (`is_gps_valid`, `get_gps_*`) are plain reads of the
  receiver record. In the main loop their values are inputs of each cycle.
- `sentences_gpgga` is never incremented by the code and is not modelled. The
  other diagnostic counters are unbounded naturals, so their `uint32_t`
  wrap-around after 2^32 sentences is not modelled.
- `float` and `double` rounding, `%.1f`/`%.2f` rendering, and libm: the libm
  functions are uninterpreted parameters. Lemmas that need a property of
  them, such as the monotonicity of `sqrt`, state it as a requirement.
- `MovingAverage.GpsFilter.GetAverage` requires at least one sample. The code
  calls it only right after an add, and it divides by zero otherwise.
- `Barometer.AltitudeFromPressure` and everything that calls it require a
  non-zero base pressure. The code would produce IEEE infinities, which
  `real` cannot represent.
- `FlightLoop.UpdateHud` takes the load-factor proxy `accel_z` (the cosine of
  the roll angle times g) and the attitude angles as inputs. The IMU step
  that produces them is `Imu.Leitura`.
- `FlightLoop.MainLoop` runs a finite prefix of the endless loop. It runs the
  barometer, hold, STOP, capture and clock parts of each cycle. The GPS byte
  reads, the IMU update, the moving-average filter and the classifier of the
  same cycle are separate members (`Gps.GpsReceiver.ReadGpsData`,
  `Imu.Leitura`, `FlightLoop.UpdateHud`), and their results are inputs of
  each cycle.
- `FlightLoop.MissionTimeElapsed` and `FlightLoop.MissionTimeMonotone` hold
  only while the clock does not wrap. The wrap itself is modelled in
  `FlightLoop.MissionTime`.
- `FlightLoop.MissionClock`, `FlightLoop.RunCycle` and `FlightLoop.MainLoop`
  run the corrected mission clock of the "## Findings" row, not the code's
  wrapping one. Take the cycle that starts the clock, when the start is read
  between 1 ms and 1 s after the cycle's own clock read. There the code
  reports at least 4294966 s more than the model
  (`FlightLoop.CaptureCycleClockJumps`). On every later cycle the two agree
  (`FlightLoop.ReportMatchesCodeAfterCapture`).
- `Recorder.DiskCycle`, `Recorder.FinalFlush` and `Recorder.RecordSession`
  model a failed append as writing nothing. In the code the exception can come
  from `f.write` or from the flush when the file closes, after part of the
  chunk already reached the file. The re-added lines are then written a second
  time, so "every line once, in order" holds only under that assumption.
- Threads, locks, `sleep` and the stop event are not modelled. The
  ground station's operations run one at a time, and
  `Recorder.RecordSession` follows one schedule: a batch of adds, then a disk
  pass. No add runs between a failed append and the re-adds that follow it.
- Serial decoding (`readline().decode('utf-8', errors='ignore')`): lines are
  given as strings.
- Python's `float()` is a parameter: `isFloat` says whether it accepts a
  text, `parseFloat` gives its value.
- Video capture, the overlay drawing, the preview window and its `q` key,
  the header file, and the statistics printing are not modelled.
- `aguardar_dados_iniciais` is not part of this model.

## Findings

| source | as written | input that shows it | evidently intended | confidence | as-written member | corrected member |
|---|---|---|---|---|---|---|
| aero_unificado/aero_unificado.c:278-284 | `tempo_inicio` is read after the cycle's `t_atual`, and the 5 ms barometer wait (bme680_custom.c:112) can fall between the two reads. `absolute_time_diff_us(tempo_inicio, t_atual)` is then negative; divided by 1000 and stored in `uint32_t`, it wraps | offset 0, `t_atual` = 1000000 µs, `tempo_inicio` = 1005000 µs: the capture cycle reports 4294967 s instead of 0 s | the capture cycle reports the GPS offset itself (0 s elapsed), and later cycles the offset plus whole seconds elapsed | high (not executed) | FlightLoop.CaptureCycleClockJumps | FlightLoop.MissionTimeAtCapture |
