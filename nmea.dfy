/** The text layer of the NMEA 0183 sentence parser of the GPS NEO-6 driver:
    C-string extent, `strtok` tokenising, the `*hh` XOR checksum and its
    validation, and the UTC to Brasilia (UTC-3) time conversion. */
module Nmea {
  import opened Base

  /** Size of the driver's `nmea_buffer`: at most 255 characters and a NUL. */
  const NmeaBufferSize: nat := 256

  // ---------------------------------------------------------------------------
  // C strings

  /** The C string a character buffer holds: everything before its first NUL,
      which is what `strlen`, `strcpy` and `strncmp` see of the buffer. */
  function CString(buf: seq<char>): (s: seq<char>)
    ensures s <= buf && '\0' !in s
    ensures |s| < |buf| ==> buf[|s|] == '\0'
  {
    if buf == [] || buf[0] == '\0' then [] else [buf[0]] + CString(buf[1..])
  }

  /** `strncmp(s, p, |p|) == 0` for a NUL-free `s`. */
  predicate HasPrefix(s: seq<char>, p: seq<char>)
  {
    |p| <= |s| && s[..|p|] == p
  }

  // ---------------------------------------------------------------------------
  // strtok(s, ",")

  /** Length of the run of non-comma characters that starts `s`. */
  function FieldLength(s: seq<char>): (n: nat)
    ensures n <= |s|
    ensures forall i :: 0 <= i < n ==> s[i] != ','
    ensures n < |s| ==> s[n] == ','
  {
    if s == [] || s[0] == ',' then 0 else 1 + FieldLength(s[1..])
  }

  /** The tokens successive `strtok(…, ",")` calls return: maximal comma-free
      runs, so consecutive commas are merged and an empty field produces no
      token at all (later fields move down by one index). */
  function Tokens(s: seq<char>): seq<seq<char>>
    decreases |s|
  {
    if s == [] then []
    else if s[0] == ',' then Tokens(s[1..])
    else
      var n := FieldLength(s);
      [s[..n]] + Tokens(s[n..])
  }

  function Concat(ts: seq<seq<char>>): seq<char>
  {
    if ts == [] then [] else ts[0] + Concat(ts[1..])
  }

  /** `s` with every comma deleted: an independent description of what the tokens cover. */
  function WithoutCommas(s: seq<char>): seq<char>
  {
    if s == [] then [] else (if s[0] == ',' then [] else [s[0]]) + WithoutCommas(s[1..])
  }

  lemma {:induction false} WithoutCommasOfCommaFreePrefix(s: seq<char>, n: nat)
    requires n <= |s|
    requires forall i :: 0 <= i < n ==> s[i] != ','
    ensures WithoutCommas(s) == s[..n] + WithoutCommas(s[n..])
    decreases n
  {
    if n > 0 {
      WithoutCommasOfCommaFreePrefix(s[1..], n - 1);
      assert s[1..][n - 1..] == s[n..];
      assert [s[0]] + s[1..][..n - 1] == s[..n];
    }
  }

  /** Every token is non-empty and comma-free, and the tokens, laid end to end,
      are exactly the input with its commas removed. */
  lemma {:induction false} TokensPartitionInput(s: seq<char>)
    ensures forall k :: 0 <= k < |Tokens(s)| ==> |Tokens(s)[k]| > 0 && ',' !in Tokens(s)[k]
    ensures Concat(Tokens(s)) == WithoutCommas(s)
    decreases |s|
  {
    if s == [] {
    } else if s[0] == ',' {
      TokensPartitionInput(s[1..]);
    } else {
      var n := FieldLength(s);
      TokensPartitionInput(s[n..]);
      WithoutCommasOfCommaFreePrefix(s, n);
      var ts := Tokens(s);
      assert ts == [s[..n]] + Tokens(s[n..]);
      assert ts[1..] == Tokens(s[n..]);
      forall k | 0 <= k < |ts|
        ensures |ts[k]| > 0 && ',' !in ts[k]
      {
        if k > 0 {
          assert ts[k] == Tokens(s[n..])[k - 1];
        }
      }
    }
  }

  lemma {:induction false} FieldLengthOfField(p: seq<char>, rest: seq<char>)
    requires forall i :: 0 <= i < |p| ==> p[i] != ','
    requires rest == [] || rest[0] == ','
    ensures FieldLength(p + rest) == |p|
    decreases |p|
  {
    if p != [] {
      assert (p + rest)[1..] == p[1..] + rest;
      FieldLengthOfField(p[1..], rest);
    }
  }

  /** An empty field yields no token: in `p,,q` the token after `p` is the first
      token of `q`, so every later field moves down by one index. */
  lemma EmptyFieldShiftsLaterFields(p: seq<char>, q: seq<char>)
    requires |p| > 0 && forall i :: 0 <= i < |p| ==> p[i] != ','
    ensures Tokens(p + [',', ','] + q) == [p] + Tokens(q)
  {
    var s := p + [',', ','] + q;
    FieldLengthOfField(p, [',', ','] + q);
    assert s == p + ([',', ','] + q);
    assert s[..|p|] == p;
    assert s[|p|..] == [',', ','] + q;
    assert s[|p|..][1..] == [','] + q;
    assert s[|p|..][1..][1..] == q;
    assert s[0] == p[0];
    assert Tokens(s) == [s[..|p|]] + Tokens(s[|p|..]);
    assert Tokens(s[|p|..]) == Tokens(s[|p|..][1..]) == Tokens(q);
  }

  // ---------------------------------------------------------------------------
  // XOR checksum

  /** The byte a C `(uint8_t)` cast makes of a character. */
  function ByteOf(c: char): bv8
  {
    ((c as int) % 256) as bv8
  }

  /** XOR of the bytes of `s` at indices lo .. hi-1 (0 when the range is empty). */
  function XorRange(s: seq<char>, lo: nat, hi: nat): bv8
    requires hi <= |s|
    decreases hi
  {
    if hi <= lo then 0 else XorRange(s, lo, hi - 1) ^ ByteOf(s[hi - 1])
  }

  lemma {:induction false} XorRangeOfPrefix(s: seq<char>, t: seq<char>, lo: nat, hi: nat)
    requires hi <= |s|
    ensures XorRange(s + t, lo, hi) == XorRange(s, lo, hi)
    decreases hi
  {
    if hi > lo {
      XorRangeOfPrefix(s, t, lo, hi - 1);
      assert (s + t)[hi - 1] == s[hi - 1];
    }
  }

  /** `calculate_nmea_checksum`: XOR of the characters start .. end-1. */
  method CalculateNmeaChecksum(sentence: seq<char>, start: nat, end: nat) returns (checksum: bv8)
    requires end <= |sentence|
    ensures checksum == XorRange(sentence, start, end)
  {
    checksum := 0;
    var i := start;
    while i < end
      invariant start <= i
      invariant i <= end || i == start
      invariant checksum == if i <= end then XorRange(sentence, start, i) else 0
    {
      checksum := checksum ^ ByteOf(sentence[i]);
      i := i + 1;
    }
  }

  // ---------------------------------------------------------------------------
  // strtol(str, NULL, 16)

  /** The characters C's `isspace` accepts in the "C" locale. */
  predicate IsCSpace(c: char)
  {
    c == ' ' || 9 <= c as int <= 13
  }

  predicate IsHexDigit(c: char)
  {
    '0' <= c <= '9' || 'a' <= c <= 'f' || 'A' <= c <= 'F'
  }

  function HexValue(c: char): (v: nat)
    requires IsHexDigit(c)
    ensures v < 16
  {
    if '0' <= c <= '9' then c as int - '0' as int
    else if 'a' <= c <= 'f' then c as int - 'a' as int + 10
    else c as int - 'A' as int + 10
  }

  /** The leading white space `strtol` skips. */
  function SkipSpaces(s: seq<char>): (t: seq<char>)
    ensures |t| <= |s| && t == s[|s| - |t|..]
    ensures |t| > 0 ==> !IsCSpace(t[0])
    ensures forall i :: 0 <= i < |s| - |t| ==> IsCSpace(s[i])
  {
    if |s| > 0 && IsCSpace(s[0]) then SkipSpaces(s[1..]) else s
  }

  /** Number of hexadecimal digits at the start of `s`. */
  function HexRunLength(s: seq<char>): (n: nat)
    ensures n <= |s|
    ensures forall i :: 0 <= i < n ==> IsHexDigit(s[i])
    ensures n < |s| ==> !IsHexDigit(s[n])
  {
    if s == [] || !IsHexDigit(s[0]) then 0 else 1 + HexRunLength(s[1..])
  }

  /** Value of a string of hexadecimal digits, most significant first. */
  function HexNumber(ds: seq<char>): nat
    requires forall i :: 0 <= i < |ds| ==> IsHexDigit(ds[i])
  {
    if ds == [] then 0 else HexNumber(ds[..|ds| - 1]) * 16 + HexValue(ds[|ds| - 1])
  }

  /** Magnitude `strtol` reads after the sign: an optional `0x`/`0X` prefix (only
      when a hex digit follows it) and then the longest run of hex digits. */
  function HexMagnitude(t: seq<char>): nat
  {
    var u := if |t| >= 3 && t[0] == '0' && (t[1] == 'x' || t[1] == 'X') && IsHexDigit(t[2]) then t[2..] else t;
    HexNumber(u[..HexRunLength(u)])
  }

  /** `strtol(s, NULL, 16)`: leading white space, an optional sign, then the
      magnitude; 0 when no digit can be read. (Saturation at LONG_MAX is not
      reachable for the two characters the checksum field holds.) */
  function Strtol16(s: seq<char>): int
  {
    var t := SkipSpaces(s);
    if |t| > 0 && t[0] == '-' then -(HexMagnitude(t[1..]) as int)
    else if |t| > 0 && t[0] == '+' then HexMagnitude(t[1..])
    else HexMagnitude(t)
  }

  /** Two hexadecimal digits, in either case, read as one byte value. */
  lemma TwoHexDigits(a: char, b: char)
    requires IsHexDigit(a) && IsHexDigit(b)
    ensures Strtol16([a, b]) == 16 * HexValue(a) + HexValue(b)
  {
    var t := [a, b];
    assert SkipSpaces(t) == t;
    assert HexRunLength(t[1..]) == 1;
    assert HexRunLength(t) == 2;
    assert t[..2] == t;
    assert t[..1] == [a];
    assert HexNumber([a]) == HexValue(a) by {
      assert [a][..0] == [];
    }
  }

  // ---------------------------------------------------------------------------
  // validate_nmea_checksum

  /** Searching down from index `i`: the first `*` met, or -1. */
  function StarSearch(s: seq<char>, i: int): (p: int)
    requires -1 <= i < |s|
    ensures -1 <= p <= i
    decreases i + 1
  {
    if i < 0 then -1 else if s[i] == '*' then i else StarSearch(s, i - 1)
  }

  lemma {:induction false} StarSearchFindsRightmost(s: seq<char>, i: int)
    requires -1 <= i < |s|
    ensures StarSearch(s, i) == -1 <==> forall j :: 0 <= j <= i ==> s[j] != '*'
    ensures StarSearch(s, i) >= 0 ==>
      s[StarSearch(s, i)] == '*' && forall j :: StarSearch(s, i) < j <= i ==> s[j] != '*'
    decreases i + 1
  {
    if i >= 0 && s[i] != '*' {
      StarSearchFindsRightmost(s, i - 1);
    }
  }

  /** The checksum the two characters after the `*` at `star` announce, as
      `(uint8_t)strtol(…, NULL, 16)`. */
  function ReceivedChecksum(s: seq<char>, star: nat): bv8
    requires star + 3 <= |s|
  {
    ByteFromInt(Strtol16(s[star + 1..star + 3]))
  }

  /** The C conversion of an integer to `uint8_t` (reduction modulo 256). */
  function ByteFromInt(x: int): bv8
  {
    (x % 256) as bv8
  }

  /** What `validate_nmea_checksum` accepts: at least 5 characters, a `*` at
      index |s|-3 or before (the rightmost such one is used), and the XOR of the
      characters strictly between the first character and the `*` equals the
      value of the two characters after it. */
  predicate ChecksumValid(s: seq<char>)
  {
    && |s| >= 5
    && var star := StarSearch(s, |s| - 3);
    && star >= 0
    && XorRange(s, 1, star) == ReceivedChecksum(s, star)
  }

  /** `star` is the rightmost `*` at index |s|-3 or before, and the checksum
      after it matches the payload before it. */
  predicate AcceptingStar(s: seq<char>, star: int)
  {
    && 0 <= star <= |s| - 3
    && s[star] == '*'
    && (forall j :: star < j <= |s| - 3 ==> s[j] != '*')
    && XorRange(s, 1, star) == ReceivedChecksum(s, star)
  }

  /** Validation, characterised without the search function. */
  lemma ChecksumValidIff(s: seq<char>)
    ensures ChecksumValid(s) <==> |s| >= 5 && exists star :: AcceptingStar(s, star)
  {
    if |s| >= 5 {
      StarSearchFindsRightmost(s, |s| - 3);
      var p := StarSearch(s, |s| - 3);
      if ChecksumValid(s) {
        assert AcceptingStar(s, p);
      }
      if exists star :: AcceptingStar(s, star) {
        var star :| AcceptingStar(s, star);
        assert p >= 0;
        assert !(p < star) && !(star < p);
      }
    }
  }

  /** The downward search of `validate_nmea_checksum` for the `*`, from
      index len-3; -1 when there is none. */
  method FindStar(sentence: seq<char>) returns (starPos: int)
    requires |sentence| >= 5
    ensures starPos == StarSearch(sentence, |sentence| - 3)
  {
    starPos := -1;
    var i := |sentence| - 3;
    while i >= 0
      invariant -1 <= i <= |sentence| - 3
      invariant StarSearch(sentence, |sentence| - 3) == StarSearch(sentence, i)
      decreases i + 1
    {
      if sentence[i] == '*' {
        starPos := i;
        return;
      }
      i := i - 1;
    }
  }

  /** `validate_nmea_checksum`. */
  method ValidateNmeaChecksum(sentence: seq<char>) returns (ok: bool)
    ensures ok == ChecksumValid(sentence)
  {
    if |sentence| < 5 {
      return false;
    }
    var starPos := FindStar(sentence);
    if starPos == -1 {
      return false;
    }
    var calculated := CalculateNmeaChecksum(sentence, 1, starPos);
    var received := ByteFromInt(Strtol16(sentence[starPos + 1..starPos + 3]));
    ok := calculated == received;
  }

  /** Upper-case hexadecimal digit for a value below 16. */
  function HexDigitChar(v: nat): (c: char)
    requires v < 16
    ensures IsHexDigit(c) && HexValue(c) == v
  {
    if v < 10 then ('0' as int + v) as char else ('A' as int + v - 10) as char
  }

  /** A sentence body (from `$` up to the payload's end) with its checksum field appended. */
  function WithChecksum(body: seq<char>): seq<char>
    requires |body| >= 1
  {
    var c := XorRange(body, 1, |body|) as int;
    body + ['*', HexDigitChar(c / 16), HexDigitChar(c % 16)]
  }

  /** The `*` appended by `WithChecksum` is the one validation finds, and the
      two hex digits follow it. */
  lemma WithChecksumLayout(body: seq<char>)
    requires |body| >= 2
    ensures var s, c := WithChecksum(body), XorRange(body, 1, |body|);
            && |s| == |body| + 3 && s[..|body|] == body
            && StarSearch(s, |s| - 3) == |body|
            && s[|body| + 1..|body| + 3] == [HexDigitChar(c as int / 16), HexDigitChar(c as int % 16)]
  {
    var c := XorRange(body, 1, |body|);
    var s := WithChecksum(body);
    assert s == body + ['*', HexDigitChar(c as int / 16), HexDigitChar(c as int % 16)];
    assert s[|body|] == '*';
  }

  /** Round trip: a sentence whose checksum field was computed from its own
      payload always passes validation, whatever `*` the payload contains. */
  lemma ChecksumRoundTrip(body: seq<char>)
    requires |body| >= 2
    ensures ChecksumValid(WithChecksum(body))
  {
    var c := XorRange(body, 1, |body|);
    var s := WithChecksum(body);
    var star := |body|;
    WithChecksumLayout(body);
    XorRangeOfPrefix(body, s[|body|..], 1, star);
    assert body + s[|body|..] == s;
    HexByteText(c);
    assert XorRange(s, 1, star) == c;
    assert ReceivedChecksum(s, star) == c;
  }

  lemma HexByteText(c: bv8)
    ensures ByteFromInt(Strtol16([HexDigitChar(c as int / 16), HexDigitChar(c as int % 16)])) == c
  {
    HexPairValue(c as int);
    ByteValueRoundTrip(c);
  }

  lemma ByteValueRoundTrip(c: bv8)
    ensures ByteFromInt(c as int) == c
  {
    var n := c as int;
    assert 0 <= n < 256;
    assert n % 256 == n;
  }

  lemma HexPairValue(v: nat)
    requires v < 256
    ensures Strtol16([HexDigitChar(v / 16), HexDigitChar(v % 16)]) == v
  {
    TwoHexDigits(HexDigitChar(v / 16), HexDigitChar(v % 16));
  }

  // ---------------------------------------------------------------------------
  // convert_utc_to_brasilia

  /** `c - '0'`, as C computes it on an (unsigned) character. */
  function DigitValue(c: char): int
  {
    c as int - '0' as int
  }

  predicate IsDigit(c: char)
  {
    '0' <= c <= '9'
  }

  function DigitChar(v: nat): (c: char)
    requires v < 10
    ensures IsDigit(c) && DigitValue(c) == v
  {
    ('0' as int + v) as char
  }

  /** Decimal digits of a natural number, without leading zeros. */
  function Decimal(n: nat): seq<char>
  {
    if n < 10 then [DigitChar(n)] else Decimal(n / 10) + [DigitChar(n % 10)]
  }

  /** `printf("%02d", n)`: at least two characters, zero-padded after any sign. */
  function Format02(n: int): seq<char>
  {
    if n < 0 then ['-'] + Decimal(-n)
    else if n < 10 then ['0'] + Decimal(n)
    else Decimal(n)
  }

  /** The decimal rendering is non-empty and made of digits only. */
  lemma {:induction false} DecimalDigits(n: nat)
    ensures Decimal(n) != [] && forall i :: 0 <= i < |Decimal(n)| ==> IsDigit(Decimal(n)[i])
  {
    if n >= 10 {
      DecimalDigits(n / 10);
    }
  }

  /** Seconds of day written as "HH:MM:SS" (an independent reading of the text). */
  function HmsSeconds(t: seq<char>): int
    requires |t| == 8
  {
    (DigitValue(t[0]) * 10 + DigitValue(t[1])) * 3600
    + (DigitValue(t[3]) * 10 + DigitValue(t[4])) * 60
    + DigitValue(t[6]) * 10 + DigitValue(t[7])
  }

  /** `convert_utc_to_brasilia`: the text "HH:MM:SS" of local time (UTC-3) and
      its seconds of day, from the first six characters of an NMEA time field. */
  function ConvertUtcToBrasilia(utc: seq<char>): (r: (seq<char>, nat))
    ensures |utc| < 6 ==> r == ("00:00:00", 0)
    ensures r.1 < UInt32Modulus
  {
    if |utc| < 6 then ("00:00:00", 0)
    else
      var h := DigitValue(utc[0]) * 10 + DigitValue(utc[1]) - 3;
      var hours := if h < 0 then h + 24 else h;
      var minutes := DigitValue(utc[2]) * 10 + DigitValue(utc[3]);
      var seconds := DigitValue(utc[4]) * 10 + DigitValue(utc[5]);
      (Format02(hours) + ":" + Format02(minutes) + ":" + Format02(seconds),
       ToUInt32(hours * 3600 + minutes * 60 + seconds))
  }

  lemma TwoDigitFormat(n: nat)
    requires n < 100
    ensures |Format02(n)| == 2 && DigitValue(Format02(n)[0]) * 10 + DigitValue(Format02(n)[1]) == n
  {
    if n >= 10 {
      assert Decimal(n) == Decimal(n / 10) + [DigitChar(n % 10)];
    }
  }

  /** For a well-formed UTC time hhmmss: the local hour is hh-3 wrapped into
      [0, 24), the seconds of day stay below 86400, and the text reads back as
      the same seconds of day. */
  lemma UtcDigitsConversion(utc: seq<char>)
    requires |utc| >= 6 && forall i :: 0 <= i < 6 ==> IsDigit(utc[i])
    requires DigitValue(utc[0]) * 10 + DigitValue(utc[1]) < 24
    requires DigitValue(utc[2]) * 10 + DigitValue(utc[3]) < 60
    requires DigitValue(utc[4]) * 10 + DigitValue(utc[5]) < 60
    ensures var r := ConvertUtcToBrasilia(utc);
      var hh := DigitValue(utc[0]) * 10 + DigitValue(utc[1]);
      && r.1 == ((hh + 21) % 24) * 3600 + (DigitValue(utc[2]) * 10 + DigitValue(utc[3])) * 60
                + DigitValue(utc[4]) * 10 + DigitValue(utc[5])
      && r.1 < 86400
      && |r.0| == 8 && HmsSeconds(r.0) == r.1
  {
    var hh := DigitValue(utc[0]) * 10 + DigitValue(utc[1]);
    var hours := if hh - 3 < 0 then hh - 3 + 24 else hh - 3;
    var minutes := DigitValue(utc[2]) * 10 + DigitValue(utc[3]);
    var seconds := DigitValue(utc[4]) * 10 + DigitValue(utc[5]);
    assert hours == (hh + 21) % 24;
    TwoDigitFormat(hours);
    TwoDigitFormat(minutes);
    TwoDigitFormat(seconds);
    var text := Format02(hours) + ":" + Format02(minutes) + ":" + Format02(seconds);
    assert text[0] == Format02(hours)[0] && text[1] == Format02(hours)[1];
    assert text[3] == Format02(minutes)[0] && text[4] == Format02(minutes)[1];
    assert text[6] == Format02(seconds)[0] && text[7] == Format02(seconds)[1];
  }
}
