/**
 * The PHMK2 ROM format of src/bank.cpp: `saveROM` writes every wave as 16
 * Intel-HEX-style data records of 16 sample bytes, followed by an end-of-file
 * record; `loadROM` reads the sample bytes back from every line whose record
 * type is "00".
 *
 * The file is a sequence of lines; fopen/fprintf/getline are left out. A
 * record is built exactly as the code builds it: the header, the sample bytes
 * appended one by one, then a running checksum over the byte pairs of the
 * text. The checksum is the one's complement of the byte sum (0xFF - sum),
 * not the two's complement that the Intel Hexadecimal Object File Format
 * Specification (Rev. A, "General Record Format") prescribes;
 * `ChecksumIsOnesComplement` states the difference.
 */
module RomFormat {
  import opened Kernels

  datatype Option<T> = None | Some(value: T)

  /** Records per wave, `WAVE_LEN / HEX_LINE_WIDTH * 2` (see RomGeometry). */
  const RECORDS_PER_WAVE: nat := 16
  /** Data bytes per record, `HEX_LINE_WIDTH / 2` (see RomGeometry). */
  const RECORD_BYTES: nat := 16
  /** Bytes covered by the checksum: count, two address bytes, type, data. */
  const CHECKED_BYTES: nat := 4 + RECORD_BYTES
  /** The end-of-file record. */
  const EOF_RECORD: string := ":00000001FF"

  /** The record geometry follows from the buffer sizes: 16 records of 16 bytes cover a wave. */
  lemma RomGeometry()
    ensures RECORDS_PER_WAVE == WAVE_LEN / HEX_LINE_WIDTH * 2 && RECORD_BYTES == HEX_LINE_WIDTH / 2
    ensures RECORDS_PER_WAVE * RECORD_BYTES == WAVE_LEN
  {
  }

  // ---------------------------------------------------------------------
  // Hexadecimal digits

  /** The upper-case digit `printf("%X")` writes for 0 <= n < 16. */
  function HexDigit(n: int): char
    requires 0 <= n < 16
  {
    if n < 10 then ('0' as int + n) as char else ('A' as int + n - 10) as char
  }

  /** The characters strtol accepts as base-16 digits. */
  predicate IsHexDigit(c: char)
  {
    ('0' <= c <= '9') || ('A' <= c <= 'F') || ('a' <= c <= 'f')
  }

  function DigitValue(c: char): (v: int)
    requires IsHexDigit(c)
    ensures 0 <= v < 16
  {
    if '0' <= c <= '9' then c as int - '0' as int
    else if 'A' <= c <= 'F' then c as int - 'A' as int + 10
    else c as int - 'a' as int + 10
  }

  /** Reading a written digit gives back its value. */
  lemma DigitRoundTrip(n: int)
    requires 0 <= n < 16
    ensures IsHexDigit(HexDigit(n)) && DigitValue(HexDigit(n)) == n
  {
  }

  predicate IsByte(b: int)
  {
    0 <= b < 256
  }

  predicate AllBytes(bs: seq<int>)
  {
    forall i :: 0 <= i < |bs| ==> IsByte(bs[i])
  }

  /** `sprintf("%02X", b)` */
  function Hex2(b: int): (s: string)
    requires IsByte(b)
    ensures |s| == 2
  {
    [HexDigit(b / 16), HexDigit(b % 16)]
  }

  /** `sprintf("%04X", a)` */
  function Hex4(a: int): (s: string)
    requires 0 <= a < 65536
    ensures |s| == 4
  {
    Hex2(a / 256) + Hex2(a % 256)
  }

  /**
   * `strtol` in base 16 on the two characters c1 c2 (the code passes a
   * two-character buffer): the value of the longest run of hex digits.
   */
  function ParsePair(c1: char, c2: char): (v: int)
    ensures IsByte(v)
  {
    if IsHexDigit(c1) && IsHexDigit(c2) then DigitValue(c1) * 16 + DigitValue(c2)
    else if IsHexDigit(c1) then DigitValue(c1)
    else 0
  }

  /** The two digits of Hex2(b) parse back to b. */
  lemma ParseHex2(b: int)
    requires IsByte(b)
    ensures ParsePair(Hex2(b)[0], Hex2(b)[1]) == b
  {
    DigitRoundTrip(b / 16);
    DigitRoundTrip(b % 16);
  }

  /** The text of a byte sequence: two digits per byte, in order. */
  function HexBytes(bs: seq<int>): (s: string)
    requires AllBytes(bs)
    ensures |s| == 2 * |bs|
  {
    if |bs| == 0 then "" else HexBytes(bs[..|bs| - 1]) + Hex2(bs[|bs| - 1])
  }

  /** Characters 2l and 2l + 1 of HexBytes(bs) are the digits of byte l. */
  lemma {:induction false} HexBytesAt(bs: seq<int>, l: int)
    requires AllBytes(bs) && 0 <= l < |bs|
    ensures HexBytes(bs)[2 * l] == Hex2(bs[l])[0] && HexBytes(bs)[2 * l + 1] == Hex2(bs[l])[1]
  {
    var n := |bs| - 1;
    var pre := bs[..n];
    assert HexBytes(bs) == HexBytes(pre) + Hex2(bs[n]);
    if l < n {
      HexBytesAt(pre, l);
      assert pre[l] == bs[l];
    }
  }

  // ---------------------------------------------------------------------
  // Sample bytes

  /**
   * `(uint8_t) rescalef(x, -1.0, 1.0, 0.0, 255.0)`: the float is truncated
   * and the integer reduced modulo 256.
   */
  function SampleByte(x: real): (b: int)
    ensures IsByte(b)
  {
    Trunc(Rescalef(x, -1.0, 1.0, 0.0, 255.0)) % 256
  }

  /** `rescalef(float(v), 0.0, 255.0, -1.0, 1.0)` */
  function DecodeByte(v: int): real
  {
    Rescalef(v as real, 0.0, 255.0, -1.0, 1.0)
  }

  /** Every byte value decodes into [-1, 1], 0 to -1 and 255 to 1. */
  lemma DecodeByteRange(v: int)
    requires IsByte(v)
    ensures -1.0 <= DecodeByte(v) <= 1.0
    ensures v == 0 ==> DecodeByte(v) == -1.0
    ensures v == 255 ==> DecodeByte(v) == 1.0
  {
    RescalefBounds(v as real, 0.0, 255.0, -1.0, 1.0);
  }

  /**
   * For a sample in [-1, 1] the byte is the truncation of (x + 1) * 127.5,
   * and decoding it loses less than one step of 2/255 and never rounds up.
   */
  lemma SampleByteRoundTrip(x: real)
    requires -1.0 <= x <= 1.0
    ensures SampleByte(x) == Trunc((x + 1.0) * 127.5)
    ensures x - 2.0 / 255.0 < DecodeByte(SampleByte(x)) <= x
  {
    var y := Rescalef(x, -1.0, 1.0, 0.0, 255.0);
    assert y == (x + 1.0) * 127.5;
    RescalefBounds(x, -1.0, 1.0, 0.0, 255.0);
    var t := Trunc(y);
    assert 0 <= t <= 255;
    assert SampleByte(x) == t;
    assert DecodeByte(t) == t as real / 127.5 - 1.0;
  }

  // ---------------------------------------------------------------------
  // Records

  /** The sample a record byte comes from: `j * HEX_LINE_WIDTH / 2 + k`. */
  function SampleIndex(j: int, k: int): (n: int)
    requires 0 <= j < RECORDS_PER_WAVE && 0 <= k < RECORD_BYTES
    ensures n == j * RECORD_BYTES + k && 0 <= n < WAVE_LEN
  {
    j * HEX_LINE_WIDTH / 2 + k
  }

  /** The load address of record j of wave i: `(i * 16 + j) * 16`. */
  function RecordAddress(i: int, j: int): (a: int)
    requires 0 <= i < BANK_LEN && 0 <= j < RECORDS_PER_WAVE
    ensures 0 <= a < 65536
  {
    (i * 16 + j) * 16
  }

  /** The data bytes of record j: sixteen consecutive samples of the wave. */
  function DataBytes(samples: Buffer, j: int): (d: seq<int>)
    requires 0 <= j < RECORDS_PER_WAVE
    ensures |d| == RECORD_BYTES && AllBytes(d)
  {
    seq(RECORD_BYTES, k requires 0 <= k < RECORD_BYTES => SampleByte(samples[SampleIndex(j, k)]))
  }

  /** The bytes under the checksum: count 0x10, address high and low, type 00, data. */
  function RecordBytes(samples: Buffer, i: int, j: int): (bs: seq<int>)
    requires 0 <= i < BANK_LEN && 0 <= j < RECORDS_PER_WAVE
    ensures |bs| == CHECKED_BYTES && AllBytes(bs)
  {
    var a := RecordAddress(i, j);
    [RECORD_BYTES, a / 256, a % 256, 0] + DataBytes(samples, j)
  }

  /** The running checksum `checksum += byte; checksum &= 0xFF`. */
  function RunningSum(bs: seq<int>): (c: int)
    ensures IsByte(c)
  {
    if |bs| == 0 then 0 else (RunningSum(bs[..|bs| - 1]) + bs[|bs| - 1]) % 256
  }

  function Sum(bs: seq<int>): int
  {
    if |bs| == 0 then 0 else Sum(bs[..|bs| - 1]) + bs[|bs| - 1]
  }

  /** Masking after every addition is the sum modulo 256. */
  lemma {:induction false} RunningSumIsSum(bs: seq<int>)
    ensures RunningSum(bs) == Sum(bs) % 256
  {
    if |bs| > 0 {
      var pre := bs[..|bs| - 1];
      RunningSumIsSum(pre);
      var q := Sum(pre) / 256;
      EuclideanUnique(Sum(pre) % 256 + bs[|bs| - 1] + 256 * q, 256,
                      (RunningSum(pre) + bs[|bs| - 1]) / 256 + q, RunningSum(bs));
    }
  }

  /** `0xFF - checksum` */
  function Checksum(bs: seq<int>): (c: int)
    ensures IsByte(c)
  {
    0xFF - RunningSum(bs)
  }

  /** The checksum the Intel HEX format prescribes: the two's complement of the byte sum. */
  function IntelChecksum(bs: seq<int>): int
  {
    (256 - Sum(bs) % 256) % 256
  }

  /**
   * The bytes of a record sum with its checksum to 0xFF modulo 256, where the
   * Intel HEX format asks for 0; the code's checksum is the standard one minus
   * one, modulo 256.
   */
  lemma ChecksumIsOnesComplement(bs: seq<int>)
    ensures (Sum(bs) + Checksum(bs)) % 256 == 0xFF
    ensures (Sum(bs) + IntelChecksum(bs)) % 256 == 0
    ensures Checksum(bs) == (IntelChecksum(bs) + 255) % 256
  {
    RunningSumIsSum(bs);
    var sum := Sum(bs);
    var q, r := sum / 256, sum % 256;
    assert sum == q * 256 + r;
    EuclideanUnique(sum + (255 - r), 256, q, 255);
    if r == 0 {
      EuclideanUnique(256, 256, 1, 0);
      EuclideanUnique(sum + 0, 256, q, 0);
    } else {
      EuclideanUnique(256 - r, 256, 0, 256 - r);
      EuclideanUnique(sum + (256 - r), 256, q + 1, 0);
      EuclideanUnique(256 - r + 255, 256, 1, 255 - r);
    }
  }

  /** One data record as `fprintf(f, ":%s\n", line)` writes it, without the newline. */
  function RecordLine(samples: Buffer, i: int, j: int): string
    requires 0 <= i < BANK_LEN && 0 <= j < RECORDS_PER_WAVE
  {
    var bs := RecordBytes(samples, i, j);
    ":" + HexBytes(bs) + Hex2(Checksum(bs))
  }

  /** The text of a byte sequence grows by two digits per appended byte. */
  lemma HexBytesSnoc(bs: seq<int>, m: int)
    requires AllBytes(bs) && 0 <= m < |bs|
    ensures HexBytes(bs[..m + 1]) == HexBytes(bs[..m]) + Hex2(bs[m])
  {
    assert bs[..m + 1][..m] == bs[..m];
  }

  /** The text of the four header bytes is "10", the address in four digits, and "00". */
  lemma HeaderText(samples: Buffer, i: int, j: int)
    requires 0 <= i < BANK_LEN && 0 <= j < RECORDS_PER_WAVE
    ensures HexBytes(RecordBytes(samples, i, j)[..4]) == "10" + Hex4(RecordAddress(i, j)) + "00"
  {
    var bs := RecordBytes(samples, i, j);
    var a := RecordAddress(i, j);
    assert bs[0] == 16 && bs[1] == a / 256 && bs[2] == a % 256 && bs[3] == 0;
    assert bs[..0] == [];
    HexBytesSnoc(bs, 0);
    HexBytesSnoc(bs, 1);
    HexBytesSnoc(bs, 2);
    HexBytesSnoc(bs, 3);
    assert Hex2(16) == "10" && Hex2(0) == "00";
  }

  /** Data byte k of record j is the byte of sample `j * HEX_LINE_WIDTH / 2 + k`. */
  lemma RecordByteAt(samples: Buffer, i: int, j: int, k: int)
    requires 0 <= i < BANK_LEN && 0 <= j < RECORDS_PER_WAVE && 0 <= k < RECORD_BYTES
    ensures RecordBytes(samples, i, j)[4 + k] == SampleByte(samples[j * HEX_LINE_WIDTH / 2 + k])
  {
    assert RecordBytes(samples, i, j)[4 + k] == DataBytes(samples, j)[k];
  }

  /** The pair of digits of byte l in the text of bs parses back to bs[l]. */
  lemma HexPairAt(bs: seq<int>, l: int)
    requires AllBytes(bs) && 0 <= l < |bs|
    ensures ParsePair(HexBytes(bs)[l * 2], HexBytes(bs)[l * 2 + 1]) == bs[l]
  {
    HexBytesAt(bs, l);
    ParseHex2(bs[l]);
  }

  /** One step of the running checksum. */
  lemma RunningSumSnoc(bs: seq<int>, l: int)
    requires 0 <= l < |bs|
    ensures RunningSum(bs[..l + 1]) == (RunningSum(bs[..l]) + bs[l]) % 256
  {
    assert bs[..l + 1][..l] == bs[..l];
  }

  /** A record is 43 characters: ':', 40 digits of bytes and 2 of checksum; its type digits are "00". */
  lemma RecordLayout(samples: Buffer, i: int, j: int)
    requires 0 <= i < BANK_LEN && 0 <= j < RECORDS_PER_WAVE
    ensures var line := RecordLine(samples, i, j);
      |line| == 43 && line[0] == ':' && line[7] == '0' && line[8] == '0'
  {
    var bs := RecordBytes(samples, i, j);
    HexBytesAt(bs, 3);
    assert bs[3] == 0;
  }

  /** Record byte k's digits sit at characters 9 + 2k and 10 + 2k of the record. */
  lemma RecordDataAt(samples: Buffer, i: int, j: int, k: int)
    requires 0 <= i < BANK_LEN && 0 <= j < RECORDS_PER_WAVE && 0 <= k < RECORD_BYTES
    ensures var line := RecordLine(samples, i, j);
      ParsePair(line[k * 2 + 9], line[k * 2 + 10]) == SampleByte(samples[SampleIndex(j, k)])
  {
    var bs := RecordBytes(samples, i, j);
    HexBytesAt(bs, 4 + k);
    assert bs[4 + k] == SampleByte(samples[SampleIndex(j, k)]);
    ParseHex2(bs[4 + k]);
  }

  /** The inner loops of saveROM for record j of wave i. */
  method BuildRecord(samples: Buffer, i: int, j: int) returns (line: string)
    requires 0 <= i < BANK_LEN && 0 <= j < RECORDS_PER_WAVE
    ensures line == RecordLine(samples, i, j)
  {
    ghost var bs := RecordBytes(samples, i, j);
    var body := "10" + Hex4((i * 16 + j) * 16) + "00";
    HeaderText(samples, i, j);
    assert body == HexBytes(bs[..4]);
    for k := 0 to HEX_LINE_WIDTH / 2
      invariant body == HexBytes(bs[..4 + k])
    {
      var b := SampleByte(samples[j * HEX_LINE_WIDTH / 2 + k]);
      RecordByteAt(samples, i, j, k);
      HexBytesSnoc(bs, 4 + k);
      assert bs[4 + k] == b;
      body := body + Hex2(b);
    }
    assert bs[..4 + RECORD_BYTES] == bs;
    var checksum := RecordChecksum(body, bs);
    line := ":" + body + Hex2(checksum);
  }

  /** The checksum loop of saveROM over the byte pairs of the record text. */
  method RecordChecksum(body: string, ghost bs: seq<int>) returns (checksum: int)
    requires AllBytes(bs) && body == HexBytes(bs)
    ensures checksum == Checksum(bs)
  {
    checksum := 0;
    for l := 0 to |body| / 2
      invariant checksum == RunningSum(bs[..l])
    {
      HexPairAt(bs, l);
      RunningSumSnoc(bs, l);
      // the two characters at 2l, parsed by strtol, then `&= 0xFF`
      checksum := (checksum + ParsePair(body[l * 2], body[l * 2 + 1])) % 256;
    }
    assert bs[..|body| / 2] == bs;
    checksum := 0xFF - checksum;
  }

  /** Record r of the file: record r % 16 of wave r / 16. */
  function RomRecord(bank: seq<Buffer>, r: int): string
    requires |bank| == BANK_LEN && 0 <= r < BANK_LEN * RECORDS_PER_WAVE
  {
    RecordLine(bank[r / RECORDS_PER_WAVE], r / RECORDS_PER_WAVE, r % RECORDS_PER_WAVE)
  }

  /** The file saveROM writes: all data records, wave by wave, then the end-of-file record. */
  function RomLines(bank: seq<Buffer>): (f: seq<string>)
    requires |bank| == BANK_LEN
    ensures |f| == BANK_LEN * RECORDS_PER_WAVE + 1
  {
    seq(BANK_LEN * RECORDS_PER_WAVE, r requires 0 <= r < BANK_LEN * RECORDS_PER_WAVE => RomRecord(bank, r)) + [EOF_RECORD]
  }

  /** The record index of record j of wave i. */
  lemma RecordNumber(i: int, j: int)
    requires 0 <= i < BANK_LEN && 0 <= j < RECORDS_PER_WAVE
    ensures 0 <= i * RECORDS_PER_WAVE + j < BANK_LEN * RECORDS_PER_WAVE
    ensures (i * RECORDS_PER_WAVE + j) / RECORDS_PER_WAVE == i && (i * RECORDS_PER_WAVE + j) % RECORDS_PER_WAVE == j
  {
    EuclideanUnique(i * RECORDS_PER_WAVE + j, RECORDS_PER_WAVE, i, j);
  }

  /** The loops of saveROM over waves and records, writing each line to the file. */
  method EncodeRom(bank: seq<Buffer>) returns (file: seq<string>)
    requires |bank| == BANK_LEN
    ensures file == RomLines(bank)
  {
    file := [];
    for i := 0 to BANK_LEN
      invariant |file| == i * RECORDS_PER_WAVE
      invariant forall r :: 0 <= r < |file| ==> file[r] == RomRecord(bank, r)
    {
      for j := 0 to WAVE_LEN / HEX_LINE_WIDTH * 2
        invariant |file| == i * RECORDS_PER_WAVE + j
        invariant forall r :: 0 <= r < |file| ==> file[r] == RomRecord(bank, r)
      {
        var line := BuildRecord(bank[i], i, j);
        RecordNumber(i, j);
        file := file + [line];
      }
    }
    file := file + [EOF_RECORD];
  }

  // ---------------------------------------------------------------------
  // Loading

  /** `line[k]` of a getline buffer; past the end of the text it reads the terminator. */
  function CharAt(line: string, k: int): char
    requires 0 <= k
  {
    if k < |line| then line[k] else '\0'
  }

  /** The loader's test `line[7] == '0' && line[8] == '0'` on the record type. */
  predicate IsDataLine(line: string)
  {
    CharAt(line, 7) == '0' && CharAt(line, 8) == '0'
  }

  /** The EOF record's type is "01": the loader skips it. */
  lemma EofIsSkipped()
    ensures !IsDataLine(EOF_RECORD)
  {
  }

  /** Sample k of a data line: the pair of characters at 9 + 2k, parsed and rescaled. */
  function RecordSample(line: string, k: int): (x: real)
    requires 0 <= k
    ensures -1.0 <= x <= 1.0
  {
    var v := ParsePair(CharAt(line, k * 2 + 9), CharAt(line, k * 2 + 10));
    DecodeByteRange(v);
    DecodeByte(v)
  }

  /** The lines the loader accepts, in file order. */
  function DataLines(lines: seq<string>): seq<string>
  {
    if |lines| == 0 then []
    else DataLines(lines[..|lines| - 1]) + (if IsDataLine(lines[|lines| - 1]) then [lines[|lines| - 1]] else [])
  }

  lemma {:induction false} DataLinesAppend(a: seq<string>, b: seq<string>)
    ensures DataLines(a + b) == DataLines(a) + DataLines(b)
  {
    if |b| == 0 {
      assert a + b == a;
    } else {
      var n := |b| - 1;
      DataLinesAppend(a, b[..n]);
      assert (a + b)[..|a + b| - 1] == a + b[..n];
      assert (a + b)[|a + b| - 1] == b[n];
    }
  }

  function Min(a: int, b: int): int
  {
    if a < b then a else b
  }

  /**
   * Sample n of wave i after loading: taken from data line 16i + n / 16 if the
   * file has that many, otherwise the sample s0[n] the wave held before.
   */
  function LoadedSample(lines: seq<string>, i: int, n: int, s0: Buffer): real
    requires 0 <= i && 0 <= n < WAVE_LEN
  {
    var d := DataLines(lines);
    var r := i * RECORDS_PER_WAVE + n / RECORD_BYTES;
    if r < |d| then RecordSample(d[r], n % RECORD_BYTES) else s0[n]
  }

  function LoadedWave(lines: seq<string>, i: int, s0: Buffer): Buffer
    requires 0 <= i
  {
    seq(WAVE_LEN, n requires 0 <= n < WAVE_LEN => LoadedSample(lines, i, n, s0))
  }

  /** The cursor has passed exactly the first c data lines, or all of them if there are fewer. */
  predicate Consumed(lines: seq<string>, pos: int, c: int)
  {
    0 <= pos <= |lines| && 0 <= c && DataLines(lines[..pos]) == DataLines(lines)[..Min(c, |DataLines(lines)|)]
  }

  /** A skipped line adds no data line. */
  lemma SkipLine(lines: seq<string>, pos: int)
    requires 0 <= pos < |lines| && !IsDataLine(lines[pos])
    ensures DataLines(lines[..pos + 1]) == DataLines(lines[..pos])
  {
    assert lines[..pos + 1][..pos] == lines[..pos];
  }

  /** A data line found after c consumed data lines is data line c. */
  lemma FoundLine(lines: seq<string>, pos: int, c: int)
    requires 0 <= pos < |lines| && IsDataLine(lines[pos]) && Consumed(lines, pos, c)
    ensures c < |DataLines(lines)| && DataLines(lines)[c] == lines[pos]
    ensures Consumed(lines, pos + 1, c + 1)
  {
    var d := DataLines(lines);
    var head := DataLines(lines[..pos + 1]);
    assert lines[..pos + 1][..pos] == lines[..pos];
    assert head == DataLines(lines[..pos]) + [lines[pos]];
    DataLinesAppend(lines[..pos + 1], lines[pos + 1..]);
    assert lines[..pos + 1] + lines[pos + 1..] == lines;
    assert d == head + DataLines(lines[pos + 1..]);
    assert |head| == Min(c, |d|) + 1 <= |d|;
    assert d[..c + 1] == head;
  }

  /** Running out of lines after c consumed data lines: there were at most c. */
  lemma Exhausted(lines: seq<string>, c: int)
    requires Consumed(lines, |lines|, c)
    ensures |DataLines(lines)| <= c
    ensures Consumed(lines, |lines|, c + 1)
  {
    assert lines[..|lines|] == lines;
  }

  /** The division of a sample index into record and byte. */
  lemma SampleOfRecord(j: int, k: int)
    requires 0 <= j < RECORDS_PER_WAVE && 0 <= k < RECORD_BYTES
    ensures SampleIndex(j, k) / RECORD_BYTES == j && SampleIndex(j, k) % RECORD_BYTES == k
  {
    EuclideanUnique(SampleIndex(j, k), RECORD_BYTES, j, k);
  }

  /** The `getline` loop of loadROM for one record: skip to the next data line and copy its 16 samples. */
  method ReadRecord(lines: seq<string>, pos0: int, i: int, j: int, s0: Buffer, s1: Buffer) returns (s: Buffer, pos: int)
    requires 0 <= i && 0 <= j < RECORDS_PER_WAVE && Consumed(lines, pos0, i * RECORDS_PER_WAVE + j)
    requires forall n :: 0 <= n < WAVE_LEN ==>
      s1[n] == if n < j * RECORD_BYTES then LoadedSample(lines, i, n, s0) else s0[n]
    ensures Consumed(lines, pos, i * RECORDS_PER_WAVE + j + 1)
    ensures forall n :: 0 <= n < WAVE_LEN ==>
      s[n] == if n < (j + 1) * RECORD_BYTES then LoadedSample(lines, i, n, s0) else s0[n]
  {
    ghost var c := i * RECORDS_PER_WAVE + j;
    s, pos := s1, pos0;
    while pos < |lines|
      invariant pos0 <= pos <= |lines| && Consumed(lines, pos, c)
    {
      var line := lines[pos];
      if (CharAt(line, 7) != '0') || (CharAt(line, 8) != '0') {
        SkipLine(lines, pos);
        pos := pos + 1;
        continue;
      }
      FoundLine(lines, pos, c);
      pos := pos + 1;
      for k := 0 to HEX_LINE_WIDTH / 2
        invariant forall n :: 0 <= n < WAVE_LEN ==>
          s[n] == if n < j * RECORD_BYTES + k then LoadedSample(lines, i, n, s0) else s0[n]
      {
        SampleOfRecord(j, k);
        s := s[j * HEX_LINE_WIDTH / 2 + k := RecordSample(line, k)];
      }
      return;
    }
    Exhausted(lines, c);
  }

  /** The record loop of loadROM for wave i, whose samples were s0. */
  method ReadWave(lines: seq<string>, pos0: int, i: int, s0: Buffer) returns (s: Buffer, pos: int)
    requires 0 <= i && Consumed(lines, pos0, i * RECORDS_PER_WAVE)
    ensures s == LoadedWave(lines, i, s0)
    ensures Consumed(lines, pos, (i + 1) * RECORDS_PER_WAVE)
  {
    s, pos := s0, pos0;
    for j := 0 to WAVE_LEN / HEX_LINE_WIDTH * 2
      invariant Consumed(lines, pos, i * RECORDS_PER_WAVE + j)
      invariant forall n :: 0 <= n < WAVE_LEN ==>
        s[n] == if n < j * RECORD_BYTES then LoadedSample(lines, i, n, s0) else s0[n]
    {
      s, pos := ReadRecord(lines, pos, i, j, s0, s);
    }
  }

  // ---------------------------------------------------------------------
  // Round trip

  /** The data lines of a saved ROM are its data records, in order. */
  lemma RomDataLines(bank: seq<Buffer>)
    requires |bank| == BANK_LEN
    ensures DataLines(RomLines(bank)) == RomLines(bank)[..BANK_LEN * RECORDS_PER_WAVE]
  {
    var f := RomLines(bank);
    var n := BANK_LEN * RECORDS_PER_WAVE;
    forall r | 0 <= r < n
      ensures IsDataLine(f[r])
    {
      RecordIsData(bank, r);
    }
    AllDataLines(f, n);
    assert f[..n + 1][..n] == f[..n];
    assert f[..n + 1] == f;
    EofIsSkipped();
  }

  /** Every data record of a saved ROM passes the loader's type test. */
  lemma RecordIsData(bank: seq<Buffer>, r: int)
    requires |bank| == BANK_LEN && 0 <= r < BANK_LEN * RECORDS_PER_WAVE
    ensures IsDataLine(RomLines(bank)[r])
  {
    var i, j := r / RECORDS_PER_WAVE, r % RECORDS_PER_WAVE;
    RecordLayout(bank[i], i, j);
    assert RomLines(bank)[r] == RecordLine(bank[i], i, j);
  }

  /** A prefix of lines that all pass the type test is its own list of data lines. */
  lemma {:induction false} AllDataLines(f: seq<string>, m: int)
    requires 0 <= m <= |f| && forall r :: 0 <= r < m ==> IsDataLine(f[r])
    ensures DataLines(f[..m]) == f[..m]
  {
    if m > 0 {
      AllDataLines(f, m - 1);
      assert f[..m][..m - 1] == f[..m - 1];
      assert f[..m - 1] + [f[m - 1]] == f[..m];
    }
  }

  /**
   * Loading a saved ROM gives back every sample as its byte decodes: within
   * 2/255 below the sample when it lies in [-1, 1].
   */
  lemma RomRoundTrip(bank: seq<Buffer>, i: int, n: int, s0: Buffer)
    requires |bank| == BANK_LEN && 0 <= i < BANK_LEN && 0 <= n < WAVE_LEN
    ensures LoadedWave(RomLines(bank), i, s0)[n] == DecodeByte(SampleByte(bank[i][n]))
    ensures -1.0 <= bank[i][n] <= 1.0 ==>
      bank[i][n] - 2.0 / 255.0 < LoadedWave(RomLines(bank), i, s0)[n] <= bank[i][n]
  {
    var f := RomLines(bank);
    RomDataLines(bank);
    var j, k := n / RECORD_BYTES, n % RECORD_BYTES;
    assert n == SampleIndex(j, k);
    var r := i * RECORDS_PER_WAVE + j;
    RecordNumber(i, j);
    assert DataLines(f)[r] == RomRecord(bank, r) == RecordLine(bank[i], i, j);
    RecordLayout(bank[i], i, j);
    RecordDataAt(bank[i], i, j, k);
    if -1.0 <= bank[i][n] <= 1.0 {
      SampleByteRoundTrip(bank[i][n]);
    }
  }
}
