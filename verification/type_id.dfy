/**
The emission-site identity of an error (error_type_id in
src-tauri/src/logging.rs): `v1|<len>:<target>|<n|s<len>:file>|<n|u<line>>`.
A string is the sequence of its UTF-8 bytes; lengths are byte lengths.
*/
module TypeId {
  import opened Wrappers

  type Byte = b: int | 0 <= b < 256
  type Bytes = seq<Byte>

  datatype Site = Site(target: Bytes, file: Option<Bytes>, line: Option<nat>)

  const BAR: Byte := 124
  const COLON: Byte := 58
  const ZERO: Byte := 48
  const LETTER_N: Byte := 110
  const LETTER_S: Byte := 115
  const LETTER_U: Byte := 117
  const LETTER_V: Byte := 118
  const ONE: Byte := 49

  /** Decimal digits, most significant first, without leading zeros. */
  function Decimal(n: nat): Bytes {
    if n < 10 then [ZERO + n] else Decimal(n / 10) + [ZERO + n % 10]
  }

  function Prefixed(s: Bytes): Bytes {
    Decimal(|s|) + [COLON] + s
  }

  function FilePart(file: Option<Bytes>): Bytes {
    match file
    case Some(f) => [LETTER_S] + Prefixed(f)
    case None => [LETTER_N]
  }

  function LinePart(line: Option<nat>): Bytes {
    match line
    case Some(l) => [LETTER_U] + Decimal(l)
    case None => [LETTER_N]
  }

  function ErrorTypeId(site: Site): Bytes {
    [LETTER_V, ONE, BAR] + Prefixed(site.target) + [BAR] + FilePart(site.file) + [BAR] + LinePart(site.line)
  }

  // ----- a decoder ------------------------------------------------------------------

  predicate IsDigit(b: Byte) {
    ZERO <= b <= ZERO + 9
  }

  /** The number of digits that `s` starts with. */
  function DigitRun(s: Bytes): (n: nat)
    ensures n <= |s|
  {
    if s != [] && IsDigit(s[0]) then 1 + DigitRun(s[1..]) else 0
  }

  function ReadDecimal(digits: Bytes): nat
    requires forall b | b in digits :: IsDigit(b)
  {
    if digits == [] then 0
    else
      var before, last := digits[..|digits| - 1], digits[|digits| - 1];
      assert forall b | b in before :: b in digits;
      assert last in digits && IsDigit(last);
      10 * ReadDecimal(before) + (last - ZERO)
  }

  lemma {:induction false} DigitRunIsDigits(s: Bytes)
    ensures forall b | b in s[..DigitRun(s)] :: IsDigit(b)
  {
    if s != [] && IsDigit(s[0]) {
      DigitRunIsDigits(s[1..]);
      assert s[..DigitRun(s)] == [s[0]] + s[1..][..DigitRun(s[1..])];
    }
  }

  /** A number at the front of `s`, and what follows it. */
  function ReadNumber(s: Bytes): (nat, Bytes) {
    var k := DigitRun(s);
    DigitRunIsDigits(s);
    (ReadDecimal(s[..k]), s[k..])
  }

  /** A length-prefixed string at the front of `s`, and what follows it. */
  function ReadPrefixed(s: Bytes): Option<(Bytes, Bytes)> {
    var (n, rest) := ReadNumber(s);
    if rest != [] && rest[0] == COLON && n <= |rest| - 1
    then Some((rest[1..n + 1], rest[n + 1..]))
    else None
  }

  function ReadLine(target: Bytes, file: Option<Bytes>, s: Bytes): Option<Site> {
    if s == [] || s[0] != BAR || |s| < 2 then None
    else if s[1] == LETTER_U then Some(Site(target, file, Some(ReadNumber(s[2..]).0)))
    else Some(Site(target, file, None))
  }

  function Decode(s: Bytes): Option<Site> {
    if |s| < 3 then None
    else
      match ReadPrefixed(s[3..])
      case None => None
      case Some((target, rest)) =>
        if |rest| < 2 then None
        else if rest[1] == LETTER_S then
          match ReadPrefixed(rest[2..])
          case None => None
          case Some((file, more)) => ReadLine(target, Some(file), more)
        else ReadLine(target, None, rest[2..])
  }

  // ----- the round trip ---------------------------------------------------------------

  lemma {:induction false} DecimalDigits(n: nat)
    ensures Decimal(n) != [] && forall b | b in Decimal(n) :: IsDigit(b)
  {
    if n >= 10 { DecimalDigits(n / 10); }
  }

  lemma {:induction false} DecimalReads(n: nat)
    ensures forall b | b in Decimal(n) :: IsDigit(b)
    ensures ReadDecimal(Decimal(n)) == n
  {
    DecimalDigits(n);
    if n >= 10 {
      DecimalReads(n / 10);
      var d := Decimal(n);
      assert d[..|d| - 1] == Decimal(n / 10);
      assert ReadDecimal(d) == 10 * ReadDecimal(Decimal(n / 10)) + n % 10;
    } else {
      assert Decimal(n)[..0] == [];
    }
  }

  lemma {:induction false} DigitRunStops(digits: Bytes, rest: Bytes)
    requires forall b | b in digits :: IsDigit(b)
    requires rest == [] || !IsDigit(rest[0])
    ensures DigitRun(digits + rest) == |digits|
  {
    if digits == [] {
      assert digits + rest == rest;
    } else {
      assert digits[0] in digits;
      assert (digits + rest)[1..] == digits[1..] + rest;
      DigitRunStops(digits[1..], rest);
    }
  }

  /** A printed number reads back, whatever non-digit follows it. */
  lemma NumberRoundTrip(n: nat, rest: Bytes)
    requires rest == [] || !IsDigit(rest[0])
    ensures ReadNumber(Decimal(n) + rest) == (n, rest)
  {
    DecimalReads(n);
    DigitRunStops(Decimal(n), rest);
    var s := Decimal(n) + rest;
    assert s[..|Decimal(n)|] == Decimal(n) && s[|Decimal(n)|..] == rest;
  }

  /** A prefixed string reads back, whatever it contains and whatever follows. */
  lemma PrefixedRoundTrip(t: Bytes, rest: Bytes)
    ensures ReadPrefixed(Prefixed(t) + rest) == Some((t, rest))
  {
    var tail := [COLON] + t + rest;
    NumberRoundTrip(|t|, tail);
    assert Prefixed(t) + rest == Decimal(|t|) + tail;
    assert tail[1..|t| + 1] == t && tail[|t| + 1..] == rest;
  }

  lemma LineRoundTrip(target: Bytes, file: Option<Bytes>, line: Option<nat>)
    ensures ReadLine(target, file, [BAR] + LinePart(line)) == Some(Site(target, file, line))
  {
    var s := [BAR] + LinePart(line);
    if line.Some? {
      NumberRoundTrip(line.value, []);
      assert s[2..] == Decimal(line.value) + [];
    }
  }

  lemma FileRoundTrip(target: Bytes, f: Bytes, line: Option<nat>, s: Bytes)
    requires |s| >= 3 && s[3..] == Prefixed(target) + ([BAR] + FilePart(Some(f)) + ([BAR] + LinePart(line)))
    ensures Decode(s) == Some(Site(target, Some(f), line))
  {
    hide Prefixed, ReadPrefixed, LinePart, ReadLine;
    var last := [BAR] + LinePart(line);
    var rest := [BAR] + FilePart(Some(f)) + last;
    PrefixedRoundTrip(target, rest);
    PrefixedRoundTrip(f, last);
    LineRoundTrip(target, Some(f), line);
    assert rest[2..] == Prefixed(f) + last;
  }

  lemma NoFileRoundTrip(target: Bytes, line: Option<nat>, s: Bytes)
    requires |s| >= 3 && s[3..] == Prefixed(target) + ([BAR] + FilePart(None) + ([BAR] + LinePart(line)))
    ensures Decode(s) == Some(Site(target, None, line))
  {
    hide Prefixed, ReadPrefixed, LinePart, ReadLine;
    var last := [BAR] + LinePart(line);
    var rest := [BAR] + FilePart(None) + last;
    PrefixedRoundTrip(target, rest);
    LineRoundTrip(target, None, line);
    assert rest[2..] == last;
  }

  /** The decoder inverts the encoding for every target, file and line. */
  lemma TypeIdRoundTrip(site: Site)
    ensures Decode(ErrorTypeId(site)) == Some(site)
  {
    hide Prefixed, FilePart, LinePart, Decode;
    var s := ErrorTypeId(site);
    assert s[3..] == Prefixed(site.target) + ([BAR] + FilePart(site.file) + ([BAR] + LinePart(site.line)));
    match site.file {
      case Some(f) => FileRoundTrip(site.target, f, site.line, s);
      case None => NoFileRoundTrip(site.target, site.line, s);
    }
  }

  /** The format: `v1|1:a|s2:bc|u17` and `v1|0:|n|n`. */
  lemma Samples()
    ensures ErrorTypeId(Site([97], Some([98, 99]), Some(17))) ==
            [118, 49, 124, 49, 58, 97, 124, 115, 50, 58, 98, 99, 124, 117, 49, 55]
    ensures ErrorTypeId(Site([], None, None)) == [118, 49, 124, 48, 58, 124, 110, 124, 110]
  {
    assert Decimal(17) == Decimal(1) + [55];
  }

  /** Two emission sites with one type id are the same site. */
  lemma TypeIdsCollisionFree(a: Site, b: Site)
    requires ErrorTypeId(a) == ErrorTypeId(b)
    ensures a == b
  {
    TypeIdRoundTrip(a);
    TypeIdRoundTrip(b);
  }
}
