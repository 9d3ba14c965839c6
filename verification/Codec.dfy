/**
  The wire format: a two-character type and decimal fields of fixed width.
 */
module Codec {
  import opened Units

  const TYPE_LENGTH := 2
  const NUMBER_LENGTH := 10
  const TIME_LENGTH := 15
  const DATAGRAM_SIZE := 1472
  const PADDING_LENGTH := DATAGRAM_SIZE - TYPE_LENGTH - NUMBER_LENGTH - TIME_LENGTH - NUMBER_LENGTH - 1

  datatype PacketType = DATA | RR | REMB

  datatype DataPacket = DataPacket(number: nat, sendTime: nat, size: nat)
  datatype ReportPacket = ReportPacket(start: nat, end: nat, lost: nat, received: nat)
  datatype RembPacket = RembPacket(bandwidth: nat)

  // ----- Decimal numbers

  function Power10(n: nat): nat {
    if n == 0 then 1 else 10 * Power10(n - 1)
  }

  function DigitChar(d: nat): char
    requires d < 10
  {
    '0' + d as char
  }

  predicate IsDigit(c: char) {
    '0' <= c <= '9'
  }

  function DigitValue(c: char): nat
    requires IsDigit(c)
  {
    (c - '0') as nat
  }

  /** Without leading zeros. */
  function ToDecimal(n: nat): (s: string)
    ensures s != [] && AllDigits(s)
  {
    if n < 10 then [DigitChar(n)] else ToDecimal(n / 10) + [DigitChar(n % 10)]
  }

  ghost predicate AllDigits(s: string) {
    forall c | c in s :: IsDigit(c)
  }

  function FromDecimal(s: string): nat
    requires forall c | c in s :: IsDigit(c)
  {
    if s == [] then 0 else
    assert s[|s| - 1] in s;
    10 * FromDecimal(s[..|s| - 1]) + DigitValue(s[|s| - 1])
  }

  function Zeros(n: nat): (s: string)
    ensures |s| == n && AllDigits(s) && forall i | 0 <= i < n :: s[i] == '0'
  {
    seq(n, _ => '0')
  }

  /** A number that does not fit is written as zeros. */
  function FixedLength(n: nat, length: nat): (s: string)
    ensures |s| == length && AllDigits(s)
  {
    var d := ToDecimal(n);
    if |d| <= length then Zeros(length - |d|) + d else Zeros(length)
  }

  /**
    The digit buffer: filled with zeros, then overwritten from the right. The model's
    buffer has room for the terminating character.
   */
  method NumberToFixLenString(number: nat, length: nat) returns (s: string)
    ensures s == FixedLength(number, length)
  {
    var c := new char[length + 1];
    for i := 0 to length + 1
      invariant forall k | 0 <= k < i :: c[k] == '0'
    {
      c[i] := '0';
    }
    var digits := ToDecimal(number);
    if |digits| <= length {
      var i, j := length - 1, |digits| - 1;
      while j > -1
        invariant -1 <= j < |digits| && i - j == length - |digits|
        invariant forall k | 0 <= k <= i :: c[k] == '0'
        invariant forall k | i < k < length :: c[k] == digits[k - (length - |digits|)]
        decreases j
      {
        c[i] := digits[j];
        i, j := i - 1, j - 1;
      }
      assert c[..length] == Zeros(length - |digits|) + digits;
    } else {
      assert c[..length] == Zeros(length);
    }
    c[length] := '\0';
    s := c[..length];
  }

  lemma {:induction false} DecimalRoundTrip(n: nat)
    ensures FromDecimal(ToDecimal(n)) == n
  {
    if n >= 10 {
      DecimalRoundTrip(n / 10);
      var s := ToDecimal(n);
      assert s[..|s| - 1] == ToDecimal(n / 10);
    } else {
      assert [DigitChar(n)][..0] == [];
    }
  }

  lemma {:induction false} DecimalLength(n: nat, length: nat)
    requires length > 0
    ensures |ToDecimal(n)| <= length <==> n < Power10(length)
  {
    if n >= 10 {
      if length == 1 {
        assert Power10(1) == 10 * Power10(0);
      } else {
        DecimalLength(n / 10, length - 1);
      }
    } else {
      assert Power10(length) == 10 * Power10(length - 1);
      PowerIsPositive(length - 1);
    }
  }

  lemma {:induction false} PowerIsPositive(n: nat)
    ensures Power10(n) >= 1
  {
    if n == 0 {
    } else {
      PowerIsPositive(n - 1);
    }
  }

  lemma {:induction false} LeadingZeros(n: nat, s: string)
    requires AllDigits(s)
    ensures AllDigits(Zeros(n) + s) && FromDecimal(Zeros(n) + s) == FromDecimal(s)
  {
    if s != [] {
      var rest := s[..|s| - 1];
      LeadingZeros(n, rest);
      assert (Zeros(n) + s)[..n + |rest|] == Zeros(n) + rest;
    } else if n > 0 {
      LeadingZeros(n - 1, []);
      assert (Zeros(n) + [])[..n - 1] == Zeros(n - 1) + [];
    } else {
      assert Zeros(0) + [] == [];
    }
  }

  /** A field reads back as written if it fits, and as zero if it does not. */
  lemma FieldRoundTrip(n: nat, length: nat)
    requires length > 0
    ensures FromDecimal(FixedLength(n, length)) == if n < Power10(length) then n else 0
  {
    DecimalLength(n, length);
    DecimalRoundTrip(n);
    if |ToDecimal(n)| <= length {
      LeadingZeros(length - |ToDecimal(n)|, ToDecimal(n));
    } else {
      LeadingZeros(length, []);
      assert Zeros(length) + [] == Zeros(length);
    }
  }

  // ----- Reading a number out of a buffer

  const WORD := 0x1_0000_0000_0000_0000

  /** A buffer is read up to its terminating character. */
  function CString(data: string): string {
    if data == [] || data[0] == '\0' then [] else [data[0]] + CString(data[1..])
  }

  /** `None` is an exception, for a position beyond the end. */
  function Substring(s: string, at: nat, length: nat): Option<string> {
    if at > |s| then None else Some(s[at..Min(at + length, |s|)])
  }

  predicate IsSpace(c: char) {
    c == ' ' || '\t' <= c <= '\r'
  }

  function SkipSpaces(s: string): string {
    if s != [] && IsSpace(s[0]) then SkipSpaces(s[1..]) else s
  }

  function DigitPrefix(s: string): (d: string)
    ensures AllDigits(d)
  {
    if s == [] || !IsDigit(s[0]) then [] else [s[0]] + DigitPrefix(s[1..])
  }

  /** Spaces, a sign and digits; what follows is ignored. `None` is an exception. */
  function Stoul(s: string): Option<nat> {
    var t := SkipSpaces(s);
    var negative := t != [] && t[0] == '-';
    var digits := DigitPrefix(if t != [] && (t[0] == '-' || t[0] == '+') then t[1..] else t);
    var n := FromDecimal(digits);
    if digits == [] || n >= WORD then None
    else Some(if negative then (WORD - n) % WORD else n)
  }

  function Field(s: string, at: nat, length: nat): Option<nat> {
    match Substring(s, at, length) case None => None case Some(t) => Stoul(t)
  }

  function TypeString(t: PacketType): string {
    match t case DATA => "00" case RR => "01" case REMB => "10"
  }

  /** An unknown type stops the program; if it is continued the type is taken as data. */
  function TypeOf(s: string): PacketType {
    if s == "00" then DATA else if s == "01" then RR else if s == "10" then REMB else DATA
  }

  function GetType(data: string): PacketType {
    var s := CString(data);
    TypeOf(s[..Min(TYPE_LENGTH, |s|)])
  }

  // ----- Packets

  function SerializeData(p: DataPacket): (s: string)
    ensures |s| == DATAGRAM_SIZE - 1
  {
    TypeString(DATA) + FixedLength(p.number, NUMBER_LENGTH) + FixedLength(p.sendTime, TIME_LENGTH)
    + FixedLength(p.size, NUMBER_LENGTH) + FixedLength(0, PADDING_LENGTH)
  }

  function SerializeReport(p: ReportPacket): (s: string)
    ensures |s| == 52
  {
    TypeString(RR) + FixedLength(p.start, TIME_LENGTH) + FixedLength(p.end, TIME_LENGTH)
    + FixedLength(p.lost, NUMBER_LENGTH) + FixedLength(p.received, NUMBER_LENGTH)
  }

  function SerializeRemb(p: RembPacket): (s: string)
    ensures |s| == 12
  {
    TypeString(REMB) + FixedLength(p.bandwidth, NUMBER_LENGTH)
  }

  /** The packet after parsing over `before`; `None` is an exception. */
  function ParseData(data: string, before: DataPacket): Option<DataPacket> {
    if GetType(data) != DATA then Some(before) else
    var s := CString(data);
    match (Field(s, 2, NUMBER_LENGTH), Field(s, 12, TIME_LENGTH), Field(s, 27, NUMBER_LENGTH))
    case (Some(number), Some(sendTime), Some(size)) => Some(DataPacket(number, sendTime, size))
    case _ => None
  }

  function ParseReport(data: string, before: ReportPacket): Option<ReportPacket> {
    if GetType(data) != RR then Some(before) else
    var s := CString(data);
    match (Field(s, 2, TIME_LENGTH), Field(s, 17, TIME_LENGTH), Field(s, 32, NUMBER_LENGTH), Field(s, 42, NUMBER_LENGTH))
    case (Some(start), Some(end), Some(lost), Some(received)) => Some(ReportPacket(start, end, lost, received))
    case _ => None
  }

  function ParseRemb(data: string, before: RembPacket): Option<RembPacket> {
    if GetType(data) != REMB then Some(before) else
    match Field(CString(data), 2, NUMBER_LENGTH)
    case Some(bandwidth) => Some(RembPacket(bandwidth))
    case None => None
  }

  /** The fields are assigned one after the other, up to the first that cannot be read. */
  function AssignedData(data: string, before: DataPacket): DataPacket {
    if GetType(data) != DATA then before else
    var s := CString(data);
    match Field(s, 2, NUMBER_LENGTH)
    case None => before
    case Some(number) =>
      match Field(s, 12, TIME_LENGTH)
      case None => before.(number := number)
      case Some(sendTime) =>
        DataPacket(number, sendTime, Field(s, 27, NUMBER_LENGTH).GetOr(before.size))
  }

  function AssignedReport(data: string, before: ReportPacket): ReportPacket {
    if GetType(data) != RR then before else
    var s := CString(data);
    match Field(s, 2, TIME_LENGTH)
    case None => before
    case Some(start) =>
      match Field(s, 17, TIME_LENGTH)
      case None => before.(start := start)
      case Some(end) =>
        match Field(s, 32, NUMBER_LENGTH)
        case None => before.(start := start, end := end)
        case Some(lost) =>
          ReportPacket(start, end, lost, Field(s, 42, NUMBER_LENGTH).GetOr(before.received))
  }

  // ----- What is read

  ghost predicate AllSpaces(s: string) {
    forall c | c in s :: c == ' ' || 9 <= c as int <= 13
  }

  lemma {:induction false} SpacesAreSkipped(spaces: string, rest: string)
    requires AllSpaces(spaces) && (rest == [] || !IsSpace(rest[0]))
    ensures SkipSpaces(spaces + rest) == rest
  {
    if spaces == [] {
      assert spaces + rest == rest;
    } else {
      assert spaces[0] in spaces && forall c | c in spaces[1..] :: c in spaces;
      assert (spaces + rest)[1..] == spaces[1..] + rest;
      SpacesAreSkipped(spaces[1..], rest);
    }
  }

  lemma {:induction false} DigitsAreTaken(digits: string, rest: string)
    requires AllDigits(digits) && (rest == [] || !IsDigit(rest[0]))
    ensures DigitPrefix(digits + rest) == digits
  {
    if digits == [] {
      assert digits + rest == rest;
    } else {
      assert digits[0] in digits;
      assert (digits + rest)[1..] == digits[1..] + rest;
      DigitsAreTaken(digits[1..], rest);
    }
  }

  ghost predicate IsSign(sign: string) {
    sign == "" || sign == "+" || sign == "-"
  }

  /** What follows the spaces does not begin with one, and what follows the digits is none of them. */
  ghost predicate EndsNumber(sign: string, digits: string, rest: string) {
    && (rest == [] || !IsDigit(rest[0]))
    && (sign == "" && digits == [] ==> rest == [] || !(IsSpace(rest[0]) || rest[0] == '+' || rest[0] == '-'))
  }

  lemma TokenParts(sign: string, digits: string, rest: string)
    requires IsSign(sign) && AllDigits(digits) && EndsNumber(sign, digits, rest)
    ensures var t := sign + digits + rest;
            && (t == [] || !IsSpace(t[0]))
            && (t != [] && t[0] == '-' <==> sign == "-")
            && (if t != [] && (t[0] == '-' || t[0] == '+') then t[1..] else t) == digits + rest
  {
    var t := sign + digits + rest;
    assert digits != [] ==> digits[0] in digits;
    if sign == "" {
      assert t == digits + rest;
    } else {
      assert t[1..] == digits + rest;
    }
  }

  /**
    Any spaces, one sign and digits are read, whatever follows; a negative number counts down
    from 2^64, and one of 2^64 or more, or none, is an exception.
   */
  lemma StoulReads(spaces: string, sign: string, digits: string, rest: string)
    requires AllSpaces(spaces) && IsSign(sign) && AllDigits(digits) && EndsNumber(sign, digits, rest)
    ensures var n := FromDecimal(digits);
            Stoul(spaces + (sign + digits + rest)) ==
            if digits == [] || n >= 18_446_744_073_709_551_616 then None
            else if sign == "-" && n > 0 then Some(18_446_744_073_709_551_616 - n)
            else Some(n)
  {
    hide FromDecimal, SkipSpaces, DigitPrefix, IsSign, EndsNumber, IsSpace;
    TokenParts(sign, digits, rest);
    SpacesAreSkipped(spaces, sign + digits + rest);
    NumberEnds(sign, digits, rest);
    DigitsAreTaken(digits, rest);
  }

  lemma NumberEnds(sign: string, digits: string, rest: string)
    requires EndsNumber(sign, digits, rest)
    ensures rest == [] || !IsDigit(rest[0])
  {
  }

  // ----- Round trips

  /** Characters of an encoding: neither a terminator nor a space nor a sign. */
  lemma {:induction false} DigitsAreRead(s: string)
    requires AllDigits(s)
    ensures CString(s) == s && DigitPrefix(s) == s && SkipSpaces(s) == s
  {
    if s == [] {
    } else {
      assert s[0] in s;
      DigitsAreRead(s[1..]);
    }
  }

  lemma {:induction false} DecimalIsBounded(s: string)
    requires AllDigits(s)
    ensures FromDecimal(s) < Power10(|s|)
  {
    if s == [] {
    } else {
      assert s[|s| - 1] in s;
      DecimalIsBounded(s[..|s| - 1]);
    }
  }

  /** What a field of this width carries. */
  function Carried(n: nat, length: nat): nat {
    if n < Power10(length) then n else 0
  }

  lemma Widths()
    ensures Power10(NUMBER_LENGTH) == 10_000_000_000 && Power10(TIME_LENGTH) == 1_000_000_000_000_000
  {
    assert Power10(5) == 100_000;
    assert Power10(10) == 100_000 * Power10(5);
    assert Power10(15) == 100_000 * Power10(10);
  }

  lemma StoulOfField(n: nat, length: nat)
    requires length == NUMBER_LENGTH || length == TIME_LENGTH
    ensures Stoul(FixedLength(n, length)) == Some(Carried(n, length))
  {
    var s := FixedLength(n, length);
    Widths();
    DigitsAreRead(s);
    DecimalIsBounded(s);
    FieldRoundTrip(n, length);
    assert s[0] in s;
    hide Power10, FromDecimal, FixedLength, DigitPrefix, SkipSpaces;
  }

  lemma FieldInside(before: string, n: nat, length: nat, after: string)
    requires length == NUMBER_LENGTH || length == TIME_LENGTH
    ensures Field(before + FixedLength(n, length) + after, |before|, length) == Some(Carried(n, length))
  {
    StoulOfField(n, length);
    var s := before + FixedLength(n, length) + after;
    assert s[|before|..|before| + length] == FixedLength(n, length);
  }

  lemma EncodingType(t: PacketType, fields: string)
    requires AllDigits(fields)
    ensures var s := TypeString(t) + fields;
            CString(s) == s && GetType(s) == t
  {
    var s := TypeString(t) + fields;
    DigitsAreRead(s);
    assert s[..2] == TypeString(t);
  }

  /** A data packet reads back with its type, and unchanged exactly if its fields fit. */
  lemma DataRoundTrip(p: DataPacket, before: DataPacket)
    ensures GetType(SerializeData(p)) == DATA
    ensures ParseData(SerializeData(p), before) ==
            Some(DataPacket(Carried(p.number, NUMBER_LENGTH), Carried(p.sendTime, TIME_LENGTH), Carried(p.size, NUMBER_LENGTH)))
    ensures ParseData(SerializeData(p), before) == Some(p) <==>
            p.number < Power10(NUMBER_LENGTH) && p.sendTime < Power10(TIME_LENGTH) && p.size < Power10(NUMBER_LENGTH)
  {
    hide FixedLength, Field, Power10, CString, GetType;
    var t, a, b, c, d := TypeString(DATA), FixedLength(p.number, NUMBER_LENGTH), FixedLength(p.sendTime, TIME_LENGTH),
                         FixedLength(p.size, NUMBER_LENGTH), FixedLength(0, PADDING_LENGTH);
    var s := SerializeData(p);
    assert s == t + (a + b + c + d);
    EncodingType(DATA, a + b + c + d);
    FieldInside(t, p.number, NUMBER_LENGTH, b + c + d);
    assert s == t + a + (b + c + d);
    FieldInside(t + a, p.sendTime, TIME_LENGTH, c + d);
    assert s == t + a + b + (c + d);
    FieldInside(t + a + b, p.size, NUMBER_LENGTH, d);
    Widths();
  }

  /** A receiver report reads back with its type, and unchanged exactly if its fields fit. */
  lemma ReportRoundTrip(p: ReportPacket, before: ReportPacket)
    ensures GetType(SerializeReport(p)) == RR
    ensures ParseReport(SerializeReport(p), before) ==
            Some(ReportPacket(Carried(p.start, TIME_LENGTH), Carried(p.end, TIME_LENGTH),
                              Carried(p.lost, NUMBER_LENGTH), Carried(p.received, NUMBER_LENGTH)))
    ensures ParseReport(SerializeReport(p), before) == Some(p) <==>
            && p.start < Power10(TIME_LENGTH) && p.end < Power10(TIME_LENGTH)
            && p.lost < Power10(NUMBER_LENGTH) && p.received < Power10(NUMBER_LENGTH)
  {
    hide FixedLength, Field, Power10, CString, GetType;
    var t, a, b, c, d := TypeString(RR), FixedLength(p.start, TIME_LENGTH), FixedLength(p.end, TIME_LENGTH),
                         FixedLength(p.lost, NUMBER_LENGTH), FixedLength(p.received, NUMBER_LENGTH);
    var s := SerializeReport(p);
    assert s == t + (a + b + c + d);
    EncodingType(RR, a + b + c + d);
    FieldInside(t, p.start, TIME_LENGTH, b + c + d);
    assert s == t + a + (b + c + d);
    FieldInside(t + a, p.end, TIME_LENGTH, c + d);
    assert s == t + a + b + (c + d);
    FieldInside(t + a + b, p.lost, NUMBER_LENGTH, d);
    FieldInside(t + a + b + c, p.received, NUMBER_LENGTH, []);
    assert s == t + a + b + c + d + [];
    Widths();
  }

  /** A bandwidth of ten digits or fewer reads back; a larger one reads as zero. */
  lemma RembRoundTrip(p: RembPacket, before: RembPacket)
    ensures GetType(SerializeRemb(p)) == REMB
    ensures ParseRemb(SerializeRemb(p), before) == Some(RembPacket(Carried(p.bandwidth, NUMBER_LENGTH)))
    ensures ParseRemb(SerializeRemb(p), before) == Some(p) <==> p.bandwidth < Power10(NUMBER_LENGTH)
  {
    hide FixedLength, Field, Power10, CString, GetType;
    var t, a := TypeString(REMB), FixedLength(p.bandwidth, NUMBER_LENGTH);
    EncodingType(REMB, a);
    FieldInside(t, p.bandwidth, NUMBER_LENGTH, []);
    assert t + a + [] == t + a;
    Widths();
  }

  /** Encodings of different types never coincide, and a parser of another type changes nothing. */
  lemma TypesAreDistinct(p: DataPacket, q: ReportPacket, r: RembPacket, d: DataPacket, e: ReportPacket, f: RembPacket)
    ensures SerializeData(p) != SerializeReport(q) && SerializeReport(q) != SerializeRemb(r)
    ensures SerializeData(p) != SerializeRemb(r)
    ensures ParseData(SerializeReport(q), d) == Some(d) == ParseData(SerializeRemb(r), d)
    ensures ParseReport(SerializeData(p), e) == Some(e) == ParseReport(SerializeRemb(r), e)
    ensures ParseRemb(SerializeData(p), f) == Some(f) == ParseRemb(SerializeReport(q), f)
  {
    hide SerializeData, SerializeReport, SerializeRemb, Field, CString, GetType, Power10;
    DataRoundTrip(p, d);
    ReportRoundTrip(q, e);
    RembRoundTrip(r, f);
  }

  // ----- The program's objects

  class GccDataPacket {
    var sequenceNumber: nat
    var sendTime: nat
    var size: nat

    ghost function Abs(): DataPacket
      reads this
    {
      DataPacket(sequenceNumber, sendTime, size)
    }

    constructor ()
      ensures Abs() == DataPacket(0, 0, DATAGRAM_SIZE)
    {
      sequenceNumber, sendTime, size := 0, 0, DATAGRAM_SIZE;
    }

    method Serialize() returns (content: string)
      ensures content == SerializeData(Abs())
    {
      content := TypeString(DATA);
      var field := NumberToFixLenString(sequenceNumber, NUMBER_LENGTH);
      content := content + field;
      field := NumberToFixLenString(sendTime, TIME_LENGTH);
      content := content + field;
      field := NumberToFixLenString(size, NUMBER_LENGTH);
      content := content + field;
      field := NumberToFixLenString(0, PADDING_LENGTH);
      content := content + field;
    }

    method UnSerialize(data: string) returns (threw: bool)
      modifies this
      ensures threw <==> ParseData(data, old(Abs())).None?
      ensures Abs() == AssignedData(data, old(Abs()))
      ensures !threw ==> ParseData(data, old(Abs())) == Some(Abs())
    {
      hide Field;
      if GetType(data) == DATA {
        var s := CString(data);
        var number := Field(s, TYPE_LENGTH, NUMBER_LENGTH);
        if number.None? { return true; }
        sequenceNumber := number.value;
        var time := Field(s, TYPE_LENGTH + NUMBER_LENGTH, TIME_LENGTH);
        if time.None? { return true; }
        sendTime := time.value;
        var length := Field(s, TYPE_LENGTH + NUMBER_LENGTH + TIME_LENGTH, NUMBER_LENGTH);
        if length.None? { return true; }
        size := length.value;
      }
      return false;
    }
  }

  class GccReportPacket {
    var startTime: nat
    var endTime: nat
    var packetsLostDelta: nat
    var packetsReceivedDelta: nat

    ghost function Abs(): ReportPacket
      reads this
    {
      ReportPacket(startTime, endTime, packetsLostDelta, packetsReceivedDelta)
    }

    constructor ()
      ensures Abs() == ReportPacket(0, 0, 0, 0)
    {
      startTime, endTime, packetsLostDelta, packetsReceivedDelta := 0, 0, 0, 0;
    }

    method Serialize() returns (content: string)
      ensures content == SerializeReport(Abs())
    {
      content := TypeString(RR);
      var field := NumberToFixLenString(startTime, TIME_LENGTH);
      content := content + field;
      field := NumberToFixLenString(endTime, TIME_LENGTH);
      content := content + field;
      field := NumberToFixLenString(packetsLostDelta, NUMBER_LENGTH);
      content := content + field;
      field := NumberToFixLenString(packetsReceivedDelta, NUMBER_LENGTH);
      content := content + field;
    }

    method UnSerialize(data: string) returns (threw: bool)
      modifies this
      ensures threw <==> ParseReport(data, old(Abs())).None?
      ensures Abs() == AssignedReport(data, old(Abs()))
      ensures !threw ==> ParseReport(data, old(Abs())) == Some(Abs())
    {
      hide Field;
      if GetType(data) == RR {
        var s := CString(data);
        var start := Field(s, TYPE_LENGTH, TIME_LENGTH);
        if start.None? { return true; }
        startTime := start.value;
        var end := Field(s, TYPE_LENGTH + TIME_LENGTH, TIME_LENGTH);
        if end.None? { return true; }
        endTime := end.value;
        var lost := Field(s, TYPE_LENGTH + 2 * TIME_LENGTH, NUMBER_LENGTH);
        if lost.None? { return true; }
        packetsLostDelta := lost.value;
        var received := Field(s, TYPE_LENGTH + 2 * TIME_LENGTH + NUMBER_LENGTH, NUMBER_LENGTH);
        if received.None? { return true; }
        packetsReceivedDelta := received.value;
      }
      return false;
    }
  }

  class GccRembPacket {
    var bandwidth: nat

    ghost function Abs(): RembPacket
      reads this
    {
      RembPacket(bandwidth)
    }

    constructor ()
      ensures Abs() == RembPacket(0)
    {
      bandwidth := 0;
    }

    method Serialize() returns (content: string)
      ensures content == SerializeRemb(Abs())
    {
      content := TypeString(REMB);
      var field := NumberToFixLenString(bandwidth, NUMBER_LENGTH);
      content := content + field;
    }

    method UnSerialize(data: string) returns (threw: bool)
      modifies this
      ensures threw <==> ParseRemb(data, old(Abs())).None?
      ensures !threw ==> ParseRemb(data, old(Abs())) == Some(Abs())
    {
      hide Field;
      if GetType(data) == REMB {
        var rate := Field(CString(data), TYPE_LENGTH, NUMBER_LENGTH);
        if rate.None? { return true; }
        bandwidth := rate.value;
      }
      return false;
    }
  }
}
