/**
 * The text form of events: printed as comma-separated lines, batched into datagrams, split at
 * newlines, trimmed and parsed again. Characters stand for bytes.
 */
module Wire {
  import opened Types

  const INT64_MIN: int := -0x8000_0000_0000_0000
  const INT64_MAX: int := 0x7fff_ffff_ffff_ffff

  datatype WireEvent = WireEvent(
    tsExchange: int, tsReceived: int, side: Side, kind: UpdateType, price: int, qty: int,
    orderId: int, traderId: int, aggressorId: int, source: Source, symbol: string)

  // ---- trimming -----------------------------------------------------------------------------

  predicate Blank(c: char) {
    c == ' ' || c == '\t' || c == '\r'
  }

  /** Without blanks at either end. */
  ghost predicate Tidy(s: string) {
    s != [] ==> !Blank(s[0]) && !Blank(s[|s| - 1])
  }

  function Trimmed(s: string): (r: string)
    ensures |r| <= |s|
  {
    if s == [] then s
    else if Blank(s[0]) then Trimmed(s[1..])
    else if Blank(s[|s| - 1]) then Trimmed(s[..|s| - 1])
    else s
  }

  lemma {:induction false} TrimmedIsTidy(s: string)
    ensures Tidy(Trimmed(s))
    ensures forall c :: c in Trimmed(s) ==> c in s
  {
    if s != [] && Blank(s[0]) {
      TrimmedIsTidy(s[1..]);
    } else if s != [] && Blank(s[|s| - 1]) {
      TrimmedIsTidy(s[..|s| - 1]);
    }
  }

  /** What is cut off is blank. */
  lemma {:induction false} TrimmedCuts(s: string) returns (start: nat, end: nat)
    ensures start <= end <= |s| && Trimmed(s) == s[start..end]
    ensures forall i :: 0 <= i < start || end <= i < |s| ==> Blank(s[i])
  {
    if s != [] && Blank(s[0]) {
      start, end := TrimmedCuts(s[1..]);
      forall i | 0 <= i < start + 1 || end + 1 <= i < |s| ensures Blank(s[i]) {
        assert i > 0 ==> s[1..][i - 1] == s[i];
      }
      assert s[1..][start..end] == s[start + 1..end + 1];
      start, end := start + 1, end + 1;
    } else if s != [] && Blank(s[|s| - 1]) {
      var front := s[..|s| - 1];
      start, end := TrimmedCuts(front);
      forall i | 0 <= i < start || end <= i < |s| ensures Blank(s[i]) {
        assert i < |front| ==> front[i] == s[i];
      }
      assert front[start..end] == s[start..end];
    } else {
      start, end := 0, |s|;
    }
  }

  method Trim(value: string) returns (r: string)
    ensures r == Trimmed(value)
  {
    var start := 0;
    while start < |value| && Blank(value[start])
      invariant 0 <= start <= |value|
      invariant Trimmed(value) == Trimmed(value[start..])
    {
      assert value[start..][1..] == value[start + 1..];
      start := start + 1;
    }
    var end := |value|;
    assert value[start..end] == value[start..];
    while end > start && Blank(value[end - 1])
      invariant start <= end <= |value|
      invariant start < end ==> !Blank(value[start])
      invariant Trimmed(value) == Trimmed(value[start..end])
    {
      var middle := value[start..end];
      assert middle[|middle| - 1] == value[end - 1];
      assert middle[..|middle| - 1] == value[start..end - 1];
      end := end - 1;
    }
    return value[start..end];
  }

  // ---- numbers ------------------------------------------------------------------------------

  function Digit(d: nat): char
    requires d < 10
  {
    '0' + d as char
  }

  predicate IsDigit(c: char) {
    '0' <= c <= '9'
  }

  function DigitValue(c: char): nat
    requires IsDigit(c)
  {
    c as int - '0' as int
  }

  function Decimal(n: nat): (s: string)
    ensures s != [] && AllDigits(s)
  {
    if n < 10 then [Digit(n)] else Decimal(n / 10) + [Digit(n % 10)]
  }

  function Printed(n: int): string {
    if n < 0 then "-" + Decimal(-n) else Decimal(n)
  }

  predicate AllDigits(s: string) {
    forall i :: 0 <= i < |s| ==> IsDigit(s[i])
  }

  function ValueOf(s: string): nat
    requires AllDigits(s)
  {
    if s == [] then 0 else 10 * ValueOf(s[..|s| - 1]) + DigitValue(s[|s| - 1])
  }

  lemma {:induction false} DecimalValue(n: nat)
    ensures ValueOf(Decimal(n)) == n
  {
    if n >= 10 {
      DecimalValue(n / 10);
      assert Decimal(n)[..|Decimal(n)| - 1] == Decimal(n / 10);
    }
  }

  function Power10(k: nat): (n: nat)
    ensures n > 0
  {
    if k == 0 then 1 else 10 * Power10(k - 1)
  }

  /** Digits count by their place: each is worth ten times the one behind it. */
  lemma {:induction false} PlaceValue(a: string, b: string)
    requires AllDigits(a) && AllDigits(b)
    ensures ValueOf(a + b) == ValueOf(a) * Power10(|b|) + ValueOf(b)
    decreases |b|
  {
    if b == [] {
      assert a + b == a;
    } else {
      var front, c := b[..|b| - 1], b[|b| - 1];
      PlaceValue(a, front);
      assert b == front + [c] && a + b == (a + front) + [c];
      OneMoreDigit(front, c);
      OneMoreDigit(a + front, c);
      TenTimes(ValueOf(a), Power10(|front|));
      hide ValueOf;
    }
  }

  lemma {:induction false} OneMoreDigit(s: string, c: char)
    requires AllDigits(s) && IsDigit(c)
    ensures ValueOf(s + [c]) == 10 * ValueOf(s) + (c as int - '0' as int)
  {
    assert (s + [c])[..|s|] == s;
  }

  lemma TenTimes(v: int, p: int)
    ensures v * (10 * p) == 10 * (v * p)
  {
  }

  /** A minus sign or none, then digits to the end, within 64 bits. */
  function ParsedInt64(field: string): Option<int> {
    var negative := field != [] && field[0] == '-';
    var digits := if negative then field[1..] else field;
    if digits == [] || !AllDigits(digits) then None
    else
      var v: int := ValueOf(digits);
      var signed := if negative then -v else v;
      if INT64_MIN <= signed <= INT64_MAX then Some(signed) else None
  }

  function ParsedUint8(field: string): Option<int> {
    var v := ParsedInt64(field);
    if v.Some? && 0 <= v.value <= 255 then v else None
  }

  /** Printing and parsing a number is the identity on 64 bits. */
  lemma NumberRoundTrip(n: int)
    ensures ParsedInt64(Printed(n)) == if INT64_MIN <= n <= INT64_MAX then Some(n) else None
  {
    hide Decimal, ValueOf;
    if n < 0 {
      DecimalValue(-n);
      assert Printed(n)[1..] == Decimal(-n);
    } else {
      DecimalValue(n);
      assert IsDigit(Printed(n)[0]);
    }
  }

  /** Reads digits from the left, as the number grows; stops at anything else. */
  method ParseInt64(field: string) returns (r: Option<int>)
    ensures r == ParsedInt64(field)
  {
    var negative := field != [] && field[0] == '-';
    var digits := if negative then field[1..] else field;
    if digits == [] {
      return None;
    }
    var v := 0;
    for i := 0 to |digits|
      invariant AllDigits(digits[..i])
      invariant v == ValueOf(digits[..i])
    {
      if !IsDigit(digits[i]) {
        assert !AllDigits(digits);
        return None;
      }
      assert digits[..i + 1][..i] == digits[..i];
      v := 10 * v + DigitValue(digits[i]);
    }
    assert digits[..|digits|] == digits;
    var signed: int := if negative then -v else v;
    return if INT64_MIN <= signed <= INT64_MAX then Some(signed) else None;
  }

  // ---- fields -------------------------------------------------------------------------------

  /** The first position at or after `start` that holds `c`, or the end. */
  function IndexFrom(s: string, c: char, start: nat): (i: nat)
    requires start <= |s|
    ensures start <= i <= |s|
    ensures i < |s| ==> s[i] == c
    ensures forall j :: start <= j < i ==> s[j] != c
    decreases |s| - start
  {
    if start == |s| || s[start] == c then start else IndexFrom(s, c, start + 1)
  }

  datatype Cursor = Cursor(field: string, pos: nat)

  /** The field at a position, and where the next one starts. */
  function FieldAt(line: string, pos: nat): Option<Cursor> {
    if pos >= |line| then None
    else
      var end := IndexFrom(line, ',', pos);
      Some(Cursor(Trimmed(line[pos..end]), if end == |line| then |line| else end + 1))
  }

  method NextField(line: string, pos: nat) returns (r: Option<Cursor>)
    ensures r == FieldAt(line, pos)
  {
    if pos >= |line| {
      return None;
    }
    var end := pos;
    while end < |line| && line[end] != ','
      invariant pos <= end <= |line|
      invariant IndexFrom(line, ',', pos) == IndexFrom(line, ',', end)
    {
      end := end + 1;
    }
    var field := Trim(line[pos..end]);
    return Some(Cursor(field, if end == |line| then |line| else end + 1));
  }

  function FieldsFrom(line: string, pos: nat, count: nat): (r: Option<seq<string>>)
    ensures r.Some? ==> |r.value| == count
    decreases count
  {
    if count == 0 then Some([])
    else
      var c := FieldAt(line, pos);
      if c.None? then None
      else
        var more := FieldsFrom(line, c.value.pos, count - 1);
        if more.None? then None else Some([c.value.field] + more.value)
  }

  function Joined(fields: seq<string>): string {
    if fields == [] then ""
    else if |fields| == 1 then fields[0]
    else fields[0] + "," + Joined(fields[1..])
  }

  /** Printable as one field: no comma, no blank edge. */
  ghost predicate Plain(f: string) {
    Tidy(f) && ',' !in f
  }

  lemma {:induction false} TidyStays(f: string)
    requires Tidy(f)
    ensures Trimmed(f) == f
  {
  }

  function TrimmedAll(fields: seq<string>): (r: seq<string>)
    ensures |r| == |fields|
  {
    seq(|fields|, i requires 0 <= i < |fields| => Trimmed(fields[i]))
  }

  /** The columns that a line offers: an empty one at its end does not count. */
  function Usable(columns: seq<string>): nat {
    if columns != [] && columns[|columns| - 1] == "" then |columns| - 1 else |columns|
  }

  /**
   * Any line, as the columns between its commas: reading some fields gives as many columns from the
   * left, trimmed, or nothing if the line has fewer.
   */
  lemma {:induction false} ColumnsFrom(pre: string, columns: seq<string>, count: nat)
    requires columns != [] && forall i :: 0 <= i < |columns| ==> ',' !in columns[i]
    ensures FieldsFrom(pre + Joined(columns), |pre|, count)
         == if count <= Usable(columns) then Some(TrimmedAll(columns[..count])) else None
    decreases count
  {
    hide FieldsFrom, Joined, Trimmed;
    var f, line := columns[0], pre + Joined(columns);
    JoinedParts(columns);
    NoFields(line, |pre|);
    if count > 0 && |columns| == 1 {
      assert line == pre + f + "";
      LastColumn(pre, f, count);
      assert f != "" ==> TrimmedAll([f]) == [Trimmed(f)] && columns[..1] == [f];
    } else if count > 0 {
      var post := "," + Joined(columns[1..]);
      var next := pre + f + ",";
      assert line == pre + f + post == next + Joined(columns[1..]);
      FoundField(pre, f, post);
      ColumnsFrom(next, columns[1..], count - 1);
      FieldsStep(line, |pre|, count);
      if count <= Usable(columns) {
        TrimmedFirst(columns, count);
      }
    }
  }

  lemma TrimmedFirst(columns: seq<string>, count: nat)
    requires 0 < count <= |columns|
    ensures TrimmedAll(columns[..count]) == [Trimmed(columns[0])] + TrimmedAll(columns[1..][..count - 1])
  {
    hide Trimmed;
  }

  lemma {:induction false} NoFields(line: string, pos: nat)
    ensures FieldsFrom(line, pos, 0) == Some([]) && TrimmedAll([]) == []
  {
  }

  lemma {:induction false} LastColumn(pre: string, f: string, count: nat)
    requires ',' !in f && count > 0
    ensures FieldsFrom(pre + f + "", |pre|, count) == if f != "" && count == 1 then Some([Trimmed(f)]) else None
  {
    hide Trimmed;
    var line := pre + f + "";
    FieldsStep(line, |pre|, count);
    if f != "" {
      FoundField(pre, f, "");
      NoFields(line, |line|);
      if count > 1 {
        FieldsStep(line, |line|, count - 1);
      } else {
        assert [Trimmed(f)] + [] == [Trimmed(f)];
      }
    }
  }

  /** Fields that were joined with commas are found again, in order. */
  lemma {:induction false} JoinedFields(fields: seq<string>)
    requires fields != [] && fields[|fields| - 1] != ""
    requires forall i :: 0 <= i < |fields| ==> Plain(fields[i])
    ensures FieldsFrom(Joined(fields), 0, |fields|) == Some(fields)
  {
    ColumnsFrom("", fields, |fields|);
    hide Joined, FieldsFrom, Trimmed;
    assert "" + Joined(fields) == Joined(fields) && fields[..|fields|] == fields;
    forall i | 0 <= i < |fields| ensures Trimmed(fields[i]) == fields[i] {
      TidyStays(fields[i]);
    }
    assert TrimmedAll(fields) == fields;
  }

  lemma {:induction false} JoinedParts(fields: seq<string>)
    requires fields != []
    ensures Joined(fields) == fields[0] + if |fields| == 1 then "" else "," + Joined(fields[1..])
  {
    assert |fields| == 1 ==> fields[0] + "" == fields[0];
  }

  /** A field between its neighbours is found, and the cursor moves behind its comma. */
  lemma {:induction false} FoundField(pre: string, f: string, post: string)
    requires ',' !in f && if post == "" then f != "" else post[0] == ','
    ensures FieldAt(pre + f + post, |pre|)
         == Some(Cursor(Trimmed(f), if post == "" then |pre| + |f| else |pre| + |f| + 1))
  {
    hide FieldAt, IndexFrom, Trimmed;
    CommaBehind(pre, f, post);
    FieldUpTo(pre + f + post, |pre|, |pre| + |f|, f);
  }

  lemma {:induction false} FieldUpTo(line: string, pos: nat, end: nat, f: string)
    requires pos < |line| && IndexFrom(line, ',', pos) == end && line[pos..end] == f
    ensures FieldAt(line, pos) == Some(Cursor(Trimmed(f), if end == |line| then |line| else end + 1))
  {
    hide IndexFrom, Trimmed;
  }

  lemma {:induction false} CommaBehind(pre: string, f: string, post: string)
    requires ',' !in f && (post != "" ==> post[0] == ',')
    ensures var line := pre + f + post;
            IndexFrom(line, ',', |pre|) == |pre| + |f| && line[|pre|..|pre| + |f|] == f
  {
    hide IndexFrom;
    var line := pre + f + post;
    assert forall j :: |pre| <= j < |pre| + |f| ==> line[j] == f[j - |pre|];
    assert post != "" ==> line[|pre| + |f|] == ',';
  }

  // ---- events -------------------------------------------------------------------------------

  function SideCode(s: Side): nat {
    match s case Sell => 0 case Buy => 1
  }

  function KindCode(k: UpdateType): nat {
    match k case Add => 0 case Delete => 1 case Subtract => 2 case Match => 3 case Set => 4 case AggressiveTrade => 5
  }

  function SourceCode(s: Source): nat {
    match s case Historical => 0 case Strategy => 1 case Unknown => 2
  }

  function SideOf(n: int): Option<Side> {
    if n == 0 then Some(Sell) else if n == 1 then Some(Buy) else None
  }

  function KindOf(n: int): Option<UpdateType> {
    if n == 0 then Some(Add) else if n == 1 then Some(Delete) else if n == 2 then Some(Subtract)
    else if n == 3 then Some(Match) else if n == 4 then Some(Set) else if n == 5 then Some(AggressiveTrade) else None
  }

  function SourceOf(n: int): Option<Source> {
    if n == 0 then Some(Historical) else if n == 1 then Some(Strategy) else if n == 2 then Some(Unknown) else None
  }

  const FIELD_COUNT: nat := 11

  function FieldsOf(e: WireEvent): (r: seq<string>)
    ensures |r| == FIELD_COUNT
  {
    [Printed(e.tsExchange), Printed(e.tsReceived), Printed(SideCode(e.side)), Printed(KindCode(e.kind)),
     Printed(e.price), Printed(e.qty), Printed(e.orderId), Printed(e.traderId), Printed(e.aggressorId),
     Printed(SourceCode(e.source)), e.symbol]
  }

  /** Whether the field at position `i` is one that the parser takes. */
  predicate FieldOk(i: nat, f: string) {
    if i == 10 then f != ""
    else if i == 2 || i == 3 || i == 9 then ParsedUint8(f).Some?
    else ParsedInt64(f).Some?
  }

  function NumberIn(f: string): int {
    var v := ParsedInt64(f);
    if v.Some? then v.value else 0
  }

  function EventOf(f: seq<string>): Option<WireEvent>
    requires |f| == FIELD_COUNT
  {
    var side := SideOf(NumberIn(f[2]));
    var kind := KindOf(NumberIn(f[3]));
    var source := SourceOf(NumberIn(f[9]));
    if side.None? || kind.None? || source.None? then None
    else
      Some(WireEvent(NumberIn(f[0]), NumberIn(f[1]), side.value, kind.value, NumberIn(f[4]), NumberIn(f[5]),
                     NumberIn(f[6]), NumberIn(f[7]), NumberIn(f[8]), source.value, f[10]))
  }

  function Parsed(line: string): Option<WireEvent> {
    var f := FieldsFrom(line, 0, FIELD_COUNT);
    if f.None? || exists i :: 0 <= i < FIELD_COUNT && !FieldOk(i, f.value[i]) then None else EventOf(f.value)
  }

  /** What the generator promises of an event: 64-bit numbers, and a symbol that fits into a field of a line. */
  ghost predicate Printable(e: WireEvent) {
    && InRange(e.tsExchange) && InRange(e.tsReceived) && InRange(e.price) && InRange(e.qty)
    && InRange(e.orderId) && InRange(e.traderId) && InRange(e.aggressorId)
    && e.symbol != "" && Plain(e.symbol) && '\n' !in e.symbol
  }

  predicate InRange(n: int) {
    INT64_MIN <= n <= INT64_MAX
  }

  /** A line without its newline. */
  function LineOf(e: WireEvent): string {
    Joined(FieldsOf(e))
  }

  lemma PrintedPlain(n: int)
    ensures Plain(Printed(n)) && '\n' !in Printed(n) && Printed(n) != ""
  {
    assert forall i :: 0 <= i < |Printed(n)| ==> IsDigit(Printed(n)[i]) || Printed(n)[i] == '-';
  }

  lemma FieldsPlain(e: WireEvent, i: nat)
    requires Printable(e) && i < FIELD_COUNT
    ensures Plain(FieldsOf(e)[i]) && '\n' !in FieldsOf(e)[i] && FieldsOf(e)[i] != ""
  {
    hide Plain, Printed;
    PrintedPlain(e.tsExchange);
    PrintedPlain(e.tsReceived);
    PrintedPlain(SideCode(e.side));
    PrintedPlain(KindCode(e.kind));
    PrintedPlain(e.price);
    PrintedPlain(e.qty);
    PrintedPlain(e.orderId);
    PrintedPlain(e.traderId);
    PrintedPlain(e.aggressorId);
    PrintedPlain(SourceCode(e.source));
  }

  lemma EventFields(e: WireEvent)
    requires Printable(e)
    ensures forall i :: 0 <= i < FIELD_COUNT ==> FieldOk(i, FieldsOf(e)[i])
    ensures EventOf(FieldsOf(e)) == Some(e)
  {
    hide ParsedInt64, Printed, Plain;
    NumberRoundTrip(e.tsExchange);
    NumberRoundTrip(e.tsReceived);
    NumberRoundTrip(SideCode(e.side));
    NumberRoundTrip(KindCode(e.kind));
    NumberRoundTrip(e.price);
    NumberRoundTrip(e.qty);
    NumberRoundTrip(e.orderId);
    NumberRoundTrip(e.traderId);
    NumberRoundTrip(e.aggressorId);
    NumberRoundTrip(SourceCode(e.source));
  }

  /**
   * The columns of a line that the parser reads: when it takes them, and which field of the event
   * each of them is, with the codes of side, kind and source.
   */
  lemma {:induction false} ColumnsRead(line: string)
    ensures Parsed(line).Some? ==> FieldsFrom(line, 0, FIELD_COUNT).Some?
    ensures FieldsFrom(line, 0, FIELD_COUNT).Some? ==>
              var f := FieldsFrom(line, 0, FIELD_COUNT).value;
              Parsed(line).Some? <==>
                && (forall i :: 0 <= i < 10 ==> ParsedInt64(f[i]).Some?)
                && 0 <= NumberIn(f[2]) <= 1 && 0 <= NumberIn(f[3]) <= 5 && 0 <= NumberIn(f[9]) <= 2
                && f[10] != ""
    ensures Parsed(line).Some? ==> Columns(FieldsFrom(line, 0, FIELD_COUNT).value, Parsed(line).value)
  {
    hide FieldsFrom, ParsedInt64;
    var f := FieldsFrom(line, 0, FIELD_COUNT);
    if f.Some? {
      var fields := f.value;
      if Parsed(line).Some? {
        forall i | 0 <= i < 10 ensures ParsedInt64(fields[i]).Some? {
          assert FieldOk(i, fields[i]);
        }
        assert FieldOk(10, fields[10]);
      }
      if && (forall i :: 0 <= i < 10 ==> ParsedInt64(fields[i]).Some?)
         && 0 <= NumberIn(fields[2]) <= 1 && 0 <= NumberIn(fields[3]) <= 5 && 0 <= NumberIn(fields[9]) <= 2
         && fields[10] != ""
      {
        forall i | 0 <= i < FIELD_COUNT ensures FieldOk(i, fields[i]) {
          assert i < 10 ==> ParsedInt64(fields[i]).Some?;
        }
      }
    }
  }

  ghost predicate Columns(f: seq<string>, e: WireEvent)
    requires |f| == FIELD_COUNT
  {
    && NumberIn(f[0]) == e.tsExchange
    && NumberIn(f[1]) == e.tsReceived
    && NumberIn(f[2]) == (if e.side == Sell then 0 else 1)
    && NumberIn(f[3]) == (if e.kind == Add then 0 else if e.kind == Delete then 1 else if e.kind == Subtract then 2
                          else if e.kind == Match then 3 else if e.kind == Set then 4 else 5)
    && NumberIn(f[4]) == e.price
    && NumberIn(f[5]) == e.qty
    && NumberIn(f[6]) == e.orderId
    && NumberIn(f[7]) == e.traderId
    && NumberIn(f[8]) == e.aggressorId
    && NumberIn(f[9]) == (if e.source == Historical then 0 else if e.source == Strategy then 1 else 2)
    && f[10] == e.symbol
  }

  /** A printed line has the same columns. */
  lemma ColumnsPrinted(e: WireEvent)
    requires Printable(e)
    ensures FieldsFrom(LineOf(e), 0, FIELD_COUNT) == Some(FieldsOf(e)) && Columns(FieldsOf(e), e)
  {
    hide Columns, FieldsOf, Printable;
    LineRoundTrip(e);
    ColumnsRead(LineOf(e));
    LineFields(e);
  }

  lemma LineFields(e: WireEvent)
    requires Printable(e)
    ensures FieldsFrom(LineOf(e), 0, FIELD_COUNT) == Some(FieldsOf(e))
  {
    var fields := FieldsOf(e);
    forall i | 0 <= i < FIELD_COUNT ensures Plain(fields[i]) && fields[i] != "" {
      FieldsPlain(e, i);
    }
    hide FieldsOf, Plain, Joined, FieldsFrom, Printable;
    JoinedFields(fields);
  }

  /** Parsing a printed line gives the event back. */
  lemma LineRoundTrip(e: WireEvent)
    requires Printable(e)
    ensures Parsed(LineOf(e)) == Some(e)
  {
    EventFields(e);
    LineFields(e);
    hide FieldsOf, FieldOk, EventOf, FieldsFrom, Printable;
  }

  /** Reads the fields in turn and gives up at the first that is missing or malformed. */
  method ParseNormalizedEvent(line: string) returns (r: Option<WireEvent>)
    ensures r == Parsed(line)
  {
    hide FieldAt, EventOf, ParsedInt64;
    var pos, fields := 0, [];
    NoneRead(line);
    for i := 0 to FIELD_COUNT
      invariant |fields| == i && forall k :: 0 <= k < i ==> FieldOk(k, fields[k])
      invariant FieldsRead(line, fields, pos)
    {
      var c := NextField(line, pos);
      ReadOne(line, fields, pos);
      if c.None? {
        return None;
      }
      var number := ParseInt64(c.value.field);
      var ok := if i == 10 then c.value.field != ""
        else if i == 2 || i == 3 || i == 9 then number.Some? && 0 <= number.value <= 255
        else number.Some?;
      if !ok {
        BadField(line, fields + [c.value.field], c.value.pos, i);
        return None;
      }
      fields, pos := fields + [c.value.field], c.value.pos;
    }
    assert fields + [] == fields;
    assert FieldsFrom(line, pos, 0) == Some([]);
    return EventOf(fields);
  }

  /** The fields before the cursor have been read; the rest of the line decides. */
  ghost predicate FieldsRead(line: string, fields: seq<string>, pos: nat) {
    && |fields| <= FIELD_COUNT
    && FieldsFrom(line, 0, FIELD_COUNT) == Before(fields, FieldsFrom(line, pos, FIELD_COUNT - |fields|))
  }

  /** Fields read earlier in front of fields read later, if those can be read. */
  function Before(fields: seq<string>, more: Option<seq<string>>): Option<seq<string>> {
    if more.None? then None else Some(fields + more.value)
  }

  lemma BeforeNone(fields: seq<string>)
    ensures Before(fields, None) == None
  {
  }

  lemma BeforeOne(fields: seq<string>, f: string, more: Option<seq<string>>)
    ensures Before(fields, Before([f], more)) == Before(fields + [f], more)
  {
    if more.Some? {
      assert fields + ([f] + more.value) == (fields + [f]) + more.value;
    }
  }

  lemma NoneRead(line: string)
    ensures FieldsRead(line, [], 0)
  {
    var more := FieldsFrom(line, 0, FIELD_COUNT);
    hide FieldsFrom;
    assert more.Some? ==> [] + more.value == more.value;
  }

  lemma {:induction false} ReadOne(line: string, fields: seq<string>, pos: nat)
    requires FieldsRead(line, fields, pos) && |fields| < FIELD_COUNT
    ensures var c := FieldAt(line, pos);
            && (c.None? ==> FieldsFrom(line, 0, FIELD_COUNT).None?)
            && (c.Some? ==> FieldsRead(line, fields + [c.value.field], c.value.pos))
  {
    var c := FieldAt(line, pos);
    var left := FIELD_COUNT - |fields|;
    hide FieldsFrom, FieldAt, Before;
    FieldsStep(line, pos, left);
    BeforeNone(fields);
    if c.Some? {
      BeforeOne(fields, c.value.field, FieldsFrom(line, c.value.pos, left - 1));
    }
  }

  lemma FieldsStep(line: string, pos: nat, count: nat)
    requires count > 0
    ensures var c := FieldAt(line, pos);
            FieldsFrom(line, pos, count) ==
            if c.None? then None else Before([c.value.field], FieldsFrom(line, c.value.pos, count - 1))
  {
  }

  lemma Regroup<T>(a: seq<T>, b: seq<T>, c: seq<T>)
    ensures a + (b + c) == (a + b) + c
  {
  }

  lemma BadField(line: string, fields: seq<string>, pos: nat, i: nat)
    requires FieldsRead(line, fields, pos) && i < |fields| && !FieldOk(i, fields[i])
    ensures Parsed(line).None?
  {
    hide FieldOk, FieldsFrom;
    var f := FieldsFrom(line, 0, FIELD_COUNT);
    assert f.Some? ==> f.value[i] == fields[i];
  }

  // ---- what is parsed can be printed --------------------------------------------------------

  lemma {:induction false} FieldsArePlain(line: string, pos: nat, count: nat, i: nat)
    requires FieldsFrom(line, pos, count).Some? && i < count
    ensures var f := FieldsFrom(line, pos, count).value[i];
            Plain(f) && forall c :: c in f ==> c in line
    decreases count
  {
    var c := FieldAt(line, pos).value;
    if i == 0 {
      var end := IndexFrom(line, ',', pos);
      TrimmedIsTidy(line[pos..end]);
      assert ',' !in line[pos..end];
    } else {
      FieldsArePlain(line, c.pos, count - 1, i - 1);
    }
  }

  /** Every line that parses gives an event that prints, and its printed line parses to the same event. */
  lemma ParsedIsPrintable(line: string)
    requires Parsed(line).Some? && '\n' !in line
    ensures Printable(Parsed(line).value)
    ensures Parsed(LineOf(Parsed(line).value)) == Parsed(line)
  {
    var f := FieldsFrom(line, 0, FIELD_COUNT).value;
    FieldsArePlain(line, 0, FIELD_COUNT, 10);
    forall i | 0 <= i < FIELD_COUNT ensures FieldOk(i, f[i]) {
    }
    NumbersInRange(f);
    LineRoundTrip(Parsed(line).value);
  }

  lemma NumbersInRange(f: seq<string>)
    requires |f| == FIELD_COUNT
    ensures EventOf(f).Some? ==>
              var e := EventOf(f).value;
              && InRange(e.tsExchange) && InRange(e.tsReceived) && InRange(e.price) && InRange(e.qty)
              && InRange(e.orderId) && InRange(e.traderId) && InRange(e.aggressorId) && e.symbol == f[10]
  {
    assert forall s :: InRange(NumberIn(s));
  }
}
