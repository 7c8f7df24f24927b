/** Lines of events batched into datagrams by the generator, and taken apart again by the receiver. */
module Datagrams {
  import opened Types
  import opened Wire

  /** The events' lines, each closed by a newline. */
  function Text(events: seq<WireEvent>): string {
    if events == [] then "" else LineOf(events[0]) + "\n" + Text(events[1..])
  }

  lemma {:induction false} TextConcat(a: seq<WireEvent>, b: seq<WireEvent>)
    ensures Text(a + b) == Text(a) + Text(b)
  {
    if a == [] {
      assert a + b == b;
    } else {
      assert (a + b)[1..] == a[1..] + b;
      TextConcat(a[1..], b);
    }
  }

  lemma {:induction false} TextNext(events: seq<WireEvent>, e: WireEvent)
    ensures Text(events + [e]) == Text(events) + (LineOf(e) + "\n")
  {
    TextConcat(events, [e]);
    assert Text([e]) == LineOf(e) + "\n" + "";
  }

  // ---- the receiver's splitter --------------------------------------------------------------

  function LinesFrom(payload: string, start: nat): seq<string>
    decreases |payload| - start
  {
    if start >= |payload| then []
    else
      var end := IndexFrom(payload, '\n', start);
      var line := Trimmed(payload[start..end]);
      (if line == "" then [] else [line]) + LinesFrom(payload, end + 1)
  }

  method SplitPayload(payload: string) returns (lines: seq<string>)
    ensures lines == LinesFrom(payload, 0)
  {
    hide LinesFrom, Trimmed, IndexFrom;
    lines := [];
    var start := 0;
    LinesStep(payload, 0);
    while start < |payload|
      invariant start <= |payload| + 1
      invariant LinesFrom(payload, 0) == lines + LinesFrom(payload, start)
      decreases |payload| + 1 - start
    {
      LinesStep(payload, start);
      var end := FindNewline(payload, start);
      var line := Trim(payload[start..end]);
      Regroup(lines, if line != "" then [line] else [], LinesFrom(payload, end + 1));
      Unchanged(lines);
      if line != "" {
        lines := lines + [line];
      }
      start := end + 1;
    }
    LinesStep(payload, start);
  }

  lemma Unchanged<T>(s: seq<T>)
    ensures s + [] == s
  {
  }

  method FindNewline(payload: string, start: nat) returns (end: nat)
    requires start <= |payload|
    ensures end == IndexFrom(payload, '\n', start)
  {
    end := start;
    while end < |payload| && payload[end] != '\n'
      invariant start <= end <= |payload|
      invariant IndexFrom(payload, '\n', start) == IndexFrom(payload, '\n', end)
    {
      end := end + 1;
    }
  }

  lemma LinesStep(payload: string, start: nat)
    ensures LinesFrom(payload, start) ==
            if start >= |payload| then []
            else
              var end := IndexFrom(payload, '\n', start);
              var line := Trimmed(payload[start..end]);
              (if line == "" then [] else [line]) + LinesFrom(payload, end + 1)
  {
  }

  /** Any payload, as the pieces between its newlines. */
  function WithNewlines(pieces: seq<string>): string {
    if pieces == [] then ""
    else if |pieces| == 1 then pieces[0]
    else pieces[0] + "\n" + WithNewlines(pieces[1..])
  }

  /** The pieces, trimmed, without those that come out empty. */
  function Kept(pieces: seq<string>): seq<string> {
    if pieces == [] then []
    else
      var line := Trimmed(pieces[0]);
      (if line == "" then [] else [line]) + Kept(pieces[1..])
  }

  /** Splitting any payload keeps its pieces, trimmed, that are not blank. */
  lemma {:induction false} SplitPieces(pre: string, pieces: seq<string>)
    requires pieces != [] && forall i :: 0 <= i < |pieces| ==> '\n' !in pieces[i]
    ensures LinesFrom(pre + WithNewlines(pieces), |pre|) == Kept(pieces)
    decreases |pieces|
  {
    hide LinesFrom, Trimmed;
    if |pieces| == 1 {
      LastPiece(pre, pieces[0]);
      assert Kept(pieces[1..]) == [];
    } else {
      var next := pre + pieces[0] + "\n";
      SplitPieces(next, pieces[1..]);
      assert pre + WithNewlines(pieces) == next + WithNewlines(pieces[1..]);
      FirstPiece(pre, pieces[0], WithNewlines(pieces[1..]));
    }
  }

  lemma {:induction false} LastPiece(pre: string, piece: string)
    requires '\n' !in piece
    ensures var line := Trimmed(piece);
            LinesFrom(pre + piece, |pre|) == if line == "" then [] else [line]
  {
    hide LinesFrom;
    var payload := pre + piece;
    LinesStep(payload, |pre|);
    if piece == "" {
      assert Trimmed(piece) == "";
    } else {
      var end := IndexFrom(payload, '\n', |pre|);
      assert forall j :: |pre| <= j < |payload| ==> payload[j] == piece[j - |pre|];
      assert end == |payload| && payload[|pre|..end] == piece;
      LinesStep(payload, end + 1);
    }
  }

  lemma FirstPiece(pre: string, piece: string, post: string)
    requires '\n' !in piece
    ensures var payload := pre + piece + "\n" + post;
            var line := Trimmed(piece);
            LinesFrom(payload, |pre|)
            == (if line == "" then [] else [line]) + LinesFrom(payload, |pre + piece + "\n"|)
  {
    hide LinesFrom, Trimmed;
    var payload := pre + piece + "\n" + post;
    var end := IndexFrom(payload, '\n', |pre|);
    assert forall j :: |pre| <= j < |pre| + |piece| ==> payload[j] == piece[j - |pre|];
    assert payload[|pre| + |piece|] == '\n';
    assert end == |pre| + |piece|;
    assert payload[|pre|..end] == piece;
    LinesStep(payload, |pre|);
  }

  function LinesOf(events: seq<WireEvent>): (r: seq<string>)
    ensures |r| == |events|
  {
    seq(|events|, i requires 0 <= i < |events| => LineOf(events[i]))
  }

  ghost predicate AllPrintable(events: seq<WireEvent>) {
    forall i :: 0 <= i < |events| ==> Printable(events[i])
  }

  lemma {:induction false} JoinedHas(fields: seq<string>, c: char)
    requires c != ','
    ensures c in Joined(fields) <==> exists i :: 0 <= i < |fields| && c in fields[i]
  {
    if |fields| > 1 {
      JoinedHas(fields[1..], c);
      var rest := fields[1..];
      if i :| 0 <= i < |fields| && c in fields[i] {
        assert i > 0 ==> c in rest[i - 1];
      }
    }
  }

  lemma {:induction false} JoinedEnds(fields: seq<string>)
    requires fields != [] && forall i :: 0 <= i < |fields| ==> fields[i] != "" && Tidy(fields[i])
    ensures Joined(fields) != "" && Tidy(Joined(fields))
    ensures Joined(fields)[0] == fields[0][0]
  {
    if |fields| > 1 {
      JoinedEnds(fields[1..]);
    }
  }

  /** A printed line has no newline inside and no blank edge. */
  lemma LineClean(e: WireEvent)
    requires Printable(e)
    ensures LineOf(e) != "" && Tidy(LineOf(e)) && '\n' !in LineOf(e)
  {
    forall i | 0 <= i < FIELD_COUNT ensures FieldsOf(e)[i] != "" && Tidy(FieldsOf(e)[i]) && '\n' !in FieldsOf(e)[i] {
      FieldsPlain(e, i);
    }
    hide FieldsOf, Joined;
    JoinedHas(FieldsOf(e), '\n');
    JoinedEnds(FieldsOf(e));
  }

  /** Splitting a datagram gives back its lines, in order. */
  lemma {:induction false} SplitText(pre: string, events: seq<WireEvent>)
    requires AllPrintable(events)
    ensures LinesFrom(pre + Text(events), |pre|) == LinesOf(events)
    decreases |events|
  {
    hide LineOf, Printable, LinesFrom, Tidy;
    if events == [] {
      LinesStep(pre + Text(events), |pre|);
    } else {
      var line := LineOf(events[0]);
      var next := pre + line + "\n";
      LineClean(events[0]);
      SplitText(next, events[1..]);
      TextFirst(pre, events);
      FirstLine(pre, line, Text(events[1..]));
      LinesFirst(events);
    }
  }

  lemma {:induction false} TextFirst(pre: string, events: seq<WireEvent>)
    requires events != []
    ensures pre + Text(events) == pre + LineOf(events[0]) + "\n" + Text(events[1..])
  {
    hide LineOf;
    var line := LineOf(events[0]);
    Regroup(pre, line + "\n", Text(events[1..]));
    Regroup(pre, line, "\n");
  }

  lemma LinesFirst(events: seq<WireEvent>)
    requires events != []
    ensures LinesOf(events) == [LineOf(events[0])] + LinesOf(events[1..])
  {
    hide LineOf;
  }

  lemma {:induction false} FirstLine(pre: string, line: string, post: string)
    requires line != "" && Tidy(line) && '\n' !in line
    ensures var payload := pre + line + "\n" + post;
            LinesFrom(payload, |pre|) == [line] + LinesFrom(payload, |pre + line + "\n"|)
  {
    FirstPiece(pre, line, post);
    TidyStays(line);
  }

  // ---- the generator's line buffer ----------------------------------------------------------

  /** The generator builds a line, newline included, in a buffer of this many characters. */
  const LINE_BUFFER: nat := 256

  lemma {:induction false} DecimalLength(n: nat, k: nat)
    requires k > 0
    ensures n < Power10(k) <==> |Decimal(n)| <= k
  {
    if k > 1 && n >= 10 {
      DecimalLength(n / 10, k - 1);
    }
  }

  lemma NineteenDigits()
    ensures Power10(18) == 1000000000000000000 && Power10(19) == 10000000000000000000
  {
    assert Power10(4) == 10000;
    assert Power10(8) == 100000000;
    assert Power10(12) == 1000000000000;
    assert Power10(16) == 10000000000000000;
  }

  /** A 64-bit number takes up to twenty characters, and the lowest one takes them all. */
  lemma NumberLength(n: int)
    requires InRange(n)
    ensures |Printed(n)| <= 20 && (n == INT64_MIN ==> |Printed(n)| == 20)
  {
    hide Power10, Decimal;
    NineteenDigits();
    DecimalLength(if n < 0 then -n else n, 19);
    DecimalLength(if n < 0 then -n else n, 18);
  }

  function Lengths(fields: seq<string>): nat {
    if fields == [] then 0 else |fields[0]| + Lengths(fields[1..])
  }

  lemma {:induction false} JoinedLength(fields: seq<string>)
    requires fields != []
    ensures |Joined(fields)| == Lengths(fields) + |fields| - 1
  {
    if |fields| > 1 {
      JoinedLength(fields[1..]);
    } else {
      assert Lengths(fields[1..]) == 0;
    }
  }

  lemma {:induction false} ElevenLengths(f: seq<string>)
    requires |f| == FIELD_COUNT
    ensures Lengths(f) == |f[0]| + |f[1]| + |f[2]| + |f[3]| + |f[4]| + |f[5]| + |f[6]| + |f[7]| + |f[8]| + |f[9]|
            + |f[10]|
  {
    hide Lengths;
    assert f[0..] == f;
    forall i | 0 <= i < FIELD_COUNT ensures Lengths(f[i..]) == |f[i]| + Lengths(f[i + 1..]) {
      NextLength(f, i);
    }
    assert Lengths(f[0..]) == |f[0]| + |f[1]| + |f[2]| + |f[3]| + Lengths(f[4..]);
    assert Lengths(f[4..]) == |f[4]| + |f[5]| + |f[6]| + |f[7]| + Lengths(f[8..]);
    NoLength(f[11..]);
  }

  lemma NextLength(f: seq<string>, i: nat)
    requires i < |f|
    ensures Lengths(f[i..]) == |f[i]| + Lengths(f[i + 1..])
  {
    assert f[i..][1..] == f[i + 1..];
  }

  lemma {:induction false} NoLength(f: seq<string>)
    requires f == []
    ensures Lengths(f) == 0
  {
  }

  /** Seven numbers, three codes of one digit, ten commas and the newline leave the rest to the symbol. */
  lemma LineLength(e: WireEvent)
    requires Printable(e)
    ensures |LineOf(e)| + 1 <= 154 + |e.symbol|
    ensures Longest(e) ==> |LineOf(e)| + 1 == 154 + |e.symbol|
  {
    hide Joined, Printed, Lengths, Plain;
    JoinedLength(FieldsOf(e));
    ElevenLengths(FieldsOf(e));
    NumberLength(e.tsExchange);
    NumberLength(e.tsReceived);
    NumberLength(e.price);
    NumberLength(e.qty);
    NumberLength(e.orderId);
    NumberLength(e.traderId);
    NumberLength(e.aggressorId);
    OneDigit(SideCode(e.side));
    OneDigit(KindCode(e.kind));
    OneDigit(SourceCode(e.source));
  }

  predicate Longest(e: WireEvent) {
    && e.tsExchange == e.tsReceived == e.price == e.qty == INT64_MIN
    && e.orderId == e.traderId == e.aggressorId == INT64_MIN
  }

  lemma OneDigit(n: nat)
    requires n < 10
    ensures |Printed(n)| == 1
  {
  }

  /** The line buffer holds every event of a symbol exactly when the symbol has at most 102 characters. */
  lemma LineFitsBuffer(symbol: string)
    requires symbol != "" && Plain(symbol) && '\n' !in symbol
    ensures (forall e :: Printable(e) && e.symbol == symbol ==> |LineOf(e)| + 1 <= LINE_BUFFER) <==> |symbol| <= 102
  {
    hide LineOf, Plain;
    forall e | Printable(e) && e.symbol == symbol ensures |LineOf(e)| + 1 <= 154 + |symbol| {
      LineLength(e);
    }
    var longest := WireEvent(INT64_MIN, INT64_MIN, Buy, Add, INT64_MIN, INT64_MIN, INT64_MIN, INT64_MIN, INT64_MIN,
                             Historical, symbol);
    LineLength(longest);
  }

  // ---- the generator's batcher --------------------------------------------------------------

  function Flat(groups: seq<seq<WireEvent>>): seq<WireEvent> {
    if groups == [] then [] else Flat(groups[..|groups| - 1]) + groups[|groups| - 1]
  }

  lemma {:induction false} FlatNext(groups: seq<seq<WireEvent>>, g: seq<WireEvent>)
    ensures Flat(groups + [g]) == Flat(groups) + g
  {
    assert (groups + [g])[..|groups|] == groups;
  }

  class Generator {
    const maxDatagramBytes: nat
    const batchLines: nat
    var batch: string
    var batchCount: nat
    /** The datagrams that have gone out. */
    var sent: seq<string>
    ghost var groups: seq<seq<WireEvent>>
    ghost var pending: seq<WireEvent>

    /** A datagram stays within both limits unless it is a single line. */
    ghost predicate Fits(text: string, events: seq<WireEvent>) {
      && text == Text(events)
      && (|events| > 1 ==> |text| <= maxDatagramBytes && |events| <= batchLines)
    }

    ghost predicate Valid()
      reads this
    {
      && |groups| == |sent|
      && (forall i :: 0 <= i < |sent| ==> groups[i] != [] && Fits(sent[i], groups[i]))
      && Fits(batch, pending) && batchCount == |pending|
    }

    /** Everything emitted so far, sent or not. */
    ghost function Emitted(): seq<WireEvent>
      reads this
    {
      Flat(groups) + pending
    }

    constructor (maxDatagramBytes: nat, batchLines: nat)
      ensures Valid() && Emitted() == [] && sent == []
      ensures this.maxDatagramBytes == maxDatagramBytes && this.batchLines == batchLines
    {
      this.maxDatagramBytes, this.batchLines := maxDatagramBytes, batchLines;
      batch, batchCount, sent, groups, pending := "", 0, [], [], [];
    }

    method FlushBatch()
      requires Valid()
      modifies this
      ensures Valid() && Emitted() == old(Emitted()) && pending == [] && batch == "" && batchCount == 0
      ensures sent == old(sent) + if old(batch) == "" then [] else [old(batch)]
    {
      hide LineOf;
      if batch == "" {
        return;
      }
      FlatNext(groups, pending);
      sent, groups := sent + [batch], groups + [pending];
      batch, batchCount, pending := "", 0, [];
    }

    /** The batch goes out only if it is full, by bytes with the new line or by lines without it. */
    method EmitLine(e: WireEvent)
      requires Valid()
      modifies this
      ensures Valid() && Emitted() == old(Emitted()) + [e]
      ensures var line := LineOf(e) + "\n";
              var full := |old(batch)| + |line| > maxDatagramBytes || old(batchCount) >= batchLines;
              && sent == old(sent) + (if full && old(batch) != "" then [old(batch)] else [])
              && batch == (if full then line else old(batch) + line)
              && batchCount == (if full then 1 else old(batchCount) + 1)
    {
      hide FieldsOf, Joined;
      var line := AppendFields(FieldsOf(e));
      if |batch| + |line| > maxDatagramBytes || batchCount >= batchLines {
        FlushBatch();
      }
      TextNext(pending, e);
      batch, batchCount, pending := batch + line, batchCount + 1, pending + [e];
    }

    /** Writes the fields one by one, a comma between them and a newline at the end. */
    method AppendFields(fields: seq<string>) returns (line: string)
      requires fields != []
      ensures line == Joined(fields) + "\n"
    {
      line := "";
      var i := 0;
      while i < |fields| - 1
        invariant 0 <= i < |fields|
        invariant Joined(fields) == line + Joined(fields[i..])
      {
        JoinedParts(fields[i..]);
        assert fields[i..][1..] == fields[i + 1..];
        line := line + fields[i] + ",";
        i := i + 1;
      }
      JoinedParts(fields[i..]);
      line := line + fields[i] + "\n";
    }
  }

  // ---- end to end ---------------------------------------------------------------------------

  /** What the receiver makes of the datagrams. */
  function Received(datagrams: seq<string>): seq<Option<WireEvent>> {
    if datagrams == [] then []
    else
      var lines := LinesFrom(datagrams[|datagrams| - 1], 0);
      Received(datagrams[..|datagrams| - 1]) + Answers(lines)
  }

  /** The parser's answers, line by line. */
  function Answers(lines: seq<string>): (r: seq<Option<WireEvent>>)
    ensures |r| == |lines|
  {
    seq(|lines|, i requires 0 <= i < |lines| => Parsed(lines[i]))
  }

  function Somes(events: seq<WireEvent>): (r: seq<Option<WireEvent>>)
    ensures |r| == |events|
  {
    seq(|events|, i requires 0 <= i < |events| => Some(events[i]))
  }

  lemma {:induction false} OneDatagram(events: seq<WireEvent>)
    requires AllPrintable(events)
    ensures var lines := LinesFrom(Text(events), 0);
            |lines| == |events| && forall i :: 0 <= i < |lines| ==> Parsed(lines[i]) == Some(events[i])
  {
    SplitText("", events);
    assert "" + Text(events) == Text(events);
    forall i | 0 <= i < |events| ensures Parsed(LineOf(events[i])) == Some(events[i]) {
      LineRoundTrip(events[i]);
    }
  }

  /** Print, batch, split and parse give the same events in the same order. */
  lemma {:induction false} EndToEnd(sent: seq<string>, groups: seq<seq<WireEvent>>)
    requires |groups| == |sent| && AllPrintable(Flat(groups))
    requires forall i :: 0 <= i < |sent| ==> sent[i] == Text(groups[i])
    ensures Received(sent) == Somes(Flat(groups))
  {
    hide Text, LinesFrom, Printable, Parsed;
    if sent != [] {
      var last := |sent| - 1;
      var before := Flat(groups[..last]);
      assert groups[..last] + [groups[last]] == groups;
      FlatNext(groups[..last], groups[last]);
      hide Flat;
      PrintableParts(before, groups[last]);
      EndToEnd(sent[..last], groups[..last]);
      OneDatagram(groups[last]);
      SomesConcat(before, groups[last]);
      assert Answers(LinesFrom(sent[last], 0)) == Somes(groups[last]);
    }
  }

  lemma PrintableParts(a: seq<WireEvent>, b: seq<WireEvent>)
    requires AllPrintable(a + b)
    ensures AllPrintable(a) && AllPrintable(b)
  {
    assert forall i :: 0 <= i < |a| ==> a[i] == (a + b)[i];
    assert forall i :: 0 <= i < |b| ==> b[i] == (a + b)[|a| + i];
  }

  lemma SomesConcat(a: seq<WireEvent>, b: seq<WireEvent>)
    ensures Somes(a + b) == Somes(a) + Somes(b)
  {
  }

  /** Emitting a list and flushing delivers exactly that list. */
  method Transmit(events: seq<WireEvent>, maxDatagramBytes: nat, batchLines: nat) returns (datagrams: seq<string>)
    requires AllPrintable(events)
    ensures Received(datagrams) == Somes(events)
  {
    hide Printable, Received, Text, Flat, LineOf, AllPrintable, Somes;
    var g := new Generator(maxDatagramBytes, batchLines);
    for i := 0 to |events|
      invariant g.Valid() && fresh(g) && g.Emitted() == events[..i]
    {
      PrefixNext(events, i);
      g.EmitLine(events[i]);
    }
    g.FlushBatch();
    AllSent(g, events);
    return g.sent;
  }

  lemma PrefixNext<T>(s: seq<T>, i: nat)
    requires i < |s|
    ensures s[..i + 1] == s[..i] + [s[i]]
  {
  }

  /** Nothing is pending after the last flush. */
  lemma AllSent(g: Generator, events: seq<WireEvent>)
    requires g.Valid() && g.Emitted() == events[..|events|] && g.pending == [] && AllPrintable(events)
    ensures Received(g.sent) == Somes(events)
  {
    hide Printable, Received, Text, AllPrintable, LineOf, Flat;
    assert events[..|events|] == events;
    assert Flat(g.groups) + [] == Flat(g.groups);
    EndToEnd(g.sent, g.groups);
  }
}
