/** The channel labels by which clients make panes and reconnect to them: the grammar of
    GetOrCreatePane (peers/peer.go), ParseWinsize (peers/cdc.go) and the first message of a
    pane (peers/pane.go). Strings are bytes; a text is given as they arrive. */
module Labels {
  import Decimal

  datatype Winsize = Winsize(rows: nat, cols: nat)

  datatype Size = NoSize | Sized(ws: Winsize)

  // ---- strings.Split and its inverse ----

  function Split(s: string, sep: char): (fields: seq<string>)
    ensures |fields| >= 1
  {
    if s == "" then [""]
    else
      var rest := Split(s[1..], sep);
      if s[0] == sep then [""] + rest else [[s[0]] + rest[0]] + rest[1..]
  }

  function Join(fields: seq<string>, sep: char): string
    requires |fields| >= 1
  {
    if |fields| == 1 then fields[0] else fields[0] + [sep] + Join(fields[1..], sep)
  }

  predicate Free(s: string, sep: char) {
    sep !in s
  }

  predicate AllFree(fields: seq<string>, sep: char) {
    forall i :: 0 <= i < |fields| ==> Free(fields[i], sep)
  }

  lemma {:induction false} JoinSplit(s: string, sep: char)
    ensures Join(Split(s, sep), sep) == s && AllFree(Split(s, sep), sep)
  {
    if s != "" {
      JoinSplit(s[1..], sep);
      var rest := Split(s[1..], sep);
      if s[0] == sep {
        assert ([""] + rest)[1..] == rest;
      } else {
        var fields := [[s[0]] + rest[0]] + rest[1..];
        assert fields[1..] == rest[1..];
        assert Join(fields, sep) == [s[0]] + Join(rest, sep);
      }
    }
  }

  lemma {:induction false} SplitFirst(field: string, rest: string, sep: char)
    requires Free(field, sep)
    ensures Split(field + [sep] + rest, sep) == [field] + Split(rest, sep)
  {
    var s := field + [sep] + rest;
    if field == "" {
      assert s[1..] == rest;
    } else {
      assert s[1..] == field[1..] + [sep] + rest;
      SplitFirst(field[1..], rest, sep);
      assert [field[0]] + field[1..] == field;
      assert ([field[1..]] + Split(rest, sep))[1..] == Split(rest, sep);
    }
  }

  lemma {:induction false} SplitFree(field: string, sep: char)
    requires Free(field, sep)
    ensures Split(field, sep) == [field]
  {
    if field != "" {
      SplitFree(field[1..], sep);
      assert [field[0]] + field[1..] == field;
    }
  }

  lemma {:induction false} SplitJoin(fields: seq<string>, sep: char)
    requires |fields| >= 1 && AllFree(fields, sep)
    ensures Split(Join(fields, sep), sep) == fields
  {
    if |fields| == 1 {
      SplitFree(fields[0], sep);
    } else {
      SplitJoin(fields[1..], sep);
      SplitFirst(fields[0], Join(fields[1..], sep), sep);
    }
  }

  // ---- ParseWinsize ----

  datatype Parsed<T> = Ok(value: T) | Bad

  datatype Scanned = Scanned(value: nat, rest: string) | NoNumber

  // Blanks that fmt.Sscanf skips before a number; a newline is an error.
  predicate Blank(c: char) {
    c == ' ' || c == '\t' || c == '\r' || c as int == 11 || c as int == 12
  }

  function SkipBlanks(s: string): (t: string)
    ensures |t| <= |s|
  {
    if s != "" && Blank(s[0]) then SkipBlanks(s[1..]) else s
  }

  // %d into a uint16.
  function ScanUint16(s: string): Scanned {
    var t := SkipBlanks(s);
    var n := Decimal.Span(t);
    if n == 0 || Decimal.Number(t[..n], 0) >= 0x1_0000 then NoNumber
    else Scanned(Decimal.Number(t[..n], 0), t[n..])
  }

  // "%dx%d"; what follows the second number is ignored.
  function ParseWinsize(s: string): (r: Parsed<Winsize>)
    ensures r.Ok? ==> r.value.rows < 0x1_0000 && r.value.cols < 0x1_0000
  {
    match ScanUint16(s)
    case NoNumber => Bad
    case Scanned(rows, rest) =>
      if rest == "" || rest[0] != 'x' then Bad
      else match ScanUint16(rest[1..])
        case NoNumber => Bad
        case Scanned(cols, _) => Ok(Winsize(rows, cols))
  }

  function PrintWinsize(ws: Winsize): string {
    Decimal.Print(ws.rows) + "x" + Decimal.Print(ws.cols)
  }

  lemma ScanPrinted(n: nat, rest: string)
    requires n < 0x1_0000 && (rest == "" || !Decimal.IsDigit(rest[0]))
    ensures ScanUint16(Decimal.Print(n) + rest) == Scanned(n, rest)
  {
    var digits := Decimal.Print(n);
    var s := digits + rest;
    assert s[0] == digits[0];
    Decimal.SpanOf(digits, rest);
    Decimal.PrintNumber(n);
    assert s[..|digits|] == digits && s[|digits|..] == rest;
  }

  // ---- Which sizes are accepted ----

  predicate AllBlank(s: string) {
    forall i :: 0 <= i < |s| ==> Blank(s[i])
  }

  lemma {:induction false} SkipsBlanks(s: string)
    ensures var t := SkipBlanks(s);
      && |t| <= |s| && AllBlank(s[..|s| - |t|]) && s == s[..|s| - |t|] + t
      && (t != "" ==> !Blank(t[0]))
  {
    if s != "" && Blank(s[0]) {
      SkipsBlanks(s[1..]);
    }
  }

  lemma {:induction false} SkipsTo(blanks: string, t: string)
    requires AllBlank(blanks) && (t != "" ==> !Blank(t[0]))
    ensures SkipBlanks(blanks + t) == t
  {
    if blanks == "" {
      assert blanks + t == t;
    } else {
      SkipsTo(blanks[1..], t);
      assert (blanks + t)[1..] == blanks[1..] + t;
    }
  }

  // Blanks, zeros and a printed 16-bit number, and then no digit.
  ghost predicate ShortNumeral(s: string, n: nat, rest: string) {
    && n < 0x1_0000 && (rest == "" || !Decimal.IsDigit(rest[0]))
    && exists blanks: string, k: nat :: AllBlank(blanks) && s == blanks + ((Decimal.Zeros(k) + Decimal.Print(n)) + rest)
  }

  lemma ScanReads(s: string, n: nat, rest: string)
    requires ScanUint16(s) == Scanned(n, rest)
    ensures ShortNumeral(s, n, rest)
  {
    var t := SkipBlanks(s);
    SkipsBlanks(s);
    var digits := t[..Decimal.Span(t)];
    var k := Decimal.NumeralIs(digits);
    assert s == s[..|s| - |t|] + (digits + rest);
  }

  lemma ScanIff(s: string, n: nat, rest: string)
    ensures ScanUint16(s) == Scanned(n, rest) <==> ShortNumeral(s, n, rest)
  {
    if ScanUint16(s) == Scanned(n, rest) { ScanReads(s, n, rest); }
    if ShortNumeral(s, n, rest) {
      var blanks: string, k: nat :| AllBlank(blanks) && s == blanks + ((Decimal.Zeros(k) + Decimal.Print(n)) + rest);
      var digits := Decimal.Zeros(k) + Decimal.Print(n);
      Decimal.ZerosNumber(k, n);
      assert (digits + rest)[0] == digits[0];
      SkipsTo(blanks, digits + rest);
      Decimal.SpanOf(digits, rest);
      assert (digits + rest)[..|digits|] == digits && (digits + rest)[|digits|..] == rest;
    }
  }

  // A size is two such numerals around an `x`, and whatever follows the second.
  lemma WinsizeIff(s: string, ws: Winsize)
    ensures ParseWinsize(s) == Ok(ws) <==>
      exists rest: string, tail: string :: ShortNumeral(s, ws.rows, "x" + rest) && ShortNumeral(rest, ws.cols, tail)
  {
    if ParseWinsize(s) == Ok(ws) {
      var cols := ScanUint16(s).rest;
      var rest, tail := cols[1..], ScanUint16(cols[1..]).rest;
      assert cols == "x" + rest;
      ScanReads(s, ws.rows, cols);
      ScanReads(rest, ws.cols, tail);
    }
    if rest: string, tail: string :| ShortNumeral(s, ws.rows, "x" + rest) && ShortNumeral(rest, ws.cols, tail) {
      ScanIff(s, ws.rows, "x" + rest);
      ScanIff(rest, ws.cols, tail);
      ParseTwo(s, ws, rest, tail);
    }
  }

  // Whatever follows, as long as it does not go on with a digit, the size comes back.
  lemma WinsizeRoundTrip(ws: Winsize, tail: string)
    requires ws.rows < 0x1_0000 && ws.cols < 0x1_0000 && (tail == "" || !Decimal.IsDigit(tail[0]))
    ensures ParseWinsize(PrintWinsize(ws) + tail) == Ok(ws)
  {
    var cols := Decimal.Print(ws.cols) + tail;
    var s := PrintWinsize(ws) + tail;
    assert s == Decimal.Print(ws.rows) + (['x'] + cols);
    ScanPrinted(ws.rows, ['x'] + cols);
    ScanPrinted(ws.cols, tail);
    ParseTwo(s, ws, cols, tail);
  }

  lemma ParseTwo(s: string, ws: Winsize, cols: string, tail: string)
    requires ScanUint16(s) == Scanned(ws.rows, ['x'] + cols) && ScanUint16(cols) == Scanned(ws.cols, tail)
    ensures ParseWinsize(s) == Ok(ws)
  {
    assert (['x'] + cols)[1..] == cols;
  }

  // ---- The label grammar ----

  // strconv.Atoi on 64 bits: an optional sign, then digits only, in range.
  function Atoi(s: string): Parsed<int> {
    var body := if s != "" && (s[0] == '-' || s[0] == '+') then s[1..] else s;
    if body == "" || !Decimal.AllDigits(body) then Bad
    else
      var size: int := Decimal.Number(body, 0);
      var n := if s[0] == '-' then -size else size;
      if -0x8000_0000_0000_0000 <= n < 0x8000_0000_0000_0000 then Ok(n) else Bad
  }

  // Panics: the code indexes the first byte of an empty label.
  datatype Request =
    | Panics
    | Control
    | Refused
    | Reconnect(id: int)
    | Create(size: Size, command: seq<string>)

  // From field cmdIndex on: too short, a reconnect or a command.
  function Command(fields: seq<string>, size: Size): Request
    requires |fields| >= 1
  {
    if |fields[0]| < 2 then Refused
    else if fields[0][0] == '>' then
      match Atoi(fields[0][1..])
      case Ok(id) => Reconnect(id)
      case Bad => Refused
    else Create(size, fields)
  }

  function Classify(text: string): Request {
    if text == "" then Panics
    else
      var fields := Split(text, ',');
      if text[0] == '%' then Control
      else if Decimal.IsDigit(text[0]) then
        if |fields| < 2 then Refused
        else match ParseWinsize(fields[0])
          case Bad => Refused
          case Ok(ws) => Command(fields[1..], Sized(ws))
      else Command(fields, NoSize)
  }

  // The first message on a pane's channel.
  function FirstMessage(id: nat, size: Size): string {
    match size
    case NoSize => Decimal.Print(id)
    case Sized(ws) => Decimal.Print(id) + "," + PrintWinsize(ws)
  }

  lemma AtoiPrinted(n: nat)
    requires n < 0x8000_0000_0000_0000
    ensures Atoi(Decimal.Print(n)) == Ok(n)
  {
    Decimal.PrintNumber(n);
    assert Decimal.IsDigit(Decimal.Print(n)[0]);
  }

  predicate SignOf(sign: string, n: int) {
    (sign == "-" && n <= 0) || ((sign == "" || sign == "+") && n >= 0)
  }

  function Magnitude(n: int): nat {
    if n < 0 then -n else n
  }

  // The 64-bit numerals: an optional sign, zeros, and the printed number.
  ghost predicate Numeral(s: string, n: int) {
    && -0x8000_0000_0000_0000 <= n < 0x8000_0000_0000_0000
    && exists sign: string, k: nat :: SignOf(sign, n) && s == sign + (Decimal.Zeros(k) + Decimal.Print(Magnitude(n)))
  }

  lemma AtoiIff(s: string, n: int)
    ensures Atoi(s) == Ok(n) <==> Numeral(s, n)
  {
    if Atoi(s) == Ok(n) { AtoiReads(s, n); }
    if Numeral(s, n) { AtoiIsRead(s, n); }
  }

  lemma AtoiIsRead(s: string, n: int)
    requires Numeral(s, n)
    ensures Atoi(s) == Ok(n)
  {
    var sign: string, k: nat :| SignOf(sign, n) && s == sign + (Decimal.Zeros(k) + Decimal.Print(Magnitude(n)));
    Decimal.ZerosNumber(k, Magnitude(n));
    AtoiDigits(sign, Decimal.Zeros(k) + Decimal.Print(Magnitude(n)), n);
  }

  lemma AtoiDigits(sign: string, digits: string, n: int)
    requires digits != "" && Decimal.AllDigits(digits) && Decimal.Number(digits, 0) == Magnitude(n)
    requires SignOf(sign, n) && -0x8000_0000_0000_0000 <= n < 0x8000_0000_0000_0000
    ensures Atoi(sign + digits) == Ok(n)
  {
    if sign == "" {
      assert sign + digits == digits && Decimal.IsDigit(digits[0]);
    } else {
      assert (sign + digits)[1..] == digits;
    }
  }

  lemma AtoiReads(s: string, n: int)
    requires Atoi(s) == Ok(n)
    ensures Numeral(s, n)
  {
    var sign, body := if s[0] == '-' || s[0] == '+' then s[..1] else "", if s[0] == '-' || s[0] == '+' then s[1..] else s;
    var k := Decimal.NumeralIs(body);
    assert s == sign + body && SignOf(sign, n);
  }

  // A `>` with a numeral, at the start of the label or behind a size and a comma, and
  // either the end or a comma after it.
  ghost predicate Parts(text: string, prefix: string, head: string, tail: string, id: int) {
    && text == prefix + (">" + head + tail)
    && Numeral(head, id) && (tail == "" || tail[0] == ',')
    && (prefix == "" || SizePrefix(prefix))
  }

  ghost predicate AsksFor(text: string, id: int) {
    exists prefix: string, head: string, tail: string :: Parts(text, prefix, head, tail, id)
  }

  predicate SizePrefix(prefix: string) {
    && prefix != "" && prefix[|prefix| - 1] == ',' && Free(prefix[..|prefix| - 1], ',')
    && Decimal.IsDigit(prefix[0]) && ParseWinsize(prefix[..|prefix| - 1]).Ok?
  }

  lemma NumeralIsFree(s: string, n: int)
    requires Numeral(s, n)
    ensures s != "" && Free(s, ',')
  {
    var sign: string, k: nat :| SignOf(sign, n) && s == sign + (Decimal.Zeros(k) + Decimal.Print(Magnitude(n)));
    Decimal.ZerosNumber(k, Magnitude(n));
  }

  // The first field of a text, and what follows it.
  lemma FirstField(field: string, tail: string)
    requires Free(field, ',') && (tail == "" || tail[0] == ',')
    ensures Split(field + tail, ',')[0] == field
  {
    if tail == "" {
      assert field + tail == field;
      SplitFree(field, ',');
    } else {
      assert field + tail == field + [','] + tail[1..];
      SplitFirst(field, tail[1..], ',');
    }
  }

  lemma CommandReads(fields: seq<string>, size: Size, head: string, id: int)
    requires |fields| >= 1 && fields[0] == ">" + head && Numeral(head, id)
    ensures Command(fields, size) == Reconnect(id)
  {
    NumeralIsFree(head, id);
    AtoiIff(head, id);
    assert fields[0][1..] == head;
  }

  lemma PartsRead(text: string, prefix: string, head: string, tail: string, id: int)
    requires Parts(text, prefix, head, tail, id)
    ensures Classify(text) == Reconnect(id)
  {
    NumeralIsFree(head, id);
    var field := ">" + head;
    var fields := Split(field + tail, ',');
    FirstField(field, tail);
    if prefix == "" {
      assert text == field + tail;
      CommandReads(fields, NoSize, head, id);
    } else {
      var size := prefix[..|prefix| - 1];
      assert text == size + [','] + (field + tail);
      SplitFirst(size, field + tail, ',');
      assert Split(text, ',')[1..] == fields && text[0] == prefix[0];
      CommandReads(fields, Sized(ParseWinsize(size).value), head, id);
    }
  }

  lemma JoinHead(fields: seq<string>) returns (tail: string)
    requires |fields| >= 1
    ensures Join(fields, ',') == fields[0] + tail && (tail == "" || tail[0] == ',')
  {
    if |fields| == 1 {
      tail := "";
      assert fields[0] + "" == fields[0];
    } else {
      tail := [','] + Join(fields[1..], ',');
      assert fields[0] + [','] + Join(fields[1..], ',') == fields[0] + tail;
    }
  }

  lemma CommandAsks(fields: seq<string>, id: int) returns (head: string, tail: string)
    requires |fields| >= 1 && |fields[0]| >= 2 && fields[0][0] == '>' && Atoi(fields[0][1..]) == Ok(id)
    ensures Join(fields, ',') == ">" + head + tail && Numeral(head, id) && (tail == "" || tail[0] == ',')
  {
    head := fields[0][1..];
    assert fields[0] == ">" + head;
    tail := JoinHead(fields);
    AtoiIff(head, id);
  }

  lemma ReconnectAsks(text: string, id: int)
    requires Classify(text) == Reconnect(id)
    ensures AsksFor(text, id)
  {
    var fields := Split(text, ',');
    JoinSplit(text, ',');
    if Decimal.IsDigit(text[0]) {
      var prefix := fields[0] + ",";
      var head, tail := CommandAsks(fields[1..], id);
      assert prefix[..|prefix| - 1] == fields[0];
      assert text == prefix + (">" + head + tail);
      assert fields[0] != "";
      assert Parts(text, prefix, head, tail, id);
    } else {
      var head, tail := CommandAsks(fields, id);
      assert text == "" + (">" + head + tail);
      assert Parts(text, "", head, tail, id);
    }
  }

  // Those labels reconnect, to that id, and no others do.
  lemma ReconnectIff(text: string, id: int)
    ensures Classify(text) == Reconnect(id) <==> AsksFor(text, id)
  {
    if Classify(text) == Reconnect(id) { ReconnectAsks(text, id); }
    if prefix: string, head: string, tail: string :| Parts(text, prefix, head, tail, id) {
      PartsRead(text, prefix, head, tail, id);
    }
  }

  // The first message tells the id and, if the pane has one, the size.
  lemma FirstMessageTells(id: nat, size: Size)
    requires size.Sized? ==> size.ws.rows < 0x1_0000 && size.ws.cols < 0x1_0000
    requires id < 0x8000_0000_0000_0000
    ensures var fields := Split(FirstMessage(id, size), ',');
      && Atoi(fields[0]) == Ok(id)
      && (size.NoSize? ==> |fields| == 1)
      && (size.Sized? ==> |fields| == 2 && ParseWinsize(fields[1]) == Ok(size.ws))
  {
    AtoiPrinted(id);
    match size
    case NoSize => SplitFree(Decimal.Print(id), ',');
    case Sized(ws) =>
      SizeIsFree(ws);
      WinsizeRoundTrip(ws, "");
      assert PrintWinsize(ws) + "" == PrintWinsize(ws);
      assert FirstMessage(id, size) == Decimal.Print(id) + [','] + PrintWinsize(ws);
      SplitFirst(Decimal.Print(id), PrintWinsize(ws), ',');
      SplitFree(PrintWinsize(ws), ',');
  }

  // The control channel is asked for by a leading `%` and by nothing else.
  lemma ControlIff(text: string)
    ensures Classify(text) == Control <==> text != "" && text[0] == '%'
  {}

  // A client that puts `>` before the first message it got reconnects to that very pane.
  lemma ReconnectRoundTrip(id: nat, size: Size)
    requires id < 0x8000_0000_0000_0000
    ensures Classify(">" + FirstMessage(id, size)) == Reconnect(id)
  {
    var head := ">" + Decimal.Print(id);
    AtoiPrinted(id);
    assert head[1..] == Decimal.Print(id);
    assert Free(head, ',');
    match size
    case NoSize => SplitFree(head, ',');
    case Sized(ws) =>
      assert ">" + FirstMessage(id, size) == head + [','] + PrintWinsize(ws);
      SplitFirst(head, PrintWinsize(ws), ',');
  }

  // A reconnect may carry a size, which is read and then ignored.
  lemma SizedReconnect(ws: Winsize, id: nat)
    requires ws.rows < 0x1_0000 && ws.cols < 0x1_0000 && id < 0x8000_0000_0000_0000
    ensures Classify(PrintWinsize(ws) + ",>" + Decimal.Print(id)) == Reconnect(id)
  {
    var size, head := PrintWinsize(ws), ">" + Decimal.Print(id);
    SizeIsFree(ws);
    assert size + ",>" + Decimal.Print(id) == size + [','] + head;
    SplitFirst(size, head, ',');
    SplitFree(head, ',');
    assert ([size] + [head])[1..] == [head] && head[1..] == Decimal.Print(id);
    WinsizeRoundTrip(ws, "");
    assert size + "" == size;
    AtoiPrinted(id);
  }

  // A command joined behind a size is read back as that command at that size, exactly
  // unless its first word is short or a reconnect.
  lemma CommandRoundTrip(ws: Winsize, command: seq<string>)
    requires ws.rows < 0x1_0000 && ws.cols < 0x1_0000 && |command| >= 1 && AllFree(command, ',')
    ensures Classify(PrintWinsize(ws) + "," + Join(command, ',')) == Create(Sized(ws), command) <==>
      |command[0]| >= 2 && command[0][0] != '>'
  {
    var size, text := PrintWinsize(ws), PrintWinsize(ws) + "," + Join(command, ',');
    SizeIsFree(ws);
    assert text == size + [','] + Join(command, ',');
    SplitFirst(size, Join(command, ','), ',');
    SplitJoin(command, ',');
    assert Split(text, ',')[1..] == command;
    WinsizeRoundTrip(ws, "");
    assert size + "" == size;
  }

  lemma SizeIsFree(ws: Winsize)
    ensures Free(PrintWinsize(ws), ',') && Decimal.IsDigit(PrintWinsize(ws)[0])
  {
    var rows, cols := Decimal.Print(ws.rows), Decimal.Print(ws.cols);
    forall i | 0 <= i < |PrintWinsize(ws)| ensures PrintWinsize(ws)[i] != ',' {
      if i > |rows| { assert PrintWinsize(ws)[i] == cols[i - |rows| - 1]; }
    }
  }

  // Without a size the label is the joined command alone.
  lemma BareCommandRoundTrip(command: seq<string>)
    requires |command| >= 1 && AllFree(command, ',') && command[0] != ""
    ensures Classify(Join(command, ',')) == Create(NoSize, command) <==>
      |command[0]| >= 2 && command[0][0] != '>' && command[0][0] != '%' && !Decimal.IsDigit(command[0][0])
  {
    CreateIff(Join(command, ','), NoSize, command);
    assert Join(command, ',')[0] == command[0][0];
  }

  // Every command a label starts is comma-free, and with its size, when it has none, it
  // is the whole label.
  lemma CreatedCommand(text: string)
    requires Classify(text).Create?
    ensures var r := Classify(text);
      && |r.command| >= 1 && AllFree(r.command, ',')
      && (r.size == NoSize ==> text == Join(r.command, ','))
      && (r.size.Sized? ==> exists prefix :: Free(prefix, ',') && ParseWinsize(prefix) == Ok(r.size.ws)
                              && text == prefix + "," + Join(r.command, ','))
  {
    var fields := Split(text, ',');
    JoinSplit(text, ',');
    if Decimal.IsDigit(text[0]) {
      assert text == fields[0] + "," + Join(fields[1..], ',');
    }
  }

  // A label that starts exactly this command at this size: the joined command, bare or
  // behind a size that parses, unless a guard of the parser catches its first word.
  ghost predicate Starts(text: string, size: Size, command: seq<string>) {
    && |command| >= 1 && AllFree(command, ',') && |command[0]| >= 2 && command[0][0] != '>'
    && match size
       case NoSize => text == Join(command, ',') && text != "" && text[0] != '%' && !Decimal.IsDigit(text[0])
       case Sized(ws) => exists prefix: string :: Sizes(text, prefix, ws, command)
  }

  predicate Sizes(text: string, prefix: string, ws: Winsize, command: seq<string>)
    requires |command| >= 1
  {
    && text == prefix + [','] + Join(command, ',') && prefix != "" && Decimal.IsDigit(prefix[0])
    && Free(prefix, ',') && ParseWinsize(prefix) == Ok(ws)
  }

  lemma CreateIff(text: string, size: Size, command: seq<string>)
    ensures Classify(text) == Create(size, command) <==> Starts(text, size, command)
  {
    if Classify(text) == Create(size, command) { CreateStarts(text, size, command); }
    if Starts(text, size, command) {
      SplitJoin(command, ',');
      if size.Sized? {
        var prefix: string :| Sizes(text, prefix, size.ws, command);
        SplitFirst(prefix, Join(command, ','), ',');
        assert ([prefix] + command)[1..] == command && text[0] == prefix[0];
      }
    }
  }

  lemma CreateStarts(text: string, size: Size, command: seq<string>)
    requires Classify(text) == Create(size, command)
    ensures Starts(text, size, command)
  {
    var fields := Split(text, ',');
    JoinSplit(text, ',');
    if Decimal.IsDigit(text[0]) {
      assert text == fields[0] + [','] + Join(fields[1..], ',');
      assert Sizes(text, fields[0], size.ws, command);
    }
  }
}
