/** The screen dump of peers/pane.go against a small terminal: printable characters, CR, LF
    and the control sequences SGR (section 8.3.117 of ECMA-48) and CUP (section 8.3.21). */
module ScreenDump {
  import Decimal

  const ESC: char := 27 as char

  // Raw colours of the emulator; the two defaults lie outside the 24-bit range.
  type Color = c: int | 0 <= c < 0x1_0000_0000

  const TRUE_COLORS := 0x100_0000

  datatype Defaults = Defaults(fg: Color, bg: Color)

  datatype Glyph = Glyph(ch: char, fg: Color, bg: Color)

  // rows x cols cells and the cursor of the emulator.
  datatype Screen = Screen(cells: seq<seq<Glyph>>, cols: nat, x: nat, y: nat)

  predicate Rectangular(s: Screen) {
    forall r :: 0 <= r < |s.cells| ==> |s.cells[r]| == s.cols
  }

  predicate Printable(c: char) {
    c >= ' ' && c as int != 127
  }

  predicate AllPrintable(s: Screen) {
    forall r, c :: 0 <= r < |s.cells| && 0 <= c < |s.cells[r]| ==> Printable(s.cells[r][c].ch)
  }

  // ---- The encoder ----

  function Channel(c: Color, unit: nat): (v: nat)
    requires unit > 0
    ensures v < 256
  {
    (c / unit) % 256
  }

  function Rgb(c: Color): string {
    Decimal.Print(Channel(c, 0x1_0000)) + ";" + Decimal.Print(Channel(c, 0x100)) + ";" + Decimal.Print(Channel(c, 1))
  }

  function PrintColorChange(d: Defaults, fg: Color, bg: Color): string {
    (if fg == d.fg then [ESC] + "[39m" else [ESC] + "[38;2;" + Rgb(fg) + "m") +
    (if bg == d.bg then [ESC] + "[49m" else [ESC] + "[48;2;" + Rgb(bg) + "m")
  }

  function MoveCursor(s: Screen): string {
    [ESC] + "[" + Decimal.Print(s.y + 1) + ";" + Decimal.Print(s.x + 1) + "H"
  }

  // What precedes a cell when the colours last printed are fg and bg.
  function Change(d: Defaults, g: Glyph, fg: Color, bg: Color): string {
    if g.fg != fg || g.bg != bg then PrintColorChange(d, g.fg, g.bg) else ""
  }

  // The dump from cell (x, y) on, when the colours last printed are fg and bg.
  function DumpFrom(d: Defaults, s: Screen, x: nat, y: nat, fg: Color, bg: Color): string
    requires Rectangular(s) && x <= s.cols && y <= |s.cells|
    decreases |s.cells| - y, s.cols - x
  {
    if y == |s.cells| then MoveCursor(s)
    else if x == s.cols then (if y + 1 < |s.cells| then "\r\n" else "") + DumpFrom(d, s, 0, y + 1, fg, bg)
    else
      var g := s.cells[y][x];
      Change(d, g, fg, bg) + [g.ch] + DumpFrom(d, s, x + 1, y, g.fg, g.bg)
  }

  function Dump(d: Defaults, s: Screen): string
    requires Rectangular(s)
  {
    DumpFrom(d, s, 0, 0, 0, 0)
  }

  // dumpVT as it runs: two loops and the colours printed last, which start out as 0.
  method DumpVT(d: Defaults, s: Screen) returns (result: string)
    requires Rectangular(s)
    ensures result == Dump(d, s)
  {
    result := "";
    var prevFG: Color, prevBG: Color := 0, 0;
    var y := 0;
    while y < |s.cells|
      invariant 0 <= y <= |s.cells|
      invariant result + DumpFrom(d, s, 0, y, prevFG, prevBG) == Dump(d, s)
    {
      var x := 0;
      while x < s.cols
        invariant 0 <= x <= s.cols
        invariant result + DumpFrom(d, s, x, y, prevFG, prevBG) == Dump(d, s)
      {
        var g := s.cells[y][x];
        CellText(d, s, x, y, prevFG, prevBG, result);
        if g.fg != prevFG || g.bg != prevBG {
          result := result + PrintColorChange(d, g.fg, g.bg);
          prevFG := g.fg;
          prevBG := g.bg;
        }
        result := result + [g.ch];
        x := x + 1;
      }
      LineEndText(d, s, y, prevFG, prevBG, result);
      if y < |s.cells| - 1 {
        result := result + "\r\n";
      }
      y := y + 1;
    }
    result := result + MoveCursor(s);
  }

  lemma Assoc(a: string, b: string, c: string)
    ensures a + b + c == a + (b + c)
  {}

  lemma CellText(d: Defaults, s: Screen, x: nat, y: nat, fg: Color, bg: Color, done: string)
    requires Rectangular(s) && x < s.cols && y < |s.cells|
    ensures var g := s.cells[y][x];
      (if g.fg != fg || g.bg != bg then done + PrintColorChange(d, g.fg, g.bg) else done) + [g.ch]
      + DumpFrom(d, s, x + 1, y, g.fg, g.bg) == done + DumpFrom(d, s, x, y, fg, bg)
  {
    var g := s.cells[y][x];
    var change, rest := Change(d, g, fg, bg), DumpFrom(d, s, x + 1, y, g.fg, g.bg);
    Assoc(done, change + [g.ch], rest);
    Assoc(done, change, [g.ch]);
    assert done + "" == done;
  }

  lemma LineEndText(d: Defaults, s: Screen, y: nat, fg: Color, bg: Color, done: string)
    requires Rectangular(s) && y < |s.cells|
    ensures (if y < |s.cells| - 1 then done + "\r\n" else done) + DumpFrom(d, s, 0, y + 1, fg, bg)
      == done + DumpFrom(d, s, s.cols, y, fg, bg)
  {
    var rest := DumpFrom(d, s, 0, y + 1, fg, bg);
    Assoc(done, "\r\n", rest);
    assert "" + rest == rest;
  }

  // ---- The terminal ----

  datatype Shade = Default | True(r: nat, g: nat, b: nat)

  datatype Cell = Cell(ch: char, fg: Shade, bg: Shade)

  // x may equal cols: the line is full and the next character wraps.
  datatype Term = Term(cells: seq<seq<Cell>>, cols: nat, x: nat, y: nat, fg: Shade, bg: Shade)

  predicate WellFormed(t: Term) {
    && |t.cells| >= 1 && t.cols >= 1
    && (forall r :: 0 <= r < |t.cells| ==> |t.cells[r]| == t.cols)
    && t.x <= t.cols && t.y < |t.cells|
  }

  function BlankLine(t: Term): seq<Cell> {
    seq(t.cols, _ => Cell(' ', t.fg, t.bg))
  }

  function LineFeed(t: Term): (u: Term)
    requires WellFormed(t)
    ensures WellFormed(u) && u.cols == t.cols && |u.cells| == |t.cells|
  {
    if t.y + 1 < |t.cells| then t.(y := t.y + 1)
    else t.(cells := t.cells[1..] + [BlankLine(t)])
  }

  function Put(t: Term, c: char): (u: Term)
    requires WellFormed(t)
    ensures WellFormed(u) && u.cols == t.cols && |u.cells| == |t.cells|
  {
    var w := if t.x < t.cols then t else LineFeed(t.(x := 0));
    w.(cells := w.cells[w.y := w.cells[w.y][w.x := Cell(c, w.fg, w.bg)]], x := w.x + 1)
  }

  // SGR: 39 and 49 restore the defaults, 38;2 and 48;2 take three colour values, 0 resets;
  // other parameters are ignored.
  function Sgr(t: Term, ps: seq<nat>): (u: Term)
    requires WellFormed(t)
    ensures WellFormed(u) && u == t.(fg := u.fg, bg := u.bg)
    decreases |ps|
  {
    if ps == [] then t
    else if |ps| >= 5 && ps[0] == 38 && ps[1] == 2 then Sgr(t.(fg := True(ps[2], ps[3], ps[4])), ps[5..])
    else if |ps| >= 5 && ps[0] == 48 && ps[1] == 2 then Sgr(t.(bg := True(ps[2], ps[3], ps[4])), ps[5..])
    else if ps[0] == 39 then Sgr(t.(fg := Default), ps[1..])
    else if ps[0] == 49 then Sgr(t.(bg := Default), ps[1..])
    else if ps[0] == 0 then Sgr(t.(fg := Default, bg := Default), ps[1..])
    else Sgr(t, ps[1..])
  }

  function AtLeastOne(n: nat): nat {
    if n == 0 then 1 else n
  }

  function Min(a: nat, b: nat): nat {
    if a < b then a else b
  }

  // CUP: row and column count from 1, default to 1 and stop at the edge.
  function Cup(t: Term, ps: seq<nat>): (u: Term)
    requires WellFormed(t)
    ensures WellFormed(u) && u == t.(x := u.x, y := u.y)
  {
    var row := AtLeastOne(if |ps| >= 1 then ps[0] else 1);
    var col := AtLeastOne(if |ps| >= 2 then ps[1] else 1);
    t.(y := Min(row, |t.cells|) - 1, x := Min(col, t.cols) - 1)
  }

  // Text outside control sequences.
  function Show(t: Term, s: string): (u: Term)
    requires WellFormed(t)
    ensures WellFormed(u)
    decreases |s|
  {
    if s == "" then t
    else if |s| >= 2 && s[0] == ESC && s[1] == '[' then Control(t, s[2..], [], 0)
    else if s[0] == '\r' then Show(t.(x := 0), s[1..])
    else if s[0] == '\n' then Show(LineFeed(t), s[1..])
    else if Printable(s[0]) then Show(Put(t, s[0]), s[1..])
    else Show(t, s[1..])
  }

  // Inside a control sequence: finished parameters, and the one being read.
  function Control(t: Term, s: string, ps: seq<nat>, p: nat): (u: Term)
    requires WellFormed(t)
    ensures WellFormed(u)
    decreases |s|
  {
    if s == "" then t
    else if Decimal.IsDigit(s[0]) then Control(t, s[1..], ps, p * 10 + Decimal.Value(s[0]))
    else if s[0] == ';' then Control(t, s[1..], ps + [p], 0)
    else if s[0] == 'm' then Show(Sgr(t, ps + [p]), s[1..])
    else if s[0] == 'H' then Show(Cup(t, ps + [p]), s[1..])
    else Show(t, s[1..])
  }

  // ---- What a cell of the emulator shows as ----

  function Shown(c: Color, default: Color): Shade {
    if c == default then Default else True(Channel(c, 0x1_0000), Channel(c, 0x100), Channel(c, 1))
  }

  function ShownCell(d: Defaults, g: Glyph): Cell {
    Cell(g.ch, Shown(g.fg, d.fg), Shown(g.bg, d.bg))
  }

  // Colours the dump can tell apart.
  predicate Faithful(c: Color, default: Color) {
    c == default || c < TRUE_COLORS
  }

  function ColorOf(s: Shade, default: Color): int {
    match s
    case Default => default
    case True(r, g, b) => r * 0x1_0000 + g * 0x100 + b
  }

  // Exactly the faithful colours can be read back from what is shown.
  lemma ShownColorIff(c: Color, default: Color)
    ensures ColorOf(Shown(c, default), default) == c <==> Faithful(c, default)
  {
    assert c / 0x100 == (c / 0x1_0000) * 0x100 + Channel(c, 0x100);
    assert c == (c / 0x100) * 0x100 + Channel(c, 1);
  }

  // ---- Reading the control sequences back ----

  lemma {:induction false} ControlDigits(t: Term, digits: string, rest: string, ps: seq<nat>, p: nat)
    requires WellFormed(t) && Decimal.AllDigits(digits)
    ensures Control(t, digits + rest, ps, p) == Control(t, rest, ps, Decimal.Number(digits, p))
    decreases |digits|
  {
    if digits == "" {
      assert digits + rest == rest;
    } else {
      assert (digits + rest)[1..] == digits[1..] + rest;
      ControlDigits(t, digits[1..], rest, ps, p * 10 + Decimal.Value(digits[0]));
    }
  }

  lemma ControlNumber(t: Term, n: nat, rest: string, ps: seq<nat>)
    requires WellFormed(t)
    ensures Control(t, Decimal.Print(n) + rest, ps, 0) == Control(t, rest, ps, n)
  {
    ControlDigits(t, Decimal.Print(n), rest, ps, 0);
    Decimal.PrintNumber(n);
  }

  // A parameter and its separator.
  lemma ControlParameter(t: Term, n: nat, rest: string, ps: seq<nat>)
    requires WellFormed(t)
    ensures Control(t, Decimal.Print(n) + ([';'] + rest), ps, 0) == Control(t, rest, ps + [n], 0)
  {
    ControlNumber(t, n, [';'] + rest, ps);
    assert ([';'] + rest)[1..] == rest;
  }

  // The last parameter and the final byte.
  lemma ControlEnd(t: Term, n: nat, final: char, rest: string, ps: seq<nat>)
    requires WellFormed(t) && (final == 'm' || final == 'H')
    ensures Control(t, Decimal.Print(n) + ([final] + rest), ps, 0)
      == Show(if final == 'm' then Sgr(t, ps + [n]) else Cup(t, ps + [n]), rest)
  {
    ControlNumber(t, n, [final] + rest, ps);
    assert ([final] + rest)[1..] == rest;
  }

  lemma ShowEscape(t: Term, body: string)
    requires WellFormed(t)
    ensures Show(t, [ESC] + "[" + body) == Control(t, body, [], 0)
  {
    var s := [ESC] + "[" + body;
    assert s[0] == ESC && s[1] == '[' && s[2..] == body;
  }

  lemma Numerals()
    ensures Decimal.Print(39) == "39" && Decimal.Print(49) == "49"
    ensures Decimal.Print(38) == "38" && Decimal.Print(48) == "48" && Decimal.Print(2) == "2"
  {
    assert Decimal.Print(3) == "3" && Decimal.Print(4) == "4";
  }

  // `38;2;r;g;b` or `48;2;r;g;b`, then `m`.
  lemma ControlRgb(t: Term, target: nat, c: Color, rest: string)
    requires WellFormed(t) && (target == 38 || target == 48)
    ensures Control(t, Decimal.Print(target) + ";2;" + Rgb(c) + "m" + rest, [], 0)
      == Show(Sgr(t, [target, 2, Channel(c, 0x1_0000), Channel(c, 0x100), Channel(c, 1)]), rest)
  {
    var r, g, b := Channel(c, 0x1_0000), Channel(c, 0x100), Channel(c, 1);
    var s4 := Decimal.Print(b) + (['m'] + rest);
    var s3 := Decimal.Print(g) + ([';'] + s4);
    var s2 := Decimal.Print(r) + ([';'] + s3);
    RgbText(target, c, rest);
    ControlTwo(t, target, 2, s2, []);
    ControlTwo(t, r, g, s4, [] + [target] + [2]);
    ControlEnd(t, b, 'm', rest, [] + [target] + [2] + [r] + [g]);
    assert [] + [target] + [2] + [r] + [g] + [b] == [target, 2, r, g, b];
  }

  lemma ControlTwo(t: Term, m: nat, n: nat, rest: string, ps: seq<nat>)
    requires WellFormed(t)
    ensures Control(t, Decimal.Print(m) + ([';'] + (Decimal.Print(n) + ([';'] + rest))), ps, 0)
      == Control(t, rest, ps + [m] + [n], 0)
  {
    ControlParameter(t, m, Decimal.Print(n) + ([';'] + rest), ps);
    ControlParameter(t, n, rest, ps + [m]);
  }

  // The text of a true colour, grouped parameter by parameter.
  lemma RgbText(target: nat, c: Color, rest: string)
    ensures var s4 := Decimal.Print(Channel(c, 1)) + (['m'] + rest);
      var s3 := Decimal.Print(Channel(c, 0x100)) + ([';'] + s4);
      var s2 := Decimal.Print(Channel(c, 0x1_0000)) + ([';'] + s3);
      Decimal.Print(target) + ";2;" + Rgb(c) + "m" + rest
      == Decimal.Print(target) + ([';'] + (Decimal.Print(2) + ([';'] + s2)))
  {
    Numerals();
    Nest(Decimal.Print(target), Decimal.Print(Channel(c, 0x1_0000)), Decimal.Print(Channel(c, 0x100)),
      Decimal.Print(Channel(c, 1)), rest);
  }

  lemma Nest(a: string, r: string, g: string, b: string, rest: string)
    ensures a + ";2;" + (r + ";" + g + ";" + b) + "m" + rest
      == a + ([';'] + ("2" + ([';'] + (r + ([';'] + (g + ([';'] + (b + (['m'] + rest)))))))))
  {
    var rgb, m := r + ";" + g + ";" + b, "m" + rest;
    Assoc(a + ";2;" + rgb, "m", rest);
    Assoc(a + ";2;", rgb, m);
    Assoc(a, ";2;", rgb + m);
    Assoc(";", "2;", rgb + m);
    Assoc("2", ";", rgb + m);
    assert ";2;" == ";" + "2;" && "2;" == "2" + ";";
    Assoc(r + ";" + g + ";", b, m);
    Assoc(r + ";" + g, ";", b + m);
    Assoc(r + ";", g, ";" + (b + m));
    Assoc(r, ";", g + (";" + (b + m)));
  }

  lemma DefaultText(n: string, rest: string)
    ensures [ESC] + ("[" + n + "m") + rest == [ESC] + "[" + (n + (['m'] + rest))
  {}

  lemma TrueText(n: string, rgb: string, rest: string)
    ensures [ESC] + ("[" + n + ";2;") + rgb + "m" + rest == [ESC] + "[" + (n + ";2;" + rgb + "m" + rest)
  {
    Assoc([ESC], "[" + n + ";2;", rgb);
    Assoc([ESC], "[" + n + ";2;" + rgb, "m");
    Assoc([ESC], "[" + n + ";2;" + rgb + "m", rest);
    Assoc([ESC], "[", n + ";2;" + rgb + "m" + rest);
  }

  lemma ShowDefault(t: Term, n: nat, rest: string)
    requires WellFormed(t)
    ensures Show(t, [ESC] + ("[" + Decimal.Print(n) + "m") + rest) == Show(Sgr(t, [n]), rest)
  {
    DefaultText(Decimal.Print(n), rest);
    ShowEscape(t, Decimal.Print(n) + (['m'] + rest));
    ControlEnd(t, n, 'm', rest, []);
    assert [] + [n] == [n];
  }

  lemma ShowTrue(t: Term, target: nat, c: Color, rest: string)
    requires WellFormed(t) && (target == 38 || target == 48)
    ensures Show(t, [ESC] + ("[" + Decimal.Print(target) + ";2;") + Rgb(c) + "m" + rest)
      == Show(Sgr(t, [target, 2, Channel(c, 0x1_0000), Channel(c, 0x100), Channel(c, 1)]), rest)
  {
    TrueText(Decimal.Print(target), Rgb(c), rest);
    ShowEscape(t, Decimal.Print(target) + ";2;" + Rgb(c) + "m" + rest);
    ControlRgb(t, target, c, rest);
  }

  lemma ShowForeground(t: Term, d: Defaults, c: Color, rest: string)
    requires WellFormed(t)
    ensures Show(t, (if c == d.fg then [ESC] + "[39m" else [ESC] + "[38;2;" + Rgb(c) + "m") + rest)
      == Show(t.(fg := Shown(c, d.fg)), rest)
  {
    Numerals();
    if c == d.fg {
      assert "[39m" == "[" + "39" + "m";
      ShowDefault(t, 39, rest);
    } else {
      assert "[38;2;" == "[" + "38" + ";2;";
      ShowTrue(t, 38, c, rest);
    }
  }

  lemma ShowBackground(t: Term, d: Defaults, c: Color, rest: string)
    requires WellFormed(t)
    ensures Show(t, (if c == d.bg then [ESC] + "[49m" else [ESC] + "[48;2;" + Rgb(c) + "m") + rest)
      == Show(t.(bg := Shown(c, d.bg)), rest)
  {
    Numerals();
    if c == d.bg {
      assert "[49m" == "[" + "49" + "m";
      ShowDefault(t, 49, rest);
    } else {
      assert "[48;2;" == "[" + "48" + ";2;";
      ShowTrue(t, 48, c, rest);
    }
  }

  function Pen(t: Term, d: Defaults, fg: Color, bg: Color): Term {
    t.(fg := Shown(fg, d.fg), bg := Shown(bg, d.bg))
  }

  lemma ShowColorChange(t: Term, d: Defaults, fg: Color, bg: Color, rest: string)
    requires WellFormed(t)
    ensures Show(t, PrintColorChange(d, fg, bg) + rest) == Show(Pen(t, d, fg, bg), rest)
  {
    var f := if fg == d.fg then [ESC] + "[39m" else [ESC] + "[38;2;" + Rgb(fg) + "m";
    var b := if bg == d.bg then [ESC] + "[49m" else [ESC] + "[48;2;" + Rgb(bg) + "m";
    assert PrintColorChange(d, fg, bg) + rest == f + (b + rest);
    ShowForeground(t, d, fg, b + rest);
    ShowBackground(t.(fg := Shown(fg, d.fg)), d, bg, rest);
  }

  lemma ShowCursor(t: Term, s: Screen)
    requires WellFormed(t) && SameSize(t, s) && s.y < |s.cells| && s.x < s.cols
    ensures Show(t, MoveCursor(s)) == t.(x := s.x, y := s.y)
  {
    var body := Decimal.Print(s.y + 1) + ([';'] + (Decimal.Print(s.x + 1) + (['H'] + "")));
    assert MoveCursor(s) == [ESC] + "[" + body;
    ShowEscape(t, body);
    ControlParameter(t, s.y + 1, Decimal.Print(s.x + 1) + (['H'] + ""), []);
    ControlEnd(t, s.x + 1, 'H', "", [s.y + 1]);
    assert [] + [s.y + 1] == [s.y + 1] && [s.y + 1] + [s.x + 1] == [s.y + 1, s.x + 1];
  }

  lemma ShowChar(t: Term, c: char, rest: string)
    requires WellFormed(t) && Printable(c)
    ensures Show(t, [c] + rest) == Show(Put(t, c), rest)
  {
    assert ([c] + rest)[1..] == rest;
  }

  lemma ShowNewLine(t: Term, rest: string)
    requires WellFormed(t)
    ensures Show(t, "\r\n" + rest) == Show(LineFeed(t.(x := 0)), rest)
  {
    assert ("\r\n" + rest)[1..] == ['\n'] + rest && (['\n'] + rest)[1..] == rest;
  }

  // ---- Round trip ----

  predicate SameSize(t: Term, s: Screen) {
    |t.cells| == |s.cells| && t.cols == s.cols
  }

  predicate Before(r: nat, c: nat, x: nat, y: nat) {
    r < y || (r == y && c < x)
  }

  // How far down the terminal the dump's line y stands; scrolling brings it back up.
  function Offset(s: Screen, t: Term, y: nat): int {
    if y < |s.cells| then t.y - y else 0
  }

  // Cells before (x, y) are as in t, moved up by the offset, the cursor is the screen's,
  // and the other cells are the screen's if the pen was right to begin with.
  ghost predicate Restored(d: Defaults, s: Screen, t: Term, x: nat, y: nat, penned: bool, u: Term) {
    && WellFormed(t) && WellFormed(u) && SameSize(t, s) && SameSize(u, s) && Rectangular(s)
    && u.x == s.x && u.y == s.y
    && (forall r, c :: 0 <= r < |s.cells| && 0 <= c < s.cols && Before(r, c, x, y) ==> Kept(t, Offset(s, t, y), u, r, c))
    && (forall r, c :: 0 <= r < |s.cells| && 0 <= c < s.cols && !Before(r, c, x, y) && penned ==>
         u.cells[r][c] == ShownCell(d, s.cells[r][c]))
  }

  predicate Kept(t: Term, offset: int, u: Term, r: nat, c: nat)
    requires WellFormed(t) && WellFormed(u) && r < |u.cells| && c < u.cols && u.cols == t.cols
  {
    0 <= r + offset < |t.cells| && u.cells[r][c] == t.cells[r + offset][c]
  }

  ghost predicate Showable(s: Screen) {
    Rectangular(s) && AllPrintable(s) && s.y < |s.cells| && s.x < s.cols
  }

  // The terminal stands where the dump goes on, on the dump's line or further down.
  ghost predicate Standing(s: Screen, t: Term, x: nat, y: nat) {
    && Showable(s) && WellFormed(t) && SameSize(t, s) && x <= s.cols && y <= |s.cells|
    && (y < |s.cells| ==> t.x == x && t.y >= y)
  }

  // The terminal after the colour change in front of a cell, if there is one.
  function Penned(t: Term, d: Defaults, g: Glyph, fg: Color, bg: Color): Term {
    if g.fg != fg || g.bg != bg then Pen(t, d, g.fg, g.bg) else t
  }

  lemma {:induction false} DumpRestores(d: Defaults, s: Screen, t: Term, x: nat, y: nat, fg: Color, bg: Color)
    requires Standing(s, t, x, y)
    ensures Restored(d, s, t, x, y, t == Pen(t, d, fg, bg), Show(t, DumpFrom(d, s, x, y, fg, bg)))
    decreases |s.cells| - y, s.cols - x
  {
    if y == |s.cells| {
      CursorRestored(d, s, t, x, fg, bg);
    } else if x == s.cols {
      LineStanding(s, t, y);
      DumpRestores(d, s, NextLine(s, t, y), 0, y + 1, fg, bg);
      LineRestored(d, s, t, y, fg, bg);
    } else {
      var g := s.cells[y][x];
      PutStanding(s, t, x, y, Penned(t, d, g, fg, bg));
      DumpRestores(d, s, Put(Penned(t, d, g, fg, bg), g.ch), x + 1, y, g.fg, g.bg);
      CellRestored(d, s, t, x, y, fg, bg);
    }
  }

  function NextLine(s: Screen, t: Term, y: nat): (u: Term)
    requires WellFormed(t)
    ensures WellFormed(u) && u.cols == t.cols && |u.cells| == |t.cells|
  {
    if y + 1 < |s.cells| then LineFeed(t.(x := 0)) else t
  }

  lemma LineStanding(s: Screen, t: Term, y: nat)
    requires Standing(s, t, s.cols, y) && y < |s.cells|
    ensures Standing(s, NextLine(s, t, y), 0, y + 1)
  {}

  lemma DumpLineEnd(d: Defaults, s: Screen, t: Term, y: nat, fg: Color, bg: Color)
    requires Showable(s) && WellFormed(t) && SameSize(t, s) && y < |s.cells|
    ensures Show(t, DumpFrom(d, s, s.cols, y, fg, bg)) == Show(NextLine(s, t, y), DumpFrom(d, s, 0, y + 1, fg, bg))
  {
    ShowLineEnd(s, t, y, DumpFrom(d, s, 0, y + 1, fg, bg));
  }

  lemma ShowLineEnd(s: Screen, t: Term, y: nat, rest: string)
    requires WellFormed(t)
    ensures Show(t, (if y + 1 < |s.cells| then "\r\n" else "") + rest) == Show(NextLine(s, t, y), rest)
  {
    if y + 1 < |s.cells| {
      ShowNewLine(t, rest);
    } else {
      assert "" + rest == rest;
    }
  }

  lemma CursorRestored(d: Defaults, s: Screen, t: Term, x: nat, fg: Color, bg: Color)
    requires Standing(s, t, x, |s.cells|)
    ensures Restored(d, s, t, x, |s.cells|, t == Pen(t, d, fg, bg), Show(t, DumpFrom(d, s, x, |s.cells|, fg, bg)))
  {
    ShowCursor(t, s);
  }

  // The end of a line moves cells up at most.
  lemma LineRestored(d: Defaults, s: Screen, t: Term, y: nat, fg: Color, bg: Color)
    requires Standing(s, t, s.cols, y) && y < |s.cells|
    requires var v := NextLine(s, t, y);
      Restored(d, s, v, 0, y + 1, v == Pen(v, d, fg, bg), Show(v, DumpFrom(d, s, 0, y + 1, fg, bg)))
    ensures Restored(d, s, t, s.cols, y, t == Pen(t, d, fg, bg), Show(t, DumpFrom(d, s, s.cols, y, fg, bg)))
  {
    DumpLineEnd(d, s, t, y, fg, bg);
    LineKeepsCells(d, s, t, y, t == Pen(t, d, fg, bg), Show(t, DumpFrom(d, s, s.cols, y, fg, bg)));
  }

  lemma LineKeepsCells(d: Defaults, s: Screen, t: Term, y: nat, penned: bool, u: Term)
    requires Standing(s, t, s.cols, y) && y < |s.cells|
    requires Restored(d, s, NextLine(s, t, y), 0, y + 1, penned, u)
    ensures Restored(d, s, t, s.cols, y, penned, u)
  {
    var v := NextLine(s, t, y);
    forall r, c | 0 <= r < |s.cells| && 0 <= c < s.cols && Before(r, c, s.cols, y)
      ensures Kept(t, Offset(s, t, y), u, r, c)
    {
      assert Before(r, c, 0, y + 1);
      assert Kept(v, Offset(s, v, y + 1), u, r, c);
    }
    forall r, c | 0 <= r < |s.cells| && 0 <= c < s.cols && !Before(r, c, s.cols, y) && penned
      ensures u.cells[r][c] == ShownCell(d, s.cells[r][c])
    {
      assert !Before(r, c, 0, y + 1);
    }
  }

  // If the rest is restored after a cell, the cell and the rest are.
  lemma CellRestored(d: Defaults, s: Screen, t: Term, x: nat, y: nat, fg: Color, bg: Color)
    requires Standing(s, t, x, y) && x < s.cols && y < |s.cells|
    requires var g := s.cells[y][x]; var v := Put(Penned(t, d, g, fg, bg), g.ch);
      Restored(d, s, v, x + 1, y, v == Pen(v, d, g.fg, g.bg), Show(v, DumpFrom(d, s, x + 1, y, g.fg, g.bg)))
    ensures var u := Show(t, DumpFrom(d, s, x, y, fg, bg)); var p := Penned(t, d, s.cells[y][x], fg, bg);
      && Restored(d, s, t, x, y, p == Pen(p, d, s.cells[y][x].fg, s.cells[y][x].bg), u)
      && Restored(d, s, t, x, y, t == Pen(t, d, fg, bg), u)
      && u.cells[y][x] == Cell(s.cells[y][x].ch, p.fg, p.bg)
  {
    var p := Penned(t, d, s.cells[y][x], fg, bg);
    DumpCell(d, s, t, x, y, fg, bg);
    CellPut(d, s, t, x, y, p, Show(t, DumpFrom(d, s, x, y, fg, bg)));
  }

  lemma PutStanding(s: Screen, t: Term, x: nat, y: nat, p: Term)
    requires Standing(s, t, x, y) && x < s.cols && y < |s.cells|
    requires p == t.(fg := p.fg, bg := p.bg)
    ensures Standing(s, Put(p, s.cells[y][x].ch), x + 1, y)
  {}

  // One cell of the dump.
  lemma DumpCell(d: Defaults, s: Screen, t: Term, x: nat, y: nat, fg: Color, bg: Color)
    requires Showable(s) && WellFormed(t) && SameSize(t, s) && x < s.cols && y < |s.cells|
    ensures var g := s.cells[y][x];
      Show(t, DumpFrom(d, s, x, y, fg, bg))
      == Show(Put(Penned(t, d, g, fg, bg), g.ch), DumpFrom(d, s, x + 1, y, g.fg, g.bg))
  {
    var g := s.cells[y][x];
    ShowGlyph(t, d, g, fg, bg, DumpFrom(d, s, x + 1, y, g.fg, g.bg));
  }

  lemma ShowGlyph(t: Term, d: Defaults, g: Glyph, fg: Color, bg: Color, rest: string)
    requires WellFormed(t) && Printable(g.ch)
    ensures Show(t, Change(d, g, fg, bg) + [g.ch] + rest)
      == Show(Put(Penned(t, d, g, fg, bg), g.ch), rest)
  {
    if g.fg != fg || g.bg != bg {
      var change := PrintColorChange(d, g.fg, g.bg);
      assert change + [g.ch] + rest == change + ([g.ch] + rest);
      ShowColorChange(t, d, g.fg, g.bg, [g.ch] + rest);
    } else {
      assert "" + [g.ch] + rest == [g.ch] + rest;
    }
    ShowChar(Penned(t, d, g, fg, bg), g.ch, rest);
  }

  // Putting a character changes its cell only.
  lemma CellPut(d: Defaults, s: Screen, t: Term, x: nat, y: nat, p: Term, u: Term)
    requires Standing(s, t, x, y) && x < s.cols && y < |s.cells|
    requires p == t.(fg := p.fg, bg := p.bg)
    requires var v := Put(p, s.cells[y][x].ch);
      Restored(d, s, v, x + 1, y, v == Pen(v, d, s.cells[y][x].fg, s.cells[y][x].bg), u)
    ensures Restored(d, s, t, x, y, p == Pen(p, d, s.cells[y][x].fg, s.cells[y][x].bg), u)
    ensures u.cells[y][x] == Cell(s.cells[y][x].ch, p.fg, p.bg)
  {
    var v := Put(p, s.cells[y][x].ch);
    var o := Offset(s, t, y);
    assert Before(y, x, x + 1, y);
    assert Kept(v, o, u, y, x);
    forall r, c | 0 <= r < |s.cells| && 0 <= c < s.cols && Before(r, c, x, y)
      ensures Kept(t, o, u, r, c)
    {
      assert Before(r, c, x + 1, y);
      assert Kept(v, o, u, r, c);
    }
    forall r, c | 0 <= r < |s.cells| && 0 <= c < s.cols && !Before(r, c, x, y) && p == Pen(p, d, s.cells[y][x].fg, s.cells[y][x].bg)
      ensures u.cells[r][c] == ShownCell(d, s.cells[r][c])
    {
      if r != y || c != x { assert !Before(r, c, x + 1, y); }
    }
  }

  // The first cell starts a line: at column 0, or after a full line, which wraps.
  predicate StartsLine(t: Term) {
    t.x == 0 || t.x == t.cols
  }

  lemma FirstPut(s: Screen, t: Term, p: Term)
    requires Showable(s) && WellFormed(t) && SameSize(t, s) && StartsLine(t) && p == t.(fg := p.fg, bg := p.bg)
    ensures var v := Put(p, s.cells[0][0].ch);
      Standing(s, v, 1, 0) && v.cells[v.y][0] == Cell(s.cells[0][0].ch, p.fg, p.bg) && v.fg == p.fg && v.bg == p.bg
  {}

  // The screen came out with this first cell, and if the pen was right with its others.
  ghost predicate CameOut(d: Defaults, s: Screen, first: Cell, penned: bool, u: Term) {
    && WellFormed(u) && SameSize(u, s) && Rectangular(s) && u.x == s.x && u.y == s.y
    && u.cells[0][0] == first
    && (penned ==> forall r, c :: 0 <= r < |s.cells| && 0 <= c < s.cols && (r != 0 || c != 0) ==>
         u.cells[r][c] == ShownCell(d, s.cells[r][c]))
  }

  lemma FirstAndRest(d: Defaults, s: Screen, v: Term, penned: bool, u: Term)
    requires Standing(s, v, 1, 0) && Restored(d, s, v, 1, 0, penned, u)
    ensures CameOut(d, s, v.cells[v.y][0], penned, u)
  {
    assert Before(0, 0, 1, 0);
    assert Kept(v, Offset(s, v, 0), u, 0, 0);
    forall r, c | 0 <= r < |s.cells| && 0 <= c < s.cols && (r != 0 || c != 0)
      ensures !Before(r, c, 1, 0)
    {}
  }

  lemma RestCameOut(d: Defaults, s: Screen, v: Term, fg: Color, bg: Color)
    requires Standing(s, v, 1, 0)
    ensures CameOut(d, s, v.cells[v.y][0], v == Pen(v, d, fg, bg), Show(v, DumpFrom(d, s, 1, 0, fg, bg)))
  {
    DumpRestores(d, s, v, 1, 0, fg, bg);
    FirstAndRest(d, s, v, v == Pen(v, d, fg, bg), Show(v, DumpFrom(d, s, 1, 0, fg, bg)));
  }

  lemma FromLineStart(d: Defaults, s: Screen, t: Term)
    requires Showable(s) && WellFormed(t) && SameSize(t, s) && StartsLine(t)
    ensures var g := s.cells[0][0]; var p := Penned(t, d, g, 0, 0);
      CameOut(d, s, Cell(g.ch, p.fg, p.bg), p == Pen(p, d, g.fg, g.bg), Show(t, Dump(d, s)))
  {
    var g := s.cells[0][0];
    var p := Penned(t, d, g, 0, 0);
    FirstPut(s, t, p);
    RestCameOut(d, s, Put(p, g.ch), g.fg, g.bg);
    CameOutFromFirst(d, s, t, Cell(g.ch, p.fg, p.bg), p == Pen(p, d, g.fg, g.bg));
  }

  lemma CameOutFromFirst(d: Defaults, s: Screen, t: Term, first: Cell, penned: bool)
    requires Showable(s) && WellFormed(t) && SameSize(t, s)
    requires var g := s.cells[0][0];
      CameOut(d, s, first, penned, Show(Put(Penned(t, d, g, 0, 0), g.ch), DumpFrom(d, s, 1, 0, g.fg, g.bg)))
    ensures CameOut(d, s, first, penned, Show(t, Dump(d, s)))
  {
    DumpCell(d, s, t, 0, 0, 0, 0);
  }

  // Shown on a terminal of the same size that starts a line, on whatever line, the dump
  // brings back the cursor always, and every cell exactly if the pen shows colour 0 on 0
  // or the first cell has other colours.
  lemma RoundTripIff(d: Defaults, s: Screen, t: Term)
    requires Showable(s) && WellFormed(t) && SameSize(t, s) && StartsLine(t)
    ensures var u := Show(t, Dump(d, s)); var g := s.cells[0][0];
      && SameSize(u, s) && WellFormed(u) && u.x == s.x && u.y == s.y
      && u.cells[0][0] == Cell(g.ch, Penned(t, d, g, 0, 0).fg, Penned(t, d, g, 0, 0).bg)
      && ((forall r, c :: 0 <= r < |s.cells| && 0 <= c < s.cols ==> u.cells[r][c] == ShownCell(d, s.cells[r][c]))
          <==> g.fg != 0 || g.bg != 0 || t == Pen(t, d, 0, 0))
  {
    FromLineStart(d, s, t);
    var g, u := s.cells[0][0], Show(t, Dump(d, s));
    if g.fg != 0 || g.bg != 0 || t == Pen(t, d, 0, 0) {
      forall r, c | 0 <= r < |s.cells| && 0 <= c < s.cols
        ensures u.cells[r][c] == ShownCell(d, s.cells[r][c])
      {
      }
    } else {
      assert u.cells[0][0] != ShownCell(d, g);
    }
  }

  // Characters, raw colours and cursor of the emulator can be read off the terminal.
  ghost predicate Recovered(d: Defaults, s: Screen, u: Term) {
    && WellFormed(u) && SameSize(u, s) && Rectangular(s) && u.x == s.x && u.y == s.y
    && forall r, c :: 0 <= r < |s.cells| && 0 <= c < s.cols ==> Legible(d, s.cells[r][c], u.cells[r][c])
  }

  predicate Legible(d: Defaults, g: Glyph, cell: Cell) {
    cell.ch == g.ch && ColorOf(cell.fg, d.fg) == g.fg && ColorOf(cell.bg, d.bg) == g.bg
  }

  predicate FaithfulGlyph(d: Defaults, g: Glyph) {
    Faithful(g.fg, d.fg) && Faithful(g.bg, d.bg)
  }

  ghost predicate AllFaithful(d: Defaults, s: Screen)
    requires Rectangular(s)
  {
    forall r, c :: 0 <= r < |s.cells| && 0 <= c < s.cols ==> FaithfulGlyph(d, s.cells[r][c])
  }

  // From the start of a line, the whole screen comes back exactly if every colour is a
  // default or a true colour, and the pen is right for a first cell of colour 0 on 0.
  lemma ScreenRecoveredIff(d: Defaults, s: Screen, t: Term)
    requires d.fg >= TRUE_COLORS && d.bg >= TRUE_COLORS
    requires Showable(s) && WellFormed(t) && SameSize(t, s) && StartsLine(t)
    ensures Recovered(d, s, Show(t, Dump(d, s))) <==>
      AllFaithful(d, s) && (s.cells[0][0].fg != 0 || s.cells[0][0].bg != 0 || t == Pen(t, d, 0, 0))
  {
    var u, g := Show(t, Dump(d, s)), s.cells[0][0];
    RoundTripIff(d, s, t);
    if g.fg != 0 || g.bg != 0 || t == Pen(t, d, 0, 0) {
      forall r, c | 0 <= r < |s.cells| && 0 <= c < s.cols
        ensures Legible(d, s.cells[r][c], u.cells[r][c]) <==> FaithfulGlyph(d, s.cells[r][c])
      {
        ShownColorIff(s.cells[r][c].fg, d.fg);
        ShownColorIff(s.cells[r][c].bg, d.bg);
      }
    } else {
      assert !Legible(d, g, u.cells[0][0]);
    }
  }

  // ---- From the middle of a line ----

  lemma PutInside(t: Term, p: Term, ch: char)
    requires WellFormed(t) && p == t.(fg := p.fg, bg := p.bg) && t.x < t.cols
    ensures var v := Put(p, ch);
      v.x == t.x + 1 && v.y == t.y && (t.x > 0 ==> v.cells[v.y][0] == t.cells[t.y][0])
  {}

  lemma PutWraps(t: Term, p: Term, ch: char)
    requires WellFormed(t) && p == t.(fg := p.fg, bg := p.bg) && t.x == t.cols
    ensures var v := Put(p, ch);
      v.x == 1 && v.cells[v.y][0].ch == ch && (|v.cells| > 1 ==> v.y >= 1)
  {}

  // The terminal shows this character in its first cell.
  predicate FirstIs(u: Term, ch: char) {
    WellFormed(u) && u.cells[0][0].ch == ch
  }

  lemma FirstIsAfterCell(d: Defaults, s: Screen, t: Term, x: nat, fg: Color, bg: Color, ch: char)
    requires Showable(s) && WellFormed(t) && SameSize(t, s) && x < s.cols
    requires var g := s.cells[0][x];
      FirstIs(Show(Put(Penned(t, d, g, fg, bg), g.ch), DumpFrom(d, s, x + 1, 0, g.fg, g.bg)), ch)
    ensures FirstIs(Show(t, DumpFrom(d, s, x, 0, fg, bg)), ch)
  {
    DumpCell(d, s, t, x, 0, fg, bg);
  }

  // The rest of the first line, `back` columns left of where it belongs, leaves the first
  // cell of the terminal's line to become the first of the screen.
  lemma {:induction false} AfterWrap(d: Defaults, s: Screen, t: Term, x: nat, back: nat, fg: Color, bg: Color)
    requires Showable(s) && WellFormed(t) && SameSize(t, s) && x <= s.cols && 0 < back < x && t.x == x - back
    requires |s.cells| > 1 ==> t.y >= 1
    ensures FirstIs(Show(t, DumpFrom(d, s, x, 0, fg, bg)), t.cells[t.y][0].ch)
    decreases s.cols - x
  {
    if x < s.cols {
      var g := s.cells[0][x];
      var v := Put(Penned(t, d, g, fg, bg), g.ch);
      PutInside(t, Penned(t, d, g, fg, bg), g.ch);
      AfterWrap(d, s, v, x + 1, back, g.fg, g.bg);
      FirstIsAfterCell(d, s, t, x, fg, bg, v.cells[v.y][0].ch);
    } else {
      WrappedLine(d, s, t, fg, bg);
    }
  }

  lemma WrappedLine(d: Defaults, s: Screen, t: Term, fg: Color, bg: Color)
    requires Showable(s) && WellFormed(t) && SameSize(t, s) && (|s.cells| > 1 ==> t.y >= 1)
    ensures FirstIs(Show(t, DumpFrom(d, s, s.cols, 0, fg, bg)), t.cells[t.y][0].ch)
  {
    var v := NextLine(s, t, 0);
    DumpRestores(d, s, v, 0, 1, fg, bg);
    KeptFirst(d, s, t, v == Pen(v, d, fg, bg), Show(v, DumpFrom(d, s, 0, 1, fg, bg)));
    DumpLineEnd(d, s, t, 0, fg, bg);
  }

  lemma KeptFirst(d: Defaults, s: Screen, t: Term, penned: bool, u: Term)
    requires Showable(s) && WellFormed(t) && SameSize(t, s) && (|s.cells| > 1 ==> t.y >= 1)
    requires Restored(d, s, NextLine(s, t, 0), 0, 1, penned, u)
    ensures FirstIs(u, t.cells[t.y][0].ch)
  {
    assert Before(0, 0, 0, 1);
    assert Kept(NextLine(s, t, 0), Offset(s, NextLine(s, t, 0), 1), u, 0, 0);
  }

  lemma {:induction false} BeforeWrap(d: Defaults, s: Screen, t: Term, x: nat, ahead: nat, fg: Color, bg: Color)
    requires Showable(s) && WellFormed(t) && SameSize(t, s) && 0 < ahead < s.cols && x + ahead <= s.cols && t.x == x + ahead
    ensures FirstIs(Show(t, DumpFrom(d, s, x, 0, fg, bg)), s.cells[0][s.cols - ahead].ch)
    decreases s.cols - x
  {
    var g := s.cells[0][x];
    var p := Penned(t, d, g, fg, bg);
    if t.x < t.cols {
      PutInside(t, p, g.ch);
      BeforeWrap(d, s, Put(p, g.ch), x + 1, ahead, g.fg, g.bg);
    } else {
      PutWraps(t, p, g.ch);
      AfterWrap(d, s, Put(p, g.ch), x + 1, s.cols - ahead, g.fg, g.bg);
    }
    FirstIsAfterCell(d, s, t, x, fg, bg, s.cells[0][s.cols - ahead].ch);
  }

  // From the middle of a line the first line wraps: its first cell shows the character
  // that fell on column 0, so the screen is lost wherever the two differ.
  lemma WrongColumn(d: Defaults, s: Screen, t: Term)
    requires Showable(s) && WellFormed(t) && SameSize(t, s) && 0 < t.x < t.cols
    ensures var u := Show(t, Dump(d, s));
      && FirstIs(u, s.cells[0][s.cols - t.x].ch)
      && (s.cells[0][0].ch != s.cells[0][s.cols - t.x].ch ==> !Recovered(d, s, u))
  {
    BeforeWrap(d, s, t, 0, t.x, 0, 0);
    var u := Show(t, Dump(d, s));
    assert Recovered(d, s, u) ==> Legible(d, s.cells[0][0], u.cells[0][0]);
  }

  ghost predicate Fits(d: Defaults, s: Screen, t: Term) {
    Showable(s) && SameSize(t, s) && AllFaithful(d, s)
  }

  // A screen that tells every wrong column and every wrong pen.
  function Telltale(rows: nat, cols: nat): Screen {
    Screen(seq(rows, r => seq(cols, c => Glyph(if r == 0 && c == 0 then 'a' else 'b', 0, 0))), cols, 0, 0)
  }

  // Exactly the terminals that start a line with a pen of colour 0 on 0 show every screen.
  lemma TerminalFitsIff(d: Defaults, t: Term)
    requires d.fg >= TRUE_COLORS && d.bg >= TRUE_COLORS && WellFormed(t)
    ensures (forall s :: Fits(d, s, t) ==> Recovered(d, s, Show(t, Dump(d, s)))) <==>
      StartsLine(t) && t == Pen(t, d, 0, 0)
  {
    if StartsLine(t) && t == Pen(t, d, 0, 0) {
      forall s | Fits(d, s, t) ensures Recovered(d, s, Show(t, Dump(d, s))) {
        ScreenRecoveredIff(d, s, t);
      }
    } else {
      var s := Telltale(|t.cells|, t.cols);
      assert Fits(d, s, t);
      if StartsLine(t) {
        ScreenRecoveredIff(d, s, t);
      } else {
        WrongColumn(d, s, t);
      }
      assert !Recovered(d, s, Show(t, Dump(d, s)));
    }
  }
}
