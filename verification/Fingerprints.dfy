/** The authorized_fingerprints file: the reader of auth.go and the add and remove commands
    of clients.go, over the text of one file. */
module Fingerprints {

  // ---- bufio.ScanLines ----

  function DropCR(line: string): string {
    if line != "" && line[|line| - 1] == '\r' then line[..|line| - 1] else line
  }

  // The text up to the first newline, and whether there is one.
  function FirstLine(text: string): (n: nat)
    ensures n <= |text| && '\n' !in text[..n] && (n < |text| ==> text[n] == '\n')
  {
    if text == "" || text[0] == '\n' then 0
    else
      var n := 1 + FirstLine(text[1..]);
      assert text[..n] == [text[0]] + text[1..][..n - 1];
      n
  }

  // Each line without its newline and one carriage return before it; text after the last
  // newline is a line of its own.
  function Lines(text: string): seq<string>
    decreases |text|
  {
    if text == "" then []
    else
      var n := FirstLine(text);
      [DropCR(text[..n])] + if n < |text| then Lines(text[n + 1..]) else []
  }

  function Unlines(lines: seq<string>): string {
    if lines == [] then "" else lines[0] + "\n" + Unlines(lines[1..])
  }

  // ---- Tokens ----

  datatype Token = NoToken | Token(fp: string)

  function UpToSpace(line: string): string {
    if line == "" || line[0] == ' ' then "" else [line[0]] + UpToSpace(line[1..])
  }

  function TokenOf(line: string): Token {
    if line != "" && line[0] == '#' then NoToken
    else if UpToSpace(line) == "" then NoToken
    else Token(UpToSpace(line))
  }

  function Carried(line: string): seq<string> {
    match TokenOf(line) case NoToken => [] case Token(fp) => [fp]
  }

  function TokensOf(lines: seq<string>): seq<string> {
    if lines == [] then []
    else Carried(lines[0]) + TokensOf(lines[1..])
  }

  function Tokens(text: string): seq<string> {
    TokensOf(Lines(text))
  }

  // A line that carries the token a with a name behind it.
  predicate Suffixed(line: string, a: string) {
    a != "" && a[0] != '#' && a < line && line[|a|] == ' '
  }

  // t is a fingerprint that a line of the text gives, alone or with a name behind it.
  ghost predicate Authorizes(text: string, t: string) {
    && t != "" && t[0] != '#' && ' ' !in t
    && exists l :: l in Lines(text) && (l == t || Suffixed(l, t))
  }

  // ---- What the commands make of the text ----

  function Added(text: string, args: seq<string>): string {
    text + Unlines(args)
  }

  function Without(lines: seq<string>, args: seq<string>): seq<string> {
    if lines == [] then []
    else (if lines[0] in args then [] else [lines[0]]) + Without(lines[1..], args)
  }

  function Removed(text: string, args: seq<string>): string {
    Unlines(Without(Lines(text), args))
  }

  // ---- The file ----

  class TokensFile {
    var text: string

    constructor (text: string)
      ensures this.text == text
    {
      this.text := text;
    }

    method ReadAuthorizedTokens() returns (tokens: seq<string>)
      ensures tokens == Tokens(text)
      ensures forall t :: t in tokens <==> Authorizes(text, t)
    {
      tokens := [];
      var lines := Lines(text);
      var i := 0;
      while i < |lines|
        invariant 0 <= i <= |lines|
        invariant tokens + TokensOf(lines[i..]) == TokensOf(lines)
      {
        var line := lines[i];
        ghost var before, rest := tokens, TokensOf(lines[i + 1..]);
        assert lines[i..][0] == line && lines[i..][1..] == lines[i + 1..];
        i := i + 1;
        if |line| > 0 && line[0] == '#' {
          assert [] + rest == rest;
          continue;
        }
        line := CutAtSpace(line);
        if |line| == 0 {
          assert [] + rest == rest;
          continue;
        }
        tokens := tokens + [line];
        assert before + ([line] + rest) == tokens + rest;
      }
      assert lines[i..] == [];
      forall t ensures t in Tokens(text) <==> Authorizes(text, t) {
        TokensIff(text, t);
      }
    }

    method IsAuthorized(clientTokens: seq<string>) returns (ok: bool)
      ensures ok <==> exists ct :: ct in clientTokens && Authorizes(text, ct)
    {
      var tokens := ReadAuthorizedTokens();
      var i := 0;
      while i < |clientTokens|
        invariant 0 <= i <= |clientTokens|
        invariant forall k :: 0 <= k < i ==> clientTokens[k] !in tokens
      {
        var j := 0;
        while j < |tokens|
          invariant 0 <= j <= |tokens|
          invariant clientTokens[i] !in tokens[..j]
        {
          if tokens[j] == clientTokens[i] {
            assert clientTokens[i] in clientTokens && Authorizes(text, clientTokens[i]);
            return true;
          }
          j := j + 1;
        }
        assert tokens[..j] == tokens;
        i := i + 1;
      }
      return false;
    }

    method AddClients(args: seq<string>)
      modifies this
      ensures text == Added(old(text), args)
    {
      var i := 0;
      while i < |args|
        invariant 0 <= i <= |args|
        invariant text + Unlines(args[i..]) == Added(old(text), args)
      {
        assert args[i..][0] == args[i] && args[i..][1..] == args[i + 1..];
        assert text + (args[i] + "\n" + Unlines(args[i + 1..])) == text + (args[i] + "\n") + Unlines(args[i + 1..]);
        text := text + (args[i] + "\n");
        i := i + 1;
      }
      assert args[i..] == [];
    }

    method RemoveClients(args: seq<string>)
      modifies this
      ensures text == Removed(old(text), args)
    {
      var fps := Lines(text);
      var post: seq<string> := [];
      var i := 0;
      while i < |fps|
        invariant 0 <= i <= |fps|
        invariant post + Without(fps[i..], args) == Without(fps, args)
      {
        assert fps[i..][0] == fps[i] && fps[i..][1..] == fps[i + 1..];
        var found := Contains(args, fps[i]);
        ghost var rest := Without(fps[i + 1..], args);
        if !found {
          assert post + ([fps[i]] + rest) == post + [fps[i]] + rest;
          post := post + [fps[i]];
        } else {
          assert [] + rest == rest;
        }
        i := i + 1;
      }
      assert fps[i..] == [] && post == Without(fps, args);
      text := "";
      AddClients(post);
      assert "" + Unlines(post) == Unlines(post);
    }
  }

  // strings.Index of a space, and the cut before it.
  method CutAtSpace(line: string) returns (head: string)
    ensures head == UpToSpace(line)
  {
    var n := 0;
    while n < |line| && line[n] != ' '
      invariant 0 <= n <= |line|
      invariant line[..n] + UpToSpace(line[n..]) == UpToSpace(line)
    {
      assert line[n..][1..] == line[n + 1..];
      assert line[..n] + ([line[n]] + UpToSpace(line[n + 1..])) == line[..n + 1] + UpToSpace(line[n + 1..]);
      n := n + 1;
    }
    head := line[..n];
    assert head + "" == head;
  }

  // The inner loop of removeClients.
  method Contains(args: seq<string>, t: string) returns (found: bool)
    ensures found == (t in args)
  {
    found := false;
    var k := 0;
    while k < |args|
      invariant 0 <= k <= |args| && t !in args[..k]
    {
      if t == args[k] {
        return true;
      }
      k := k + 1;
    }
    assert args[..k] == args;
  }

  // ---- Lines and their text ----

  // A line that survives being written and read back.
  predicate Plain(line: string) {
    '\n' !in line && DropCR(line) == line
  }

  predicate AllPlain(lines: seq<string>) {
    forall i :: 0 <= i < |lines| ==> Plain(lines[i])
  }

  predicate Terminated(text: string) {
    text == "" || text[|text| - 1] == '\n'
  }

  // No carriage return stands before a newline.
  predicate CrlfFree(text: string) {
    |text| < 2 || (!(text[0] == '\r' && text[1] == '\n') && CrlfFree(text[1..]))
  }

  lemma {:induction false} FirstLineOf(line: string, rest: string)
    requires '\n' !in line
    ensures FirstLine(line + "\n" + rest) == |line|
  {
    var s := line + "\n" + rest;
    if line != "" {
      assert s[1..] == line[1..] + "\n" + rest;
      FirstLineOf(line[1..], rest);
    }
  }

  lemma LinesOf(line: string, rest: string)
    requires '\n' !in line
    ensures Lines(line + "\n" + rest) == [DropCR(line)] + Lines(rest)
  {
    var s := line + "\n" + rest;
    FirstLineOf(line, rest);
    assert s[..|line|] == line && s[|line| + 1..] == rest;
  }

  lemma {:induction false} LinesUnlines(lines: seq<string>)
    requires AllPlain(lines)
    ensures Lines(Unlines(lines)) == lines
  {
    if lines != [] {
      LinesUnlines(lines[1..]);
      LinesOf(lines[0], Unlines(lines[1..]));
    }
  }

  // Splits off the first line of a text that has a newline.
  lemma SplitLine(text: string) returns (line: string, rest: string)
    requires FirstLine(text) < |text|
    ensures '\n' !in line && text == line + "\n" + rest
    ensures Lines(text) == [DropCR(line)] + Lines(rest)
    ensures Terminated(text) <==> Terminated(rest)
  {
    var n := FirstLine(text);
    line, rest := text[..n], text[n + 1..];
    assert text == line + "\n" + rest;
    LinesOf(line, rest);
    LastChar(line, rest);
  }

  lemma LastChar(line: string, rest: string)
    ensures Terminated(line + "\n" + rest) <==> Terminated(rest)
  {
    var text := line + "\n" + rest;
    assert text[|text| - 1] == if rest == "" then '\n' else rest[|rest| - 1];
  }

  lemma {:induction false} CrlfLine(line: string, rest: string)
    requires '\n' !in line
    ensures CrlfFree(line + "\n" + rest) <==> DropCR(line) == line && CrlfFree(rest)
  {
    var s := line + "\n" + rest;
    if line == "" {
      assert s[1..] == rest;
    } else {
      assert s[1..] == line[1..] + "\n" + rest;
      CrlfLine(line[1..], rest);
    }
  }

  lemma SameHead(x: string, a: seq<string>, b: seq<string>, c: seq<string>)
    ensures [x] + a == [x] + b + c <==> a == b + c
  {
    assert ([x] + a)[1..] == a;
    assert ([x] + b + c)[1..] == b + c;
  }

  // Text put behind a line that has its newline.
  lemma LinesBehind(line: string, rest: string, more: string)
    requires '\n' !in line
    ensures Lines(line + "\n" + rest + more) == [DropCR(line)] + Lines(rest + more)
  {
    assert line + "\n" + rest + more == line + "\n" + (rest + more);
    LinesOf(line, rest + more);
  }

  // Text put behind a line without a newline is glued to it.
  lemma GluedLine(text: string, more: string)
    requires text != "" && FirstLine(text) == |text| && more != ""
    ensures |Lines(text + more)| == |Lines(text) + Lines(more)| - 1
  {
    assert text[..|text|] == text;
    NoNewline(text);
    if FirstLine(more) < |more| {
      var line, rest := SplitLine(more);
      GluedToLine(text, line, rest);
    } else {
      assert more[..|more|] == more;
      NoNewline(text + more);
    }
  }

  lemma GluedToLine(text: string, line: string, rest: string)
    requires '\n' !in text && '\n' !in line
    ensures Lines(text + (line + "\n" + rest)) == [DropCR(text + line)] + Lines(rest)
  {
    assert text + (line + "\n" + rest) == (text + line) + "\n" + rest;
    LinesOf(text + line, rest);
  }

  lemma {:induction false} NoNewline(text: string)
    requires text != "" && '\n' !in text
    ensures FirstLine(text) == |text| && |Lines(text)| == 1
  {
    if |text| > 1 { NoNewline(text[1..]); }
  }

  // Text put behind another is read as further lines exactly if there is none or the first
  // ends in a newline.
  lemma {:induction false} AppendedLinesIff(text: string, more: string)
    ensures Lines(text + more) == Lines(text) + Lines(more) <==> more == "" || Terminated(text)
    decreases |text|
  {
    if text == "" {
      assert "" + more == more;
    } else if more == "" {
      assert text + "" == text;
    } else if FirstLine(text) < |text| {
      var line, rest := SplitLine(text);
      AppendedLinesIff(rest, more);
      LinesBehind(line, rest, more);
      SameHead(DropCR(line), Lines(rest + more), Lines(rest), Lines(more));
    } else {
      GluedLine(text, more);
    }
  }

  // Adding puts the arguments in as new lines exactly if there are none or the text ends
  // in a newline; otherwise the first one is glued to the last line.
  lemma AddedLinesIff(text: string, args: seq<string>)
    ensures Lines(Added(text, args)) == Lines(text) + Lines(Unlines(args)) <==> args == [] || Terminated(text)
    ensures AllPlain(args) ==> Lines(Unlines(args)) == args
  {
    AppendedLinesIff(text, Unlines(args));
    if AllPlain(args) { LinesUnlines(args); }
  }

  // ---- Tokens ----

  lemma Assoc(a: seq<string>, b: seq<string>, c: seq<string>)
    ensures a + b + c == a + (b + c)
  {}

  lemma {:induction false} TokensAppend(a: seq<string>, b: seq<string>)
    ensures TokensOf(a + b) == TokensOf(a) + TokensOf(b)
  {
    if a == [] {
      assert a + b == b;
    } else {
      TokensAppend(a[1..], b);
      assert (a + b)[0] == a[0] && (a + b)[1..] == a[1..] + b;
      Assoc(Carried(a[0]), TokensOf(a[1..]), TokensOf(b));
    }
  }

  lemma AddAppendsTokens(text: string, args: seq<string>)
    requires Terminated(text)
    ensures Tokens(Added(text, args)) == Tokens(text) + Tokens(Unlines(args))
    ensures AllPlain(args) ==> Tokens(Unlines(args)) == TokensOf(args)
  {
    AddedLinesIff(text, args);
    TokensAppend(Lines(text), Lines(Unlines(args)));
  }

  lemma {:induction false} UpToSpaceIs(line: string)
    ensures ' ' !in UpToSpace(line) && UpToSpace(line) <= line
    ensures UpToSpace(line) == line || line[|UpToSpace(line)|] == ' '
  {
    if line != "" && line[0] != ' ' {
      UpToSpaceIs(line[1..]);
    }
  }

  // A token is authorized exactly if some line carries it.
  lemma {:induction false} InTokens(lines: seq<string>, t: string)
    ensures t in TokensOf(lines) <==> exists i :: 0 <= i < |lines| && TokenOf(lines[i]) == Token(t)
  {
    if lines != [] {
      InTokens(lines[1..], t);
      if t in TokensOf(lines) && TokenOf(lines[0]) != Token(t) {
        var i :| 0 <= i < |lines[1..]| && TokenOf(lines[1..][i]) == Token(t);
        assert TokenOf(lines[i + 1]) == Token(t);
      }
      if exists i :: 0 < i < |lines| && TokenOf(lines[i]) == Token(t) {
        var i :| 0 < i < |lines| && TokenOf(lines[i]) == Token(t);
        assert lines[1..][i - 1] == lines[i];
      }
    }
  }

  lemma TokenOfIff(line: string, t: string)
    ensures TokenOf(line) == Token(t) <==>
      t != "" && t[0] != '#' && ' ' !in t && (line == t || Suffixed(line, t))
  {
    UpToSpaceIs(line);
    if ' ' !in t && t <= line && (line == t || Suffixed(line, t)) { UpToSpaceOf(line, t); }
  }

  // The tokens are exactly the fingerprints that the lines give.
  lemma TokensIff(text: string, t: string)
    ensures t in Tokens(text) <==> Authorizes(text, t)
  {
    AuthorizedBy(Lines(text), t);
    forall l ensures TokenOf(l) == Token(t) <==>
      t != "" && t[0] != '#' && ' ' !in t && (l == t || Suffixed(l, t))
    {
      TokenOfIff(l, t);
    }
  }

  // An argument that reads back as one line is one.
  lemma {:induction false} PlainIsLine(args: seq<string>, a: string)
    requires a in args && Plain(a)
    ensures a in Lines(Unlines(args))
  {
    var first, rest := args[0] + "\n", Unlines(args[1..]);
    AppendedLinesIff(first, rest);
    if args[0] == a {
      LinesOf(a, "");
      assert a + "\n" + "" == first;
    } else {
      PlainIsLine(args[1..], a);
    }
  }

  // Adding to a file that ends in a newline authorizes every fingerprint among the
  // arguments.
  lemma AddAuthorizes(text: string, args: seq<string>, a: string)
    requires Terminated(text) && a in args && Plain(a) && a != "" && a[0] != '#' && ' ' !in a
    ensures Authorizes(Added(text, args), a)
  {
    AddedLinesIff(text, args);
    PlainIsLine(args, a);
    assert a in Lines(Added(text, args));
  }

  // And keeps those authorized before.
  lemma AddKeeps(text: string, args: seq<string>, t: string)
    requires Terminated(text) && Authorizes(text, t)
    ensures Authorizes(Added(text, args), t)
  {
    AddAppendsTokens(text, args);
    TokensIff(text, t);
    TokensIff(Added(text, args), t);
  }

  lemma TokensAreClean(text: string, t: string)
    requires t in Tokens(text)
    ensures t != "" && ' ' !in t && t[0] != '#'
  {
    InTokens(Lines(text), t);
    var i :| 0 <= i < |Lines(text)| && TokenOf(Lines(text)[i]) == Token(t);
    UpToSpaceIs(Lines(text)[i]);
  }

  // ---- Adding and then removing ----

  lemma {:induction false} WithoutAppend(a: seq<string>, b: seq<string>, args: seq<string>)
    ensures Without(a + b, args) == Without(a, args) + Without(b, args)
  {
    if a == [] {
      assert a + b == b;
    } else {
      WithoutAppend(a[1..], b, args);
      assert (a + b)[0] == a[0] && (a + b)[1..] == a[1..] + b;
      Assoc(if a[0] in args then [] else [a[0]], Without(a[1..], args), Without(b, args));
    }
  }

  lemma {:induction false} WithoutAll(lines: seq<string>, args: seq<string>)
    requires forall i :: 0 <= i < |lines| ==> lines[i] in args
    ensures Without(lines, args) == []
  {
    if lines != [] { WithoutAll(lines[1..], args); }
  }

  // Removing shortens the text unless no line is removed.
  lemma {:induction false} WithoutShrinks(lines: seq<string>, args: seq<string>)
    ensures |Unlines(Without(lines, args))| <= |Unlines(lines)|
    ensures (forall a :: a in args ==> a !in lines) ==> Without(lines, args) == lines
    ensures !(forall a :: a in args ==> a !in lines) ==> |Unlines(Without(lines, args))| < |Unlines(lines)|
  {
    if lines != [] {
      var rest := lines[1..];
      WithoutShrinks(rest, args);
      assert lines == [lines[0]] + rest;
      if lines[0] in args {
        assert [] + Without(rest, args) == Without(rest, args);
      } else {
        assert Unlines([lines[0]] + Without(rest, args)) == lines[0] + "\n" + Unlines(Without(rest, args));
        if forall a :: a in args ==> a !in rest { assert forall a :: a in args ==> a !in lines; }
      }
    }
  }

  // Writing back what was read drops carriage returns and nothing else.
  lemma {:induction false} Rewritten(text: string)
    requires Terminated(text)
    ensures |Unlines(Lines(text))| <= |text|
    ensures CrlfFree(text) ==> Unlines(Lines(text)) == text
    ensures !CrlfFree(text) ==> |Unlines(Lines(text))| < |text|
    decreases |text|
  {
    if text != "" {
      TerminatedHasLine(text);
      var line, rest := SplitLine(text);
      CrlfLine(line, rest);
      Rewritten(rest);
    }
  }

  lemma {:induction false} TerminatedHasLine(text: string)
    requires Terminated(text) && text != ""
    ensures FirstLine(text) < |text|
  {
    if text[0] != '\n' {
      assert text[1..] != "";
      TerminatedHasLine(text[1..]);
    }
  }

  lemma {:induction false} UnlinesTerminated(lines: seq<string>)
    ensures Terminated(Unlines(lines))
  {
    if lines != [] { UnlinesTerminated(lines[1..]); }
  }

  lemma RemovedAdded(text: string, args: seq<string>)
    requires AllPlain(args) && Terminated(text)
    ensures Removed(Added(text, args), args) == Unlines(Without(Lines(text), args))
  {
    AddedLinesIff(text, args);
    WithoutAppend(Lines(text), args, args);
    WithoutAll(args, args);
    assert Without(Lines(text), args) + [] == Without(Lines(text), args);
  }

  // Adding lines and removing them again restores the file exactly if it ended in a
  // newline, had no CRLF, and none of the lines was in it before.
  lemma AddRemoveIff(text: string, args: seq<string>)
    requires AllPlain(args)
    ensures Removed(Added(text, args), args) == text <==>
      Terminated(text) && CrlfFree(text) && forall a :: a in args ==> a !in Lines(text)
  {
    UnlinesTerminated(Without(Lines(Added(text, args)), args));
    if Terminated(text) {
      RemovedAdded(text, args);
      Rewritten(text);
      WithoutShrinks(Lines(text), args);
    }
  }

  // ---- Any arguments, on a file as the commands write it ----

  lemma {:induction false} LinesArePlain(text: string)
    requires CrlfFree(text) && Terminated(text)
    ensures AllPlain(Lines(text))
    decreases |text|
  {
    if text != "" {
      TerminatedHasLine(text);
      var line, rest := SplitLine(text);
      CrlfLine(line, rest);
      LinesArePlain(rest);
    }
  }

  lemma {:induction false} LinesAreNewlineFree(text: string)
    ensures forall i :: 0 <= i < |Lines(text)| ==> '\n' !in Lines(text)[i]
    decreases |text|
  {
    if text != "" && FirstLine(text) < |text| {
      var line, rest := SplitLine(text);
      LinesAreNewlineFree(rest);
    }
  }

  // Different newline-free lines have different texts.
  lemma {:induction false} UnlinesInjective(a: seq<string>, b: seq<string>)
    requires forall i :: 0 <= i < |a| ==> '\n' !in a[i]
    requires forall i :: 0 <= i < |b| ==> '\n' !in b[i]
    requires Unlines(a) == Unlines(b)
    ensures a == b
  {
    if a == [] || b == [] {
      assert a == [] && b == [];
    } else {
      FirstLineOf(a[0], Unlines(a[1..]));
      FirstLineOf(b[0], Unlines(b[1..]));
      var n := FirstLine(Unlines(a));
      assert Unlines(a)[..n] == a[0] && Unlines(b)[..n] == b[0];
      assert Unlines(a)[n + 1..] == Unlines(a[1..]) && Unlines(b)[n + 1..] == Unlines(b[1..]);
      UnlinesInjective(a[1..], b[1..]);
      assert a == [a[0]] + a[1..] && b == [b[0]] + b[1..];
    }
  }

  // On such a file, whatever the arguments: adding and removing them restores it exactly
  // if none of its lines is an argument and every line they are read back as is one.
  lemma AddRemoveAnyIff(text: string, args: seq<string>)
    requires Terminated(text) && CrlfFree(text)
    ensures Removed(Added(text, args), args) == text <==>
      (forall a :: a in args ==> a !in Lines(text)) && (forall l :: l in Lines(Unlines(args)) ==> l in args)
  {
    var was, typed := Lines(text), Lines(Unlines(args));
    AddedLinesIff(text, args);
    WithoutAppend(was, typed, args);
    Rewritten(text);
    var kept := Without(was + typed, args);
    LinesAreNewlineFree(text);
    LinesAreNewlineFree(Unlines(args));
    forall i | 0 <= i < |kept| ensures kept[i] in was + typed && kept[i] !in args && '\n' !in kept[i] {
      InWithout(was + typed, args, kept[i]);
    }
    if Unlines(kept) == text {
      UnlinesInjective(kept, was);
      KeptAll(was, typed, args);
    } else if (forall a :: a in args ==> a !in was) && (forall l :: l in typed ==> l in args) {
      KeptAll(was, typed, args);
    }
  }

  lemma KeptAll(a: seq<string>, b: seq<string>, args: seq<string>)
    ensures Without(a + b, args) == a <==> (forall x :: x in args ==> x !in a) && (forall l :: l in b ==> l in args)
  {
    WithoutAppend(a, b, args);
    WithoutShrinks(a, args);
    if forall l :: l in b ==> l in args {
      WithoutAll(b, args);
      assert Without(a, args) + [] == Without(a, args);
    }
    forall x | x in Without(a + b, args) ensures x !in args {
      InWithout(a + b, args, x);
    }
    if Without(a + b, args) == a {
      assert Without(a, args) == a;
      forall l | l in b ensures l in args {
        if l !in args { InWithout(b, args, l); }
      }
    }
  }

  // ---- Revoking ----

  lemma {:induction false} InWithout(lines: seq<string>, args: seq<string>, l: string)
    ensures l in Without(lines, args) <==> l in lines && l !in args
  {
    if lines != [] {
      InWithout(lines[1..], args, l);
      assert lines == [lines[0]] + lines[1..];
    }
  }

  lemma RemovedLines(text: string, args: seq<string>)
    requires AllPlain(Lines(text))
    ensures Lines(Removed(text, args)) == Without(Lines(text), args)
  {
    var kept := Without(Lines(text), args);
    forall i | 0 <= i < |kept| ensures Plain(kept[i]) {
      InWithout(Lines(text), args, kept[i]);
    }
    LinesUnlines(kept);
  }

  lemma {:induction false} UpToSpaceOf(line: string, a: string)
    requires ' ' !in a && a <= line && (|a| < |line| ==> line[|a|] == ' ')
    ensures UpToSpace(line) == a
  {
    if a != "" {
      UpToSpaceOf(line[1..], a[1..]);
    }
  }

  lemma TokenIsIff(line: string, a: string)
    requires ' ' !in a
    ensures TokenOf(line) == Token(a) && line != a <==> Suffixed(line, a)
  {
    UpToSpaceIs(line);
    if Suffixed(line, a) { UpToSpaceOf(line, a); }
  }

  lemma AuthorizedAfter(text: string, args: seq<string>, t: string)
    requires AllPlain(Lines(text))
    ensures t in Tokens(Removed(text, args)) <==>
      exists l :: l in Lines(text) && l !in args && TokenOf(l) == Token(t)
  {
    RemovedLines(text, args);
    var kept := Without(Lines(text), args);
    InTokens(kept, t);
    if t in TokensOf(kept) {
      var i :| 0 <= i < |kept| && TokenOf(kept[i]) == Token(t);
      InWithout(Lines(text), args, kept[i]);
    }
    if exists l :: l in Lines(text) && l !in args && TokenOf(l) == Token(t) {
      var l :| l in Lines(text) && l !in args && TokenOf(l) == Token(t);
      InWithout(Lines(text), args, l);
      var i :| 0 <= i < |kept| && kept[i] == l;
    }
  }

  // Removing space-free arguments revokes exactly them exactly if no line of the file is
  // one of them with a name behind it: removal compares whole lines.
  lemma RevokesExactlyIff(text: string, args: seq<string>)
    requires AllPlain(Lines(text)) && forall a :: a in args ==> ' ' !in a
    ensures (forall t :: t in Tokens(Removed(text, args)) <==> t in Tokens(text) && t !in args) <==>
      forall l, a :: l in Lines(text) && a in args ==> !Suffixed(l, a)
  {
    if l, a :| l in Lines(text) && a in args && Suffixed(l, a) {
      TokenIsIff(l, a);
      assert l[|a|] == ' ' && l !in args;
      AuthorizedAfter(text, args, a);
    } else {
      forall t ensures t in Tokens(Removed(text, args)) <==> t in Tokens(text) && t !in args {
        RevokesToken(text, args, t);
      }
    }
  }

  lemma RevokesToken(text: string, args: seq<string>, t: string)
    requires AllPlain(Lines(text)) && forall a :: a in args ==> ' ' !in a
    requires forall l, a :: l in Lines(text) && a in args ==> !Suffixed(l, a)
    ensures t in Tokens(Removed(text, args)) <==> t in Tokens(text) && t !in args
  {
    AuthorizedAfter(text, args, t);
    AuthorizedBy(Lines(text), t);
    forall l | l in Lines(text) && TokenOf(l) == Token(t) ensures l in args <==> t in args {
      KeptIff(l, args, t);
    }
  }

  lemma AuthorizedBy(lines: seq<string>, t: string)
    ensures t in TokensOf(lines) <==> exists l :: l in lines && TokenOf(l) == Token(t)
  {
    InTokens(lines, t);
  }

  // Without names behind them, a line goes exactly when its token does.
  lemma KeptIff(l: string, args: seq<string>, t: string)
    requires forall a :: a in args ==> ' ' !in a && !Suffixed(l, a)
    requires TokenOf(l) == Token(t)
    ensures l in args <==> t in args
  {
    UpToSpaceIs(l);
    TokenIsIff(l, t);
  }
}
