/** Splitting a SQL script into statements, line by line. */
module Statements {
  import opened Wrappers

  // ---------------------------------------------------------------------------
  // Lines
  // ---------------------------------------------------------------------------

  /** Unicode White_Space. */
  predicate IsWhite(c: char) {
    var n := c as int;
    || 0x9 <= n <= 0xd || n == 0x20 || n == 0x85 || n == 0xa0 || n == 0x1680
    || 0x2000 <= n <= 0x200a || n == 0x2028 || n == 0x2029 || n == 0x202f || n == 0x205f || n == 0x3000
  }

  function TrimEnd(s: string): (r: string)
    ensures r <= s
    ensures r != [] ==> !IsWhite(r[|r| - 1])
    ensures forall i | |r| <= i < |s| :: IsWhite(s[i])
  {
    if s == [] || !IsWhite(s[|s| - 1]) then s else TrimEnd(s[..|s| - 1])
  }

  predicate IsComment(line: string) { "--" <= line }
  predicate EndsStatement(line: string) { line != [] && line[|line| - 1] == ';' }

  /** The lines that count, trimmed; reading stops at the first line that cannot be read. */
  function Kept(lines: seq<Option<string>>): seq<string> {
    if lines == [] || lines[0].None? then []
    else if IsComment(lines[0].value) then Kept(lines[1..])
    else [TrimEnd(lines[0].value)] + Kept(lines[1..])
  }

  // ---------------------------------------------------------------------------
  // The splitter
  // ---------------------------------------------------------------------------

  /** The statements of the kept lines, `query` being what has been collected so far. */
  function Split(query: string, kept: seq<string>): seq<string>
    decreases |kept|
  {
    if kept == [] then (if query == [] then [] else [query])
    else if EndsStatement(kept[0]) then [query + kept[0]] + Split("", kept[1..])
    else Split(query + kept[0] + "\n", kept[1..])
  }

  /** What is executed, in order. */
  method ExecFromLines(lines: seq<Option<string>>) returns (executed: seq<string>)
    ensures executed == Split("", Kept(lines))
  {
    var query := "";
    executed := [];
    var i := 0;
    ghost var rest := lines;
    while i < |lines|
      invariant 0 <= i <= |lines| && rest == lines[i..]
      invariant executed + Split(query, Kept(rest)) == Split("", Kept(lines))
    {
      match lines[i] {
        case None =>
          break;
        case Some(text) =>
          if "--" <= text {
            assert Kept(rest) == Kept(rest[1..]);
          } else {
            var line := TrimEnd(text);
            assert Kept(rest) == [line] + Kept(rest[1..]);
            assert ([line] + Kept(rest[1..]))[1..] == Kept(rest[1..]);
            if EndsStatement(line) {
              executed := executed + [query + line];
              query := "";
            } else {
              query := query + line + "\n";
            }
          }
      }
      i := i + 1;
      rest := rest[1..];
    }
    if query != [] {
      executed := executed + [query];
    }
  }

  // ---------------------------------------------------------------------------
  // Nothing is lost, nothing is made up
  // ---------------------------------------------------------------------------

  function Concat(parts: seq<string>): string {
    if parts == [] then "" else parts[0] + Concat(parts[1..])
  }

  /** A kept line as it appears in a statement. */
  function Rendered(line: string): string {
    if EndsStatement(line) then line else line + "\n"
  }

  function RenderedAll(kept: seq<string>): string {
    if kept == [] then "" else Rendered(kept[0]) + RenderedAll(kept[1..])
  }

  lemma {:induction false} Reassembly(query: string, kept: seq<string>)
    ensures Concat(Split(query, kept)) == query + RenderedAll(kept)
    decreases |kept|
  {
    if kept == [] {
      if query != [] { assert [query][1..] == []; }
    } else if EndsStatement(kept[0]) {
      Reassembly("", kept[1..]);
      var rest := Split("", kept[1..]);
      assert ([query + kept[0]] + rest)[1..] == rest;
    } else {
      Reassembly(query + kept[0] + "\n", kept[1..]);
      assert (query + kept[0] + "\n") + RenderedAll(kept[1..]) == query + (kept[0] + "\n" + RenderedAll(kept[1..]));
    }
  }

  // ---------------------------------------------------------------------------
  // A statement ends with the first line that ends in a semicolon
  // ---------------------------------------------------------------------------

  function Flatten(groups: seq<seq<string>>): seq<string> {
    if groups == [] then [] else groups[0] + Flatten(groups[1..])
  }

  /** Some lines, of which none but the last may end a statement. */
  predicate IsGroup(g: seq<string>) {
    g != [] && forall j | 0 <= j < |g| - 1 :: !EndsStatement(g[j])
  }

  /** The lines cut into groups, all of which but the last end with a line that ends a statement. */
  predicate IsGrouping(groups: seq<seq<string>>, lines: seq<string>) {
    && Flatten(groups) == lines
    && (forall i | 0 <= i < |groups| :: IsGroup(groups[i]))
    && (forall i | 0 <= i < |groups| - 1 :: EndsStatement(groups[i][|groups[i]| - 1]))
  }

  lemma {:induction false} RenderedConcat(a: seq<string>, b: seq<string>)
    ensures RenderedAll(a + b) == RenderedAll(a) + RenderedAll(b)
  {
    if a == [] {
      assert a + b == b;
    } else {
      RenderedConcat(a[1..], b);
      assert (a + b)[1..] == a[1..] + b && (a + b)[0] == a[0];
      Associative(Rendered(a[0]), RenderedAll(a[1..]), RenderedAll(b));
    }
  }

  lemma Associative(a: string, b: string, c: string)
    ensures a + (b + c) == a + b + c
  {
  }

  lemma RenderedOne(line: string)
    ensures RenderedAll([line]) == Rendered(line)
  {
    assert [line][1..] == [];
    assert RenderedAll([]) == "";
  }

  lemma {:induction false} RenderedSome(lines: seq<string>)
    requires lines != [] && !EndsStatement(lines[0])
    ensures RenderedAll(lines) != []
  {
  }

  lemma OneMoreGroup(g: seq<string>, rest: seq<seq<string>>, lines: seq<string>)
    requires IsGroup(g) && IsGrouping(rest, lines) && (rest != [] ==> EndsStatement(g[|g| - 1]))
    ensures IsGrouping([g] + rest, g + lines)
  {
    var groups := [g] + rest;
    assert groups[1..] == rest;
    forall i | 0 <= i < |groups| - 1 ensures EndsStatement(groups[i][|groups[i]| - 1]) {
      if 0 < i { assert groups[i] == rest[i - 1]; }
    }
  }

  /** The groups of the kept lines after the lines `open`, none of which ends a statement. */
  function Groups(open: seq<string>, kept: seq<string>): seq<seq<string>>
    decreases |kept|
  {
    if kept == [] then (if open == [] then [] else [open])
    else if EndsStatement(kept[0]) then [open + [kept[0]]] + Groups([], kept[1..])
    else Groups(open + [kept[0]], kept[1..])
  }

  lemma OpenGroup(open: seq<string>)
    requires forall j | 0 <= j < |open| :: !EndsStatement(open[j])
    ensures IsGrouping(Groups(open, []), open)
  {
    if open != [] {
      assert [open][1..] == [];
      assert Flatten([open]) == open + Flatten([]);
    }
  }

  lemma {:induction false} GroupsGroup(open: seq<string>, kept: seq<string>)
    requires forall j | 0 <= j < |open| :: !EndsStatement(open[j])
    ensures IsGrouping(Groups(open, kept), open + kept)
    decreases |kept|
  {
    if kept == [] {
      OpenGroup(open);
      assert open + kept == open;
    } else {
      var more, rest := open + [kept[0]], kept[1..];
      assert more + rest == open + kept;
      if EndsStatement(kept[0]) {
        GroupsGroup([], rest);
        assert [] + rest == rest;
        OneMoreGroup(more, Groups([], rest), rest);
      } else {
        GroupsGroup(more, rest);
      }
    }
  }

  lemma {:induction false} SplitRendersGroups(open: seq<string>, kept: seq<string>)
    requires forall j | 0 <= j < |open| :: !EndsStatement(open[j])
    ensures var s, groups := Split(RenderedAll(open), kept), Groups(open, kept);
      |s| == |groups| && forall i | 0 <= i < |s| :: s[i] == RenderedAll(groups[i])
    decreases |kept|
  {
    if kept == [] {
      if open != [] { RenderedSome(open); }
    } else {
      RenderedConcat(open, [kept[0]]);
      RenderedOne(kept[0]);
      if EndsStatement(kept[0]) {
        SplitRendersGroups([], kept[1..]);
      } else {
        SplitRendersGroups(open + [kept[0]], kept[1..]);
        assert RenderedAll(open) + kept[0] + "\n" == RenderedAll(open) + (kept[0] + "\n");
      }
    }
  }

  lemma NoGroups(groups: seq<seq<string>>, lines: seq<string>)
    requires IsGrouping(groups, lines)
    ensures groups == [] <==> lines == []
  {
    if groups != [] { assert IsGroup(groups[0]); }
  }

  /** Lines can be grouped so in one way only. */
  lemma {:induction false} GroupingUnique(a: seq<seq<string>>, b: seq<seq<string>>, lines: seq<string>)
    requires IsGrouping(a, lines) && IsGrouping(b, lines)
    ensures a == b
  {
    NoGroups(a, lines);
    NoGroups(b, lines);
    if a != [] && b != [] {
      var f, g := a[0], b[0];
      assert lines == f + Flatten(a[1..]) == g + Flatten(b[1..]);
      FirstGroupLength(f, Flatten(a[1..]), g, Flatten(b[1..]), |a| == 1);
      FirstGroupLength(g, Flatten(b[1..]), f, Flatten(a[1..]), |b| == 1);
      assert f == lines[..|f|] && g == lines[..|g|];
      assert Flatten(a[1..]) == lines[|f|..] && Flatten(b[1..]) == lines[|g|..];
      GroupingUnique(a[1..], b[1..], lines[|f|..]);
      assert a == [f] + a[1..] && b == [g] + b[1..];
    }
  }

  lemma FirstGroupLength(f: seq<string>, x: seq<string>, g: seq<string>, y: seq<string>, last: bool)
    requires f + x == g + y && IsGroup(f) && IsGroup(g)
    requires if last then x == [] else EndsStatement(f[|f| - 1])
    ensures |g| <= |f|
  {
    assert |f + x| == |g + y|;
    if |f| <= |g| {
      assert f[|f| - 1] == (f + x)[|f| - 1] == (g + y)[|f| - 1] == g[|f| - 1];
    }
  }

  /** The statements are the kept lines cut after each line that ends in a semicolon and nowhere
      else: every statement renders a group, and its lines before the last do not end it. */
  lemma StatementEnds(kept: seq<string>, groups: seq<seq<string>>)
    requires IsGrouping(groups, kept)
    ensures var s := Split("", kept);
      |s| == |groups| && forall i | 0 <= i < |s| :: s[i] == RenderedAll(groups[i])
  {
    GroupsGroup([], kept);
    assert [] + kept == kept;
    GroupingUnique(groups, Groups([], kept), kept);
    SplitRendersGroups([], kept);
    assert RenderedAll([]) == "";
  }

  // ---------------------------------------------------------------------------
  // Splitting again
  // ---------------------------------------------------------------------------

  /** Statements written back to a script, each on lines of its own. */
  function Script(statements: seq<string>): string {
    if statements == [] then ""
    else
      var s := statements[0];
      (if EndsStatement(s) then s + "\n" else s) + Script(statements[1..])
  }

  /** Reading a text line by line: lines end with a newline, the last one perhaps without, and a
      carriage return before it goes too. `line` is what has been read of the current line. */
  function LinesOf(line: string, text: string): seq<Option<string>>
    decreases |text|
  {
    if text == [] then (if line == [] then [] else [Some(line)])
    else if text[0] == '\n' then [Some(NoReturn(line))] + LinesOf("", text[1..])
    else LinesOf(line + [text[0]], text[1..])
  }

  function NoReturn(line: string): string {
    if line != [] && line[|line| - 1] == '\r' then line[..|line| - 1] else line
  }

  /** A line as `Kept` leaves it. */
  predicate Clean(line: string) {
    '\n' !in line && !IsComment(line) && TrimEnd(line) == line
  }

  lemma {:induction false} KeptAreClean(lines: seq<Option<string>>, i: nat)
    requires forall j | 0 <= j < |lines| && lines[j].Some? :: '\n' !in lines[j].value
    requires i < |Kept(lines)|
    ensures Clean(Kept(lines)[i])
  {
    if IsComment(lines[0].value) {
      KeptAreClean(lines[1..], i);
    } else if i > 0 {
      KeptAreClean(lines[1..], i - 1);
    } else {
      var line := lines[0].value;
      TrimIsClean(line);
    }
  }

  lemma TrimIsClean(line: string)
    requires '\n' !in line && !IsComment(line)
    ensures Clean(TrimEnd(line))
  {
    var t := TrimEnd(line);
    assert forall i | 0 <= i < |t| :: t[i] == line[i];
    assert "--" <= t ==> "--" <= line;
    assert t == [] || !IsWhite(t[|t| - 1]);
  }

  lemma ReadCleanLine(line: string, rest: string)
    requires Clean(line)
    ensures LinesOf("", line + "\n" + rest) == [Some(line)] + LinesOf("", rest)
  {
    ReadLine("", line, rest);
    assert line + "\n" + rest == line + ("\n" + rest);
    assert "" + line == line;
    CleanHasNoReturn(line);
  }

  lemma KeepCleanLine(line: string, lines: seq<Option<string>>)
    requires Clean(line)
    ensures Kept([Some(line)] + lines) == [line] + Kept(lines)
  {
    assert ([Some(line)] + lines)[1..] == lines;
  }

  /** The lines of clean lines, each with its newline, are those lines. */
  lemma {:induction false} LinesOfClean(kept: seq<string>)
    requires forall i | 0 <= i < |kept| :: Clean(kept[i])
    ensures Kept(LinesOf("", Texts(kept))) == kept
  {
    if kept != [] {
      LinesOfClean(kept[1..]);
      ReadCleanLine(kept[0], Texts(kept[1..]));
      KeepCleanLine(kept[0], LinesOf("", Texts(kept[1..])));
    }
  }

  function Texts(kept: seq<string>): string {
    if kept == [] then "" else kept[0] + "\n" + Texts(kept[1..])
  }

  lemma CleanHasNoReturn(line: string)
    requires Clean(line)
    ensures NoReturn(line) == line
  {
    if line != [] { assert !IsWhite(line[|line| - 1]); }
  }

  lemma {:induction false} ReadLine(read: string, line: string, rest: string)
    requires '\n' !in line
    ensures LinesOf(read, line + ("\n" + rest)) == [Some(NoReturn(read + line))] + LinesOf("", rest)
    decreases |line|
  {
    var text := line + ("\n" + rest);
    if line == [] {
      assert text == "\n" + rest && text[1..] == rest && read + line == read;
    } else {
      assert text[0] == line[0] && text[1..] == line[1..] + ("\n" + rest);
      ReadLine(read + [line[0]], line[1..], rest);
      assert read + [line[0]] + line[1..] == read + line;
    }
  }

  /** Writing the statements of clean lines back gives those lines, each on its own. */
  lemma {:induction false} ScriptIsLines(query: string, kept: seq<string>)
    requires query == [] || query[|query| - 1] == '\n'
    ensures Script(Split(query, kept)) == query + Texts(kept)
    decreases |kept|
  {
    if kept == [] {
      if query != [] { assert [query][1..] == []; }
    } else if EndsStatement(kept[0]) {
      ScriptIsLines("", kept[1..]);
      var rest := Split("", kept[1..]);
      assert ([query + kept[0]] + rest)[1..] == rest;
      assert (query + kept[0]) + "\n" + Texts(kept[1..]) == query + (kept[0] + "\n" + Texts(kept[1..]));
    } else {
      ScriptIsLines(query + kept[0] + "\n", kept[1..]);
      assert (query + kept[0] + "\n") + Texts(kept[1..]) == query + (kept[0] + "\n" + Texts(kept[1..]));
    }
  }

  /** The main result: writing the executed statements to a script and splitting that again
      gives the same statements. */
  lemma SplitAgain(lines: seq<Option<string>>)
    requires forall j | 0 <= j < |lines| && lines[j].Some? :: '\n' !in lines[j].value
    ensures var executed := Split("", Kept(lines));
      Split("", Kept(LinesOf("", Script(executed)))) == executed
  {
    var kept := Kept(lines);
    forall i | 0 <= i < |kept| ensures Clean(kept[i]) { KeptAreClean(lines, i); }
    ScriptIsLines("", kept);
    assert "" + Texts(kept) == Texts(kept);
    LinesOfClean(kept);
  }
}
