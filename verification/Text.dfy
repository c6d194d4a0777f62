/** Character classes and whitespace stripping, as Python's `str` methods treat them. */
module Text {

  /** `str.isspace`; `\s` in `re` accepts the same set. */
  predicate IsSpace(c: char) {
    var n := c as int;
    (9 <= n <= 13) || (28 <= n <= 32) || n == 0x85 || n == 0xA0 || n == 0x1680 || (0x2000 <= n <= 0x200A)
    || n == 0x2028 || n == 0x2029 || n == 0x202F || n == 0x205F || n == 0x3000
  }

  predicate IsBlank(s: string) {
    forall c :: c in s ==> IsSpace(c)
  }

  /** The characters `str.splitlines` breaks at. */
  predicate IsBreak(c: char) {
    var n := c as int;
    (10 <= n <= 13) || (28 <= n <= 30) || n == 0x85 || n == 0x2028 || n == 0x2029
  }

  /** The position of the first line break, or the length. */
  function FirstBreak(s: string): (i: nat)
    ensures i <= |s|
    ensures forall k :: 0 <= k < i ==> !IsBreak(s[k])
    ensures i < |s| ==> IsBreak(s[i])
  {
    if s == [] || IsBreak(s[0]) then 0 else 1 + FirstBreak(s[1..])
  }

  /** `str.splitlines`: a carriage return followed by a line feed is one break. */
  function SplitLines(s: string): seq<string>
    decreases |s|
  {
    if s == [] then []
    else
      var i := FirstBreak(s);
      if i == |s| then [s]
      else
        var next := if s[i] == '\r' && i + 1 < |s| && s[i + 1] == '\n' then i + 2 else i + 1;
        [s[..i]] + SplitLines(s[next..])
  }

  function StripLeft(s: string): (r: string)
    ensures r != [] ==> !IsSpace(r[0])
    ensures |r| <= |s| && r == s[|s| - |r|..]
    ensures forall k :: 0 <= k < |s| - |r| ==> IsSpace(s[k])
  {
    if s != [] && IsSpace(s[0]) then StripLeft(s[1..]) else s
  }

  function StripRight(s: string): (r: string)
    ensures r != [] ==> !IsSpace(r[|r| - 1])
    ensures |r| <= |s| && r == s[..|r|]
  {
    if s != [] && IsSpace(s[|s| - 1]) then StripRight(s[..|s| - 1]) else s
  }

  function Strip(s: string): string {
    StripRight(StripLeft(s))
  }

  function Join(parts: seq<string>, sep: string): string {
    if parts == [] then []
    else if |parts| == 1 then parts[0]
    else parts[0] + sep + Join(parts[1..], sep)
  }

  /** Nonempty, with no white space at either end. */
  predicate Trimmed(s: string) {
    s != [] && !IsSpace(s[0]) && !IsSpace(s[|s| - 1])
  }

  predicate OneLine(s: string) {
    forall k :: 0 <= k < |s| ==> !IsBreak(s[k])
  }

  lemma StripOfTrimmed(s: string)
    requires Trimmed(s)
    ensures Strip(s) == s
  {
  }

  lemma StripDropsNewline(s: string)
    requires Trimmed(s)
    ensures Strip(s + "\n") == s
  {
    var t := s + "\n";
    assert t[0] == s[0] && StripLeft(t) == t;
    assert t[|t| - 1] == '\n' && t[..|t| - 1] == s;
    assert StripRight(t) == StripRight(s);
  }

  lemma StripIsTrimmed(s: string)
    ensures Strip(s) == [] || Trimmed(Strip(s))
    ensures OneLine(s) ==> OneLine(Strip(s))
  {
    var l := StripLeft(s);
    var r := StripRight(l);
    if r != [] { assert r[0] == l[0]; }
    if OneLine(s) {
      forall k | 0 <= k < |r| ensures !IsBreak(r[k]) {
        assert r[k] == l[k] == s[|s| - |l| + k];
      }
    }
  }

  lemma {:induction false} LinesHaveNoBreaks(s: string)
    ensures forall line :: line in SplitLines(s) ==> OneLine(line)
    decreases |s|
  {
    if s != [] {
      var i := FirstBreak(s);
      if i < |s| {
        var next := if s[i] == '\r' && i + 1 < |s| && s[i + 1] == '\n' then i + 2 else i + 1;
        LinesHaveNoBreaks(s[next..]);
      }
    }
  }

  /** A line in front of a newline is split off. */
  lemma SplitFirst(line: string, rest: string)
    requires OneLine(line)
    ensures SplitLines(line + ("\n" + rest)) == [line] + SplitLines(rest)
  {
    var s := line + ("\n" + rest);
    FirstBreakAt(line, "\n" + rest);
    hide FirstBreak;
    hide OneLine;
    assert s[|line|] == '\n';
    assert s[|line| + 1..] == rest && s[..|line|] == line;
  }

  /** The ten characters that end a line; all of them are white space. */
  lemma BreaksAre(c: char)
    ensures IsBreak(c) <==>
              c in {'\n', '\U{0B}', '\U{0C}', '\r', '\U{1C}', '\U{1D}', '\U{1E}', '\U{85}', '\U{2028}', '\U{2029}'}
    ensures IsBreak(c) ==> IsSpace(c)
  {
  }

  /** Besides line breaks: tab, the unit separator and the blanks of the various scripts. */
  lemma SpacesAre(c: char)
    ensures IsSpace(c) && !IsBreak(c) <==>
              || c in {'\t', '\U{1F}', ' ', '\U{A0}', '\U{1680}', '\U{202F}', '\U{205F}', '\U{3000}'}
              || '\U{2000}' <= c <= '\U{200A}'
  {
  }

  /** Each break ends one line, and a carriage return with its line feed is one break. */
  lemma SplitAtBreak(line: string, c: char, rest: string)
    requires OneLine(line) && IsBreak(c) && !(c == '\r' && rest != "" && rest[0] == '\n')
    ensures SplitLines(line + ([c] + rest)) == [line] + SplitLines(rest)
  {
    var s := line + ([c] + rest);
    FirstBreakAt(line, [c] + rest);
    hide FirstBreak;
    hide OneLine;
    hide IsBreak;
    assert s[|line|] == c && s[|line| + 1..] == rest && s[..|line|] == line;
    assert |line| + 1 < |s| ==> s[|line| + 1] == rest[0];
  }

  lemma SplitAtReturn(line: string, rest: string)
    requires OneLine(line)
    ensures SplitLines(line + ("\r\n" + rest)) == [line] + SplitLines(rest)
  {
    var s := line + ("\r\n" + rest);
    FirstBreakAt(line, "\r\n" + rest);
    hide FirstBreak;
    hide OneLine;
    assert s[|line|] == '\r' && s[|line| + 1] == '\n' && s[|line| + 2..] == rest && s[..|line|] == line;
  }

  /** What is left after the last break is a line of its own, unless it is empty. */
  lemma SplitLast(line: string)
    requires OneLine(line)
    ensures SplitLines(line) == if line == "" then [] else [line]
  {
    FirstBreakAt(line, "");
    assert line + "" == line;
  }

  /** Lines with something in them and no line break. */
  predicate PlainLines(lines: seq<string>) {
    forall line :: line in lines ==> line != [] && OneLine(line)
  }

  lemma PlainLinesTail(lines: seq<string>)
    requires lines != [] && PlainLines(lines)
    ensures lines[0] != [] && OneLine(lines[0]) && PlainLines(lines[1..])
  {
    hide OneLine;
    assert lines[0] in lines;
    forall l | l in lines[1..] ensures l != [] && OneLine(l) { assert l in lines; }
  }

  lemma JoinFirst(lines: seq<string>)
    requires |lines| > 1
    ensures Join(lines, "\n") == lines[0] + ("\n" + Join(lines[1..], "\n"))
  {
    var first, rest := lines[0], Join(lines[1..], "\n");
    assert Join(lines, "\n") == (first + "\n") + rest;
    assert (first + "\n") + rest == first + ("\n" + rest);
  }

  /** Joining break-free, nonempty lines with newlines and splitting again gives the lines back. */
  lemma {:induction false} SplitJoin(lines: seq<string>)
    requires PlainLines(lines)
    ensures SplitLines(Join(lines, "\n")) == lines
  {
    if |lines| == 1 {
      FirstBreakAt(lines[0], []);
      assert lines[0] + [] == lines[0];
    } else if |lines| > 1 {
      hide *;
      PlainLinesTail(lines);
      SplitJoin(lines[1..]);
      JoinFirst(lines);
      SplitFirst(lines[0], Join(lines[1..], "\n"));
      assert lines == [lines[0]] + lines[1..];
    }
  }

  lemma {:induction false} FirstBreakAt(line: string, rest: string)
    requires OneLine(line) && (rest != [] ==> IsBreak(rest[0]))
    ensures FirstBreak(line + rest) == |line|
  {
    assert forall k :: 0 <= k < |line| ==> (line + rest)[k] == line[k];
    assert rest != [] ==> (line + rest)[|line|] == rest[0];
  }

  lemma {:induction false} JoinIsTrimmed(lines: seq<string>)
    requires lines != [] && forall line :: line in lines ==> Trimmed(line)
    ensures Trimmed(Join(lines, "\n"))
    ensures Join(lines, "\n")[0] == lines[0][0]
  {
    assert Trimmed(lines[0]);
    if |lines| > 1 {
      JoinIsTrimmed(lines[1..]);
      var rest := Join(lines[1..], "\n");
      var s := lines[0] + "\n" + rest;
      assert s[0] == lines[0][0] && s[|s| - 1] == rest[|rest| - 1];
    }
  }

  // ---- the characters that are not white space ----

  /** A text without its white space. */
  function Ink(s: string): string {
    if s == [] then []
    else if IsSpace(s[0]) then Ink(s[1..])
    else [s[0]] + Ink(s[1..])
  }

  lemma {:induction false} InkAppends(a: string, b: string)
    ensures Ink(a + b) == Ink(a) + Ink(b)
  {
    hide IsSpace;
    if a == [] {
      assert a + b == b;
    } else {
      assert (a + b)[1..] == a[1..] + b;
      InkAppends(a[1..], b);
    }
  }

  lemma {:induction false} InkOfBlank(s: string)
    ensures Ink(s) == [] <==> IsBlank(s)
  {
    hide IsSpace;
    if s != [] {
      InkOfBlank(s[1..]);
      assert s == [s[0]] + s[1..];
    }
  }

  lemma BlankPrefix(s: string, n: nat)
    requires n <= |s| && forall k :: 0 <= k < n ==> IsSpace(s[k])
    ensures Ink(s) == Ink(s[n..])
  {
    hide IsSpace;
    assert s == s[..n] + s[n..];
    InkAppends(s[..n], s[n..]);
    InkOfBlank(s[..n]);
  }

  lemma {:induction false} StripRightKeepsInk(s: string)
    ensures Ink(StripRight(s)) == Ink(s)
  {
    if s != [] && IsSpace(s[|s| - 1]) {
      var n := |s| - 1;
      assert s == s[..n] + [s[n]];
      InkAppends(s[..n], [s[n]]);
      assert Ink([s[n]]) == Ink([s[n]][1..]);
      hide IsSpace;
      StripRightKeepsInk(s[..n]);
    }
  }

  /** Stripping takes away white space only. */
  lemma StripKeepsInk(s: string)
    ensures Ink(Strip(s)) == Ink(s)
  {
    hide IsSpace;
    var l := StripLeft(s);
    BlankPrefix(s, |s| - |l|);
    StripRightKeepsInk(l);
  }

  lemma NewlineIsBlank()
    ensures Ink(" ") == "" && Ink("\n") == ""
  {
    InkOfBlank(" ");
    InkOfBlank("\n");
  }

  lemma AppendNothing<T>(a: seq<T>)
    ensures a + [] == a && [] + a == a
  {
  }

  lemma Regroup<T>(a: seq<T>, b: seq<T>, c: seq<T>)
    ensures (a + b) + c == a + (b + c)
  {
  }

  /** White space at the end of a text. */
  lemma InkOfEnd(a: string, blank: string)
    requires Ink(blank) == ""
    ensures Ink(a + blank) == Ink(a)
  {
    hide *;
    InkAppends(a, blank);
    AppendNothing(Ink(a));
  }

  lemma InkOfLine(a: string, b: string)
    ensures Ink(((a + " ") + b) + "\n") == Ink(a) + Ink(b)
    ensures Ink(b + "\n") == Ink(b)
  {
    hide *;
    NewlineIsBlank();
    var head := a + " ";
    var line := head + b;
    InkOfEnd(line, "\n");
    InkOfEnd(b, "\n");
    InkAppends(head, b);
    InkOfEnd(a, " ");
  }

  lemma {:induction false} JoinSnoc(parts: seq<string>, part: string)
    ensures Join(parts + [part], "\n") == if parts == [] then part else Join(parts, "\n") + ("\n" + part)
  {
    if parts == [] {
      assert parts + [part] == [part];
    } else {
      assert (parts + [part])[1..] == parts[1..] + [part];
      JoinSnoc(parts[1..], part);
      if |parts| == 1 {
        assert parts[0] + "\n" + part == parts[0] + ("\n" + part);
      } else {
        var rest := Join(parts[1..], "\n");
        assert parts[0] + "\n" + (rest + ("\n" + part)) == (parts[0] + "\n" + rest) + ("\n" + part);
      }
    }
  }

  lemma InkOfJoin(parts: seq<string>, part: string)
    ensures Ink(Join(parts + [part], "\n")) == Ink(Join(parts, "\n")) + Ink(part)
  {
    JoinSnoc(parts, part);
    assert parts == [] ==> Join(parts, "\n") == [] && Ink(Join(parts, "\n")) == [];
    hide *;
    if parts != [] {
      NewlineIsBlank();
      var tail := "\n" + part;
      InkAppends(Join(parts, "\n"), tail);
      InkAppends("\n", part);
      AppendNothing(Ink(part));
    } else {
      AppendNothing(Ink(part));
    }
  }

  lemma StripIsEmptyIff(s: string)
    ensures Strip(s) == "" <==> Ink(s) == ""
  {
    StripKeepsInk(s);
    StripIsTrimmed(s);
    if Strip(s) != "" {
      InkOfBlank(Strip(s));
      assert Strip(s)[0] in Strip(s);
    }
  }
}
