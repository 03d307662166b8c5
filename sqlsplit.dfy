/**
 * The schema-file splitter of the ClickHouse client
 * (internal/clickhouse/client.go): `splitLines` cuts a text at '\n', and
 * `splitSQL` groups the lines into statements that end at a line whose
 * trimmed text ends with ';'.
 */
module SqlSplit {
  import opened Strings

  /**
   * Splitting at every '\n', so that k newlines give k + 1 pieces; defined
   * from the right, one character at a time.
   */
  function Pieces(s: string): (p: seq<string>)
    ensures |p| >= 1
  {
    if |s| == 0 then [""]
    else
      var init := Pieces(s[..|s| - 1]);
      if s[|s| - 1] == '\n' then init + [""]
      else init[..|init| - 1] + [init[|init| - 1] + [s[|s| - 1]]]
  }

  /**
   * What `splitLines` returns: the pieces, less the empty last piece that a
   * final newline (or the empty text) leaves.
   */
  function Lines(s: string): seq<string> {
    var p := Pieces(s);
    if p[|p| - 1] == "" then p[..|p| - 1] else p
  }

  /** The pieces joined back together with '\n' between them. */
  function Join(p: seq<string>): string {
    if |p| == 0 then ""
    else if |p| == 1 then p[0]
    else Join(p[..|p| - 1]) + "\n" + p[|p| - 1]
  }

  /** The pieces hold no newline, and joining them gives the text back. */
  lemma {:induction false} PiecesJoin(s: string)
    ensures Join(Pieces(s)) == s
    ensures forall i | 0 <= i < |Pieces(s)| :: '\n' !in Pieces(s)[i]
  {
    if |s| > 0 {
      var init := Pieces(s[..|s| - 1]);
      PiecesJoin(s[..|s| - 1]);
      var p := Pieces(s);
      var c := s[|s| - 1];
      assert s == s[..|s| - 1] + [c];
      if c == '\n' {
        assert p[..|p| - 1] == init;
      } else {
        var m := |init|;
        assert p[..|p| - 1] == init[..m - 1];
        if m > 1 {
          assert init[..m - 1][..m - 2] == init[..m - 2];
          assert Join(init) == Join(init[..m - 1]) + "\n" + init[m - 1];
        }
      }
    }
  }

  /**
   * Round trip of `splitLines`: no line holds a '\n', and joining the lines
   * with '\n', plus a final '\n' when the text ended with one, gives the text.
   */
  lemma LinesRoundTrip(s: string)
    ensures forall line | line in Lines(s) :: '\n' !in line
    ensures Join(Lines(s)) + (if |s| > 0 && s[|s| - 1] == '\n' then "\n" else "") == s
  {
    PiecesJoin(s);
    var p := Pieces(s);
    if |s| == 0 {
    } else if s[|s| - 1] == '\n' {
      assert p[|p| - 1] == "";
      assert |p| >= 2;
      assert Join(p) == Join(p[..|p| - 1]) + "\n" + "";
    } else {
      assert p[|p| - 1] != "";
    }
  }

  /** Appending one character to a text: a '\n' opens a new piece, anything else extends the last one. */
  lemma PiecesSnoc(t: string, c: char)
    ensures var p := Pieces(t);
            Pieces(t + [c]) == if c == '\n' then p + [""] else p[..|p| - 1] + [p[|p| - 1] + [c]]
  {
    assert (t + [c])[..|t|] == t;
  }

  /**
   * A text of the model holds one character per byte of the Go string.
   * `Widen(c)` is what `string(b)` yields for a byte `b`: Go reads the
   * byte as a code point and encodes it in UTF-8, so a byte below 0x80
   * stays as it is and a byte from 0x80 up becomes two bytes.
   */
  function Widen(c: char): (w: string)
    ensures (c as int < 0x80) == (w == [c])
    ensures c as int >= 0x80 ==> |w| == 2 && w[0] as int >= 0xC0 && w[1] as int >= 0x80
  {
    if c as int < 0x80 then [c]
    else [(0xC0 + (c as int / 64) % 32) as char, (0x80 + c as int % 64) as char]
  }

  /** A line as `splitLines` builds it, one widened byte at a time. */
  function Reencode(line: string): string {
    if |line| == 0 then ""
    else Reencode(line[..|line| - 1]) + Widen(line[|line| - 1])
  }

  /** Every line re-encoded. */
  function ReencodeAll(p: seq<string>): (q: seq<string>)
    ensures |q| == |p| && forall i | 0 <= i < |p| :: q[i] == Reencode(p[i])
  {
    seq(|p|, i requires 0 <= i < |p| => Reencode(p[i]))
  }

  /** Text whose every byte is below 0x80. */
  predicate IsAscii(s: string) {
    forall i | 0 <= i < |s| :: s[i] as int < 0x80
  }

  /** A text is ASCII exactly when its last byte and the rest are. */
  lemma AsciiSnoc(t: string, c: char)
    ensures IsAscii(t + [c]) <==> IsAscii(t) && c as int < 0x80
  {
    if IsAscii(t + [c]) {
      forall i | 0 <= i < |t|
        ensures t[i] as int < 0x80
      {
        assert (t + [c])[i] == t[i];
      }
      assert (t + [c])[|t|] == c;
    }
  }

  /** Re-encoding never shortens a line, and lengthens every line that is not ASCII. */
  lemma {:induction false} ReencodeLength(line: string)
    ensures |Reencode(line)| >= |line|
    ensures !IsAscii(line) ==> |Reencode(line)| > |line|
  {
    if |line| > 0 {
      var init := line[..|line| - 1];
      ReencodeLength(init);
      assert line == init + [line[|line| - 1]];
      AsciiSnoc(init, line[|line| - 1]);
    }
  }

  /** Re-encoding leaves ASCII unchanged. */
  lemma {:induction false} ReencodeAscii(line: string)
    requires IsAscii(line)
    ensures Reencode(line) == line
  {
    if |line| > 0 {
      var init := line[..|line| - 1];
      assert line == init + [line[|line| - 1]];
      AsciiSnoc(init, line[|line| - 1]);
      ReencodeAscii(init);
    }
  }

  /** Re-encoding adds no '\n'. */
  lemma {:induction false} ReencodeNoNewline(line: string)
    requires '\n' !in line
    ensures '\n' !in Reencode(line)
  {
    if |line| > 0 {
      var init := line[..|line| - 1];
      assert line == init + [line[|line| - 1]];
      ReencodeNoNewline(init);
    }
  }

  /** Re-encoding leaves a line unchanged exactly when it is ASCII, and yields the empty line only from it. */
  lemma ReencodeFixesExactlyAscii(line: string)
    ensures Reencode(line) == line <==> IsAscii(line)
    ensures Reencode(line) == "" <==> line == ""
  {
    ReencodeLength(line);
    if IsAscii(line) {
      ReencodeAscii(line);
    }
  }

  /** The pieces of ASCII text come out of re-encoding unchanged. */
  lemma {:induction false} AsciiPiecesUnchanged(s: string)
    requires IsAscii(s)
    ensures forall i | 0 <= i < |Pieces(s)| :: Reencode(Pieces(s)[i]) == Pieces(s)[i]
  {
    if |s| > 0 {
      var init := s[..|s| - 1];
      var c := s[|s| - 1];
      assert s == init + [c];
      AsciiSnoc(init, c);
      AsciiPiecesUnchanged(init);
      PiecesSnoc(init, c);
      var ip := Pieces(init);
      var p := Pieces(s);
      forall i | 0 <= i < |p|
        ensures Reencode(p[i]) == p[i]
      {
        if i < |ip| - 1 {
          assert p[i] == ip[i];
        } else if c == '\n' {
          if i == |ip| - 1 {
            assert p[i] == ip[i];
          }
        } else {
          var last := ip[|ip| - 1];
          assert p[i] == last + [c];
          assert (last + [c])[..|last|] == last;
        }
      }
    }
  }

  /**
   * What `splitLines` returns: the lines of the text, each re-encoded by
   * the byte-to-string conversion of the loop.
   */
  function GoLines(s: string): (lines: seq<string>)
    ensures |lines| == |Lines(s)|
  {
    ReencodeAll(Lines(s))
  }

  /** No line of `splitLines` holds a '\n'. */
  lemma GoLinesHaveNoNewline(s: string)
    ensures forall line | line in GoLines(s) :: '\n' !in line
  {
    LinesRoundTrip(s);
    forall line | line in GoLines(s)
      ensures '\n' !in line
    {
      var i :| 0 <= i < |GoLines(s)| && GoLines(s)[i] == line;
      ReencodeNoNewline(Lines(s)[i]);
    }
  }

  /**
   * On ASCII text `splitLines` is the exact split, so joining its lines
   * back gives the text.
   */
  lemma GoLinesRoundTripOnAscii(s: string)
    requires IsAscii(s)
    ensures GoLines(s) == Lines(s)
    ensures Join(GoLines(s)) + (if |s| > 0 && s[|s| - 1] == '\n' then "\n" else "") == s
  {
    AsciiPiecesUnchanged(s);
    LinesRoundTrip(s);
  }

  /**
   * The text "é\n" in UTF-8 (bytes C3 A9 0A) comes out of `splitLines` as
   * the single line C3 83 C2 A9 ("Ã©"): not the text that went in.
   */
  lemma SplitLinesMangles()
    ensures var s := ['\U{00C3}', '\U{00A9}', '\n'];
            && GoLines(s) == [['\U{00C3}', '\U{0083}', '\U{00C2}', '\U{00A9}']]
            && Join(GoLines(s)) + "\n" != s
  {
    var a, b := '\U{00C3}', '\U{00A9}';
    ExampleLines(a, b);
    ExampleReencode(a, b);
    var g := GoLines([a, b, '\n']);
    assert |Join(g) + "\n"| == 5;
  }

  /** A two-byte line ended by '\n' is one line. */
  lemma ExampleLines(a: char, b: char)
    requires a != '\n' && b != '\n'
    ensures Lines([a, b, '\n']) == [[a, b]]
  {
    ExamplePieces(a, b);
    PiecesSnoc([a, b], '\n');
    assert [a, b] + ['\n'] == [a, b, '\n'];
    assert Pieces([a, b, '\n'])[..1] == [[a, b]];
  }

  /** Two bytes without a '\n' are one piece. */
  lemma ExamplePieces(a: char, b: char)
    requires a != '\n' && b != '\n'
    ensures Pieces([a, b]) == [[a, b]]
  {
    ExamplePiece(a);
    PiecesSnoc([a], b);
    assert [a] + [b] == [a, b];
    assert [[a]][..0] + [[a] + [b]] == [[a, b]];
  }

  /** One byte other than '\n' is one piece. */
  lemma ExamplePiece(a: char)
    requires a != '\n'
    ensures Pieces([a]) == [[a]]
  {
    PiecesSnoc("", a);
    assert "" + [a] == [a];
  }

  /** The bytes C3 A9 re-encode to C3 83 C2 A9. */
  lemma ExampleReencode(a: char, b: char)
    requires a == '\U{00C3}' && b == '\U{00A9}'
    ensures Reencode([a, b]) == ['\U{00C3}', '\U{0083}', '\U{00C2}', '\U{00A9}']
  {
    assert [a, b][..1] == [a];
    assert [a][..0] == "";
    assert Reencode([a]) == Widen(a);
    assert Widen(a) == ['\U{00C3}', '\U{0083}'];
    assert Widen(b) == ['\U{00C2}', '\U{00A9}'];
  }

  /**
   * The state of the `splitLines` loop after reading `t`: the lines emitted
   * are the finished pieces of `t` re-encoded, and `current` is its last
   * piece re-encoded.
   */
  ghost predicate SplitLinesInvariant(t: string, lines: seq<string>, current: string) {
    var p := Pieces(t);
    && |p| == |lines| + 1
    && (forall k | 0 <= k < |lines| :: lines[k] == Reencode(p[k]))
    && current == Reencode(p[|lines|])
  }

  /** One turn of the `splitLines` loop keeps its invariant. */
  lemma SplitLinesStep(t: string, c: char, lines: seq<string>, current: string)
    requires SplitLinesInvariant(t, lines, current)
    ensures c == '\n' ==> SplitLinesInvariant(t + [c], lines + [current], "")
    ensures c != '\n' ==> SplitLinesInvariant(t + [c], lines, current + Widen(c))
  {
    PiecesSnoc(t, c);
    var p := Pieces(t);
    if c != '\n' {
      var last := p[|lines|] + [c];
      assert last[..|last| - 1] == p[|lines|];
    }
  }

  /** `splitLines`: grow `current` byte by byte until a '\n', then emit it; emit a non-empty tail. */
  method SplitLines(s: string) returns (lines: seq<string>)
    ensures lines == GoLines(s)
  {
    lines := [];
    var current := "";
    var i := 0;
    while i < |s|
      invariant 0 <= i <= |s|
      invariant SplitLinesInvariant(s[..i], lines, current)
    {
      SplitLinesStep(s[..i], s[i], lines, current);
      assert s[..i + 1] == s[..i] + [s[i]];
      if s[i] == '\n' {
        lines := lines + [current];
        current := "";
      } else {
        current := current + Widen(s[i]);
      }
      i := i + 1;
    }
    assert s[..i] == s;
    SplitLinesFinish(s, lines, current);
    if current != "" {
      lines := lines + [current];
    }
  }

  /** After the whole text, emitting a non-empty `current` gives `GoLines(s)`. */
  lemma SplitLinesFinish(s: string, lines: seq<string>, current: string)
    requires SplitLinesInvariant(s, lines, current)
    ensures (if current != "" then lines + [current] else lines) == GoLines(s)
  {
    var p := Pieces(s);
    ReencodeFixesExactlyAscii(p[|lines|]);
    LinesOfPieces(s, if current != "" then lines + [current] else lines);
  }

  /** A list that re-encodes the lines of `s` one by one is `GoLines(s)`. */
  lemma LinesOfPieces(s: string, lines: seq<string>)
    requires var p := Pieces(s);
             && |lines| == |p| - (if p[|p| - 1] == "" then 1 else 0)
             && forall k | 0 <= k < |lines| :: lines[k] == Reencode(p[k])
    ensures lines == GoLines(s)
  {
  }

  /** The loop state of `splitSQL`: the statements so far and the pending text. */
  datatype SplitState = SplitState(statements: seq<string>, current: string)

  /** A line `splitSQL` skips: blank, or a `--` comment, once trimmed. */
  predicate IsSkipped(line: string) {
    Trimmed(line) == "" || HasPrefix(Trimmed(line), "--")
  }

  /**
   * One turn of the loop: a kept line is added to the pending text with a
   * '\n'; if the trimmed pending text then ends with ';', the pending text
   * without that '\n', trimmed, becomes a statement.
   */
  function Step(st: SplitState, line: string): SplitState {
    if IsSkipped(line) then st
    else
      var current := st.current + line + "\n";
      if HasSuffix(Trimmed(current), ";") then
        SplitState(st.statements + [Trimmed(current[..|current| - 1])], "")
      else
        SplitState(st.statements, current)
  }

  /** The loop state after the given lines. */
  function Run(lines: seq<string>): SplitState {
    if |lines| == 0 then SplitState([], "")
    else Step(Run(lines[..|lines| - 1]), lines[|lines| - 1])
  }

  /** After the loop, non-blank pending text becomes a last statement. */
  function Finish(st: SplitState): seq<string> {
    if Trimmed(st.current) != "" then st.statements + [Trimmed(st.current)] else st.statements
  }

  /** What `splitSQL` returns for a schema text, split by `splitLines` as written. */
  function Statements(schema: string): seq<string> {
    Finish(Run(GoLines(schema)))
  }

  /** On ASCII schemas the statements are those of the exact line split. */
  lemma StatementsOnAscii(schema: string)
    requires IsAscii(schema)
    ensures Statements(schema) == Finish(Run(Lines(schema)))
  {
    GoLinesRoundTripOnAscii(schema);
  }

  /** A statement as `splitSQL` emits it: non-empty and already trimmed. */
  predicate IsStatement(s: string) {
    s != "" && Trimmed(s) == s
  }

  /**
   * Every statement closed inside the loop is trimmed, non-empty and keeps
   * its ';': the slice drops only the '\n' the loop appended.
   */
  lemma {:induction false} ClosedStatementsKeepSemicolon(lines: seq<string>)
    ensures forall st | st in Run(lines).statements :: IsStatement(st) && HasSuffix(st, ";")
  {
    if |lines| > 0 {
      var before := Run(lines[..|lines| - 1]);
      ClosedStatementsKeepSemicolon(lines[..|lines| - 1]);
      var line := lines[|lines| - 1];
      if !IsSkipped(line) {
        var current := before.current + line + "\n";
        if HasSuffix(Trimmed(current), ";") {
          var body := before.current + line;
          assert current[..|current| - 1] == body;
          TrimmedIgnoresNewline(body);
          TrimmedIdempotent(current);
        }
      }
    }
  }

  /**
   * Every statement of a schema is non-empty and trimmed; all but possibly
   * the last one end with ';'.
   */
  lemma StatementsWellFormed(schema: string)
    ensures forall st | st in Statements(schema) :: IsStatement(st)
    ensures forall i | 0 <= i < |Statements(schema)| - 1 :: HasSuffix(Statements(schema)[i], ";")
  {
    var run := Run(GoLines(schema));
    ClosedStatementsKeepSemicolon(GoLines(schema));
    TrimmedIdempotent(run.current);
    var r := Statements(schema);
    forall i | 0 <= i < |r| - 1
      ensures HasSuffix(r[i], ";")
    {
      assert r[i] in run.statements;
    }
  }

  /** The lines `splitSQL` keeps. */
  function KeptLines(lines: seq<string>): (kept: seq<string>)
    ensures forall line | line in kept :: line in lines && !IsSkipped(line)
  {
    if |lines| == 0 then []
    else if IsSkipped(lines[|lines| - 1]) then KeptLines(lines[..|lines| - 1])
    else KeptLines(lines[..|lines| - 1]) + [lines[|lines| - 1]]
  }

  /** Blank and comment lines contribute nothing: dropping them all changes no statement. */
  lemma {:induction false} SkippedLinesContributeNothing(lines: seq<string>)
    ensures Run(KeptLines(lines)) == Run(lines)
  {
    if |lines| > 0 {
      SkippedLinesContributeNothing(lines[..|lines| - 1]);
      var kept := KeptLines(lines);
      if !IsSkipped(lines[|lines| - 1]) {
        assert kept[..|kept| - 1] == KeptLines(lines[..|lines| - 1]);
      }
    }
  }

  /** `splitSQL`: split the text into lines, then group kept lines into statements. */
  method SplitSQL(schema: string) returns (statements: seq<string>)
    ensures statements == Statements(schema)
  {
    var lines := SplitLines(schema);
    statements := GroupStatements(lines);
  }

  /** The line loop of `splitSQL`, with the text after the last ';' as a final statement. */
  method GroupStatements(lines: seq<string>) returns (statements: seq<string>)
    ensures statements == Finish(Run(lines))
  {
    statements := [];
    var current := "";
    for i := 0 to |lines|
      invariant Run(lines[..i]) == SplitState(statements, current)
    {
      assert lines[..i + 1][..i] == lines[..i];
      var line := lines[i];
      var trimmed := TrimSpace(line);
      if trimmed == "" || HasPrefix(trimmed, "--") {
        continue;
      }
      current := current + line + "\n";
      var closed := TrimSpace(current);
      if HasSuffix(closed, ";") {
        var statement := TrimSpace(current[..|current| - 1]);
        statements := statements + [statement];
        current := "";
      }
    }
    assert lines[..|lines|] == lines;
    var rest := TrimSpace(current);
    if rest != "" {
      statements := statements + [rest];
    }
  }
}
