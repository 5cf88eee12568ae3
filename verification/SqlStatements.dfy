/**
  Cutting a migration into the statements the driver runs one at a time.  A semicolon ends
  a statement unless it stands inside a quoted string or a line comment.  The loop keeps
  two flags as it goes; `LexAt` says what they mean for a character by looking only at the
  text before it, and `Cut` says where the pieces begin and end.
 */
module SqlStatements {

  /** What the scanner is inside of. */
  datatype Lex = Code | InString | InComment

  function After(state: Lex, ch: char, next: char): Lex {
    match state
    case InComment => if ch == '\n' then Code else InComment
    case InString => if ch == '\'' then Code else InString
    case Code => if ch == '-' && next == '-' then InComment else if ch == '\'' then InString else Code
  }

  function CharAt(sql: string, i: nat): char {
    if i < |sql| then sql[i] else '\0'
  }

  /** What the `i`-th character is inside of. */
  function LexAt(sql: string, i: nat): Lex
    requires i <= |sql|
    decreases i
  {
    if i == 0 then Code else After(LexAt(sql, i - 1), sql[i - 1], CharAt(sql, i))
  }

  /** Does a statement end here? */
  predicate Ends(sql: string, i: nat)
    requires i < |sql|
  {
    sql[i] == ';' && LexAt(sql, i) == Code
  }

  /** The first `i` characters cut at the ends of statements: whole pieces, and what is under way. */
  function Cut(sql: string, i: nat): (seq<string>, string)
    requires i <= |sql|
    decreases i
  {
    if i == 0 then ([], "")
    else
      var (pieces, current) := Cut(sql, i - 1);
      if Ends(sql, i - 1) then (pieces + [current], "") else (pieces, current + [sql[i - 1]])
  }

  function EndsBefore(sql: string, i: nat): nat
    requires i <= |sql|
    decreases i
  {
    if i == 0 then 0 else EndsBefore(sql, i - 1) + if Ends(sql, i - 1) then 1 else 0
  }

  type Space = char -> bool

  /** Whitespace off both ends. */
  function Trim(space: Space, s: string): string
    decreases |s|
  {
    if s == "" then ""
    else if space(s[0]) then Trim(space, s[1..])
    else if space(s[|s| - 1]) then Trim(space, s[..|s| - 1])
    else s
  }

  /** The trimmed pieces that are not blank. */
  function Statements(space: Space, pieces: seq<string>): seq<string>
    decreases |pieces|
  {
    if pieces == [] then []
    else
      var last := Trim(space, pieces[|pieces| - 1]);
      Statements(space, pieces[..|pieces| - 1]) + if last == "" then [] else [last]
  }

  /** Pieces glued back together with the semicolons between them. */
  function Joined(pieces: seq<string>): string
    decreases |pieces|
  {
    if pieces == [] then "" else Joined(pieces[..|pieces| - 1]) + pieces[|pieces| - 1] + ";"
  }

  lemma JoinedAppends(pieces: seq<string>, piece: string)
    ensures Joined(pieces + [piece]) == Joined(pieces) + piece + ";"
  {
    assert (pieces + [piece])[..|pieces|] == pieces;
  }

  /** Cutting loses nothing but the semicolons it cuts at. */
  lemma {:induction false} CutLosesNothing(sql: string, i: nat)
    requires i <= |sql|
    ensures
      var (pieces, current) := Cut(sql, i);
      Joined(pieces) + current == sql[..i] && |pieces| == EndsBefore(sql, i)
    decreases i
  {
    hide Ends, Joined;
    if i == 0 {
      assert Joined([]) == "" by { NothingJoined(); }
    } else {
      CutLosesNothing(sql, i - 1);
      var (pieces, current) := Cut(sql, i - 1);
      assert sql[..i] == sql[..i - 1] + [sql[i - 1]];
      if Ends(sql, i - 1) {
        JoinedAppends(pieces, current);
        EndsIsSemicolon(sql, i - 1);
        assert Joined(pieces) + current + ";" + "" == Joined(pieces) + current + ";";
      } else {
        assert Joined(pieces) + (current + [sql[i - 1]]) == Joined(pieces) + current + [sql[i - 1]];
      }
    }
  }

  lemma NothingJoined()
    ensures Joined([]) == ""
  {
  }

  lemma EndsIsSemicolon(sql: string, i: nat)
    requires i < |sql| && Ends(sql, i)
    ensures [sql[i]] == ";"
  {
  }

  predicate StopsAtEnd(sql: string, pieces: seq<string>, j: nat)
    requires j < |pieces|
  {
    var upTo := |Joined(pieces[..j + 1])|;
    0 < upTo <= |sql| && Ends(sql, upTo - 1)
  }

  /** Each piece stops exactly where a statement ends. */
  lemma {:induction false} PiecesStopAtEnds(sql: string, i: nat, j: nat)
    requires i <= |sql| && j < |Cut(sql, i).0|
    ensures StopsAtEnd(sql, Cut(sql, i).0, j) && |Joined(Cut(sql, i).0[..j + 1])| <= i
    decreases i
  {
    hide Ends, Joined;
    var (pieces, current) := Cut(sql, i - 1);
    var all := Cut(sql, i).0;
    if j < |pieces| {
      PiecesStopAtEnds(sql, i - 1, j);
      assert all[..j + 1] == pieces[..j + 1];
    } else {
      CutLosesNothing(sql, i - 1);
      JoinedAppends(pieces, current);
      assert all[..j + 1] == pieces + [current];
      assert |Joined(pieces) + current + ";"| == i;
    }
  }

  /**
    The character loop: exactly the semicolons outside strings and line comments end a
    statement, and each piece between them is kept, trimmed, unless it is blank.
   */
  method SplitStatements(space: Space, sql: string) returns (out: seq<string>)
    ensures
      var (pieces, rest) := Cut(sql, |sql|);
      && out == Statements(space, pieces + [rest])
      && Joined(pieces) + rest == sql && |pieces| == EndsBefore(sql, |sql|)
      && forall j :: 0 <= j < |pieces| ==> StopsAtEnd(sql, pieces, j)
  {
    hide Joined, Statements, Trim, EndsBefore;
    out := [];
    var current := "";
    var inString, inLineComment := false, false;
    var i := 0;
    assert out == Statements(space, []) by { NoStatements(space); }
    while i < |sql|
      invariant 0 <= i <= |sql|
      invariant current == Cut(sql, i).1 && out == Statements(space, Cut(sql, i).0)
      invariant !(inString && inLineComment)
      invariant LexAt(sql, i) == if inLineComment then InComment else if inString then InString else Code
    {
      var ch := sql[i];
      var next := CharAt(sql, i + 1);
      if inLineComment {
        if ch == '\n' { inLineComment := false; }
        current := current + [ch];
      } else if !inString && ch == '-' && next == '-' {
        inLineComment := true;
        current := current + [ch];
      } else if ch == '\'' {
        inString := !inString;
        current := current + [ch];
      } else if ch == ';' && !inString {
        StatementsAppend(space, Cut(sql, i).0, current);
        var trimmed := Trim(space, current);
        if trimmed != "" { out := out + [trimmed]; }
        current := "";
      } else {
        current := current + [ch];
      }
      i := i + 1;
    }
    StatementsAppend(space, Cut(sql, |sql|).0, current);
    var last := Trim(space, current);
    if last != "" { out := out + [last]; }
    CutLosesNothing(sql, |sql|);
    assert sql[..|sql|] == sql;
    forall j | 0 <= j < |Cut(sql, |sql|).0| ensures StopsAtEnd(sql, Cut(sql, |sql|).0, j) {
      PiecesStopAtEnds(sql, |sql|, j);
    }
  }

  lemma NoStatements(space: Space)
    ensures Statements(space, []) == []
  {
  }

  lemma StatementsAppend(space: Space, pieces: seq<string>, piece: string)
    ensures Statements(space, pieces + [piece])
      == Statements(space, pieces) + if Trim(space, piece) == "" then [] else [Trim(space, piece)]
  {
    hide Trim;
    assert (pieces + [piece])[..|pieces|] == pieces;
  }
}
