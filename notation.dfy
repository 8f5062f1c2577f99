// The move notation of rubik.h: the tokens moveFromList understands
// ("U", "U'", "U2", ... for the six faces), the Move record and the
// scramble generator of generateScrambleSequence with its random draws
// given as an input stream.

module Notation {
  import opened Wrappers
  import opened CubeState

  /** A quarter turn clockwise ("U"), a quarter turn counter-clockwise ("U'") or a half turn ("U2"). */
  datatype Kind = Base | Prime | Double

  /** One token of the notation: a face and how far it turns. */
  datatype Turn = Turn(face: Face, kind: Kind)

  /** The token spelling a turn: the face letter, then nothing, an apostrophe or a 2. */
  function Token(t: Turn): (s: string)
    ensures 1 <= |s| <= 2 && s[0] == t.face.Letter()
    ensures |s| == 1 <==> t.kind == Base
  {
    var c := t.face.Letter();
    match t.kind
    case Base => [c]
    case Prime => [c, '\'']
    case Double => [c, '2']
  }

  /** The turn a token names, read the way moveFromList's chain of comparisons reads it;
      any other string names no turn and is skipped. */
  function ParseToken(s: string): (r: Option<Turn>) {
    if s == "U" then Some(Turn(U, Base))
    else if s == "U'" then Some(Turn(U, Prime))
    else if s == "U2" then Some(Turn(U, Double))
    else if s == "L" then Some(Turn(L, Base))
    else if s == "L'" then Some(Turn(L, Prime))
    else if s == "L2" then Some(Turn(L, Double))
    else if s == "F" then Some(Turn(F, Base))
    else if s == "F'" then Some(Turn(F, Prime))
    else if s == "F2" then Some(Turn(F, Double))
    else if s == "R" then Some(Turn(R, Base))
    else if s == "R'" then Some(Turn(R, Prime))
    else if s == "R2" then Some(Turn(R, Double))
    else if s == "B" then Some(Turn(B, Base))
    else if s == "B'" then Some(Turn(B, Prime))
    else if s == "B2" then Some(Turn(B, Double))
    else if s == "D" then Some(Turn(D, Base))
    else if s == "D'" then Some(Turn(D, Prime))
    else if s == "D2" then Some(Turn(D, Double))
    else None
  }

  /** Every turn's token is understood as that turn. */
  lemma ParseTokenOfToken(t: Turn)
    ensures ParseToken(Token(t)) == Some(t)
  {
    match t.face
    case U => case L => case F => case R => case B => case D =>
  }

  /** A string is understood only when it is exactly the token of the turn it is read as. */
  lemma ParseTokenOnlyTokens(s: string)
    ensures ParseToken(s).Some? ==> Token(ParseToken(s).value) == s
  {
  }

  /** The angle each wrapper passes to rotateFace: -90 degrees for X, +90 for X', and -90 for
      each of the two calls X2 makes. */
  function Angle(k: Kind): (a: real)
    ensures a == 90.0 || a == -90.0
    ensures a < 0.0 <==> k != Prime
  {
    if k == Prime then 90.0 else -90.0
  }

  /** The first token of a list that names a turn, if any. */
  function FirstTurn(tokens: seq<string>): Option<Turn> {
    if |tokens| == 0 then None
    else if ParseToken(tokens[0]).Some? then ParseToken(tokens[0])
    else FirstTurn(tokens[1..])
  }

  /** The first turn is found exactly when some token names a turn, and it is the turn of the
      earliest such token. */
  lemma {:induction false} FirstTurnFinds(tokens: seq<string>)
    ensures FirstTurn(tokens).Some? <==> exists i :: 0 <= i < |tokens| && ParseToken(tokens[i]).Some?
    ensures FirstTurn(tokens).Some? ==> exists i ::
      && 0 <= i < |tokens| && ParseToken(tokens[i]) == FirstTurn(tokens)
      && forall j | 0 <= j < i :: ParseToken(tokens[j]).None?
  {
    if |tokens| != 0 && ParseToken(tokens[0]).None? {
      FirstTurnFinds(tokens[1..]);
      assert forall i | 0 <= i < |tokens[1..]| :: tokens[1..][i] == tokens[i + 1];
      if FirstTurn(tokens).Some? {
        var i :| && 0 <= i < |tokens[1..]| && ParseToken(tokens[1..][i]) == FirstTurn(tokens)
                 && forall j | 0 <= j < i :: ParseToken(tokens[1..][j]).None?;
        assert ParseToken(tokens[i + 1]) == FirstTurn(tokens);
      }
    } else if |tokens| != 0 {
      assert ParseToken(tokens[0]) == FirstTurn(tokens);
    }
  }

  /** Reading one more token changes the first turn only if none was found before. */
  lemma {:induction false} FirstTurnAppend(tokens: seq<string>, token: string)
    ensures FirstTurn(tokens + [token]) ==
              if FirstTurn(tokens).Some? then FirstTurn(tokens) else ParseToken(token)
  {
    if |tokens| == 0 {
      assert [] + [token] == [token];
    } else {
      assert (tokens + [token])[1..] == tokens[1..] + [token];
      FirstTurnAppend(tokens[1..], token);
    }
  }

  /** One scheduled move: a face or slice letter, an angle in degrees and whether it is a slice. */
  datatype Move = Move(face: Layer, angle: real, isSlice: bool)

  /** The faces a scramble draws from, in the order moveDist indexes them. */
  const PossibleMoves: seq<Face> := [U, L, F, R, B, D]

  /** One draw of moveDist: an index into PossibleMoves. */
  type Draw = k: nat | k < 6

  /** The scramble faces generateScrambleSequence picks from the stream of moveDist draws:
      a draw naming the previous face is thrown away and redrawn, and generation ends after
      n faces or when the stream runs out. */
  function Scramble(draws: seq<Draw>, last: Option<Face>, n: int): (faces: seq<Face>)
    decreases |draws|
  {
    if n <= 0 || |draws| == 0 then []
    else
      var face := PossibleMoves[draws[0]];
      if last == Some(face) then Scramble(draws[1..], last, n)
      else [face] + Scramble(draws[1..], Some(face), n - 1)
  }

  /** Consuming the draw at position j of the stream. */
  lemma ScrambleStep(draws: seq<Draw>, j: nat, last: Option<Face>, n: int)
    requires j < |draws| && n > 0
    ensures var face := PossibleMoves[draws[j]];
      Scramble(draws[j..], last, n) ==
        if last == Some(face) then Scramble(draws[j + 1..], last, n)
        else [face] + Scramble(draws[j + 1..], Some(face), n - 1)
  {
    assert draws[j..][1..] == draws[j + 1..];
  }

  /** The moves generateScrambleSequence schedules for scramble faces: each a clockwise quarter
      turn of a face. */
  function ClockwiseMoves(faces: seq<Face>): (moves: seq<Move>)
    ensures |moves| == |faces|
    ensures forall i | 0 <= i < |faces| :: moves[i] == Move(faces[i], -90.0, false) && !moves[i].isSlice
  {
    seq(|faces|, i requires 0 <= i < |faces| => Move(faces[i], -90.0, false))
  }

  /** Appending one drawn face to the faces already scrambled. */
  lemma ScrambleGrows(draws: seq<Draw>, faces: seq<Face>, face: Face, after: nat, n: int)
    requires after <= |draws|
    ensures faces + ([face] + Scramble(draws[after..], Some(face), n))
              == (faces + [face]) + Scramble(draws[after..], Some(face), n)
    ensures ClockwiseMoves(faces + [face]) == ClockwiseMoves(faces) + [Move(face, -90.0, false)]
  {
  }

  /** No face is scrambled twice in a row, nor right after the face given as the previous one. */
  lemma {:induction false} ScrambleNoRepeats(draws: seq<Draw>, last: Option<Face>, n: int)
    ensures var faces := Scramble(draws, last, n);
      && (last.Some? && |faces| > 0 ==> faces[0] != last.value)
      && forall i | 0 <= i < |faces| - 1 :: faces[i] != faces[i + 1]
    decreases |draws|
  {
    if n <= 0 || |draws| == 0 {
    } else {
      var face := PossibleMoves[draws[0]];
      if last == Some(face) {
        ScrambleNoRepeats(draws[1..], last, n);
      } else {
        ScrambleNoRepeats(draws[1..], Some(face), n - 1);
        var rest := Scramble(draws[1..], Some(face), n - 1);
        assert Scramble(draws, last, n) == [face] + rest;
        assert forall i | 1 <= i < |rest| + 1 :: ([face] + rest)[i] == rest[i - 1];
      }
    }
  }

  /** A scramble has at most n faces, and exactly n when no draw is thrown away and the stream
      is long enough. */
  lemma {:induction false} ScrambleLength(draws: seq<Draw>, last: Option<Face>, n: int)
    ensures |Scramble(draws, last, n)| <= if n <= 0 then 0 else n
    ensures |Scramble(draws, last, n)| <= |draws|
    ensures (&& n <= |draws|
             && (forall i | 0 <= i < |draws| - 1 :: draws[i] != draws[i + 1])
             && (last.Some? && |draws| > 0 ==> PossibleMoves[draws[0]] != last.value))
            ==> |Scramble(draws, last, n)| == if n <= 0 then 0 else n
    decreases |draws|
  {
    if n <= 0 || |draws| == 0 {
    } else {
      var face := PossibleMoves[draws[0]];
      if last == Some(face) {
        ScrambleLength(draws[1..], last, n);
      } else {
        ScrambleLength(draws[1..], Some(face), n - 1);
      }
    }
  }

  /** The angle scrambleCube starts a move with: -90 degrees for a face move with a negative
      angle and for every slice move, +90 for any other face move. */
  function StartAngle(m: Move): (a: real)
    ensures a == -90.0 || a == 90.0
    ensures a == 90.0 <==> m.face.IsFace() && m.angle >= 0.0
  {
    if m.angle < 0.0 || !m.face.IsFace() then -90.0 else 90.0
  }

  /** The token scrambleCube reports for one move: "X" or "X'" for a face, nothing for a slice. */
  function MoveToken(m: Move): (tokens: seq<string>)
    ensures |tokens| <= 1
    ensures |tokens| == 1 <==> m.face.IsFace()
  {
    if !m.face.IsFace() then []
    else [Token(Turn(m.face, if m.angle < 0.0 then Base else Prime))]
  }

  /** The tokens scrambleCube reports for a list of moves, in order. */
  function ScrambleTokens(moves: seq<Move>): (tokens: seq<string>)
    ensures |tokens| <= |moves|
  {
    if |moves| == 0 then []
    else ScrambleTokens(moves[..|moves| - 1]) + MoveToken(moves[|moves| - 1])
  }

  /** For generated scramble moves, every move reports the token of its face turned clockwise. */
  lemma {:induction false} ScrambleTokensOfFaces(faces: seq<Face>, moves: seq<Move>)
    requires |moves| == |faces|
    requires forall i | 0 <= i < |moves| :: moves[i] == Move(faces[i], -90.0, false)
    ensures |ScrambleTokens(moves)| == |faces|
    ensures forall i | 0 <= i < |faces| :: ScrambleTokens(moves)[i] == Token(Turn(faces[i], Base))
  {
    if |moves| != 0 {
      var n := |moves| - 1;
      ScrambleTokensOfFaces(faces[..n], moves[..n]);
    }
  }

  /** Reported scramble tokens read back as the scrambled faces, so replaying them with
      moveFromList starts the scramble's first turn. */
  lemma ScrambleTokensReadBack(faces: seq<Face>, tokens: seq<string>)
    requires |tokens| == |faces|
    requires forall i | 0 <= i < |faces| :: tokens[i] == Token(Turn(faces[i], Base))
    ensures forall i | 0 <= i < |faces| :: ParseToken(tokens[i]) == Some(Turn(faces[i], Base))
    ensures |faces| > 0 ==> FirstTurn(tokens) == Some(Turn(faces[0], Base))
  {
    forall i | 0 <= i < |faces|
      ensures ParseToken(tokens[i]) == Some(Turn(faces[i], Base))
    {
      ParseTokenOfToken(Turn(faces[i], Base));
    }
  }
}
