/** A board coordinate (src/components/Square.ts): a file index and a rank
    index, both in 0..7, parsed from two-character notation such as "e4"
    and rendered back. */
module Squares {
  import opened Base
  import opened Text

  /** An index into the 8x8 board. */
  type Coord = i: int | 0 <= i < 8

  /** The file letters, in board order. */
  const FILE_NOTATIONS: seq<string> := ["a", "b", "c", "d", "e", "f", "g", "h"]

  /** Why `FromNotation` refuses a string. */
  datatype SquareError =
    | BadFormat        // the trimmed notation is empty or longer than two characters
    | UnknownFile      // the first character is not a file letter
    | RankNotANumber   // the second character is missing or not numeric
    | FileOutOfRange
    | RankOutOfRange

  /** A square; `fileIdx` and `rankIdx` are the private `_file` and `_rank`. */
  datatype Square = Square(fileIdx: Coord, rankIdx: Coord) {

    /** The `rank` getter. */
    function Rank(): (r: int)
      ensures 0 <= r < 8 && r == rankIdx
    {
      rankIdx
    }

    /** The `file` getter AS WRITTEN: it reads `_rank`, so it reports the
        rank index rather than the file index (see `FileGetterIsRank`). */
    function File(): (r: int)
      ensures 0 <= r < 8 && r == Rank()
    {
      rankIdx
    }

    /** The rank digit, "1".."8". */
    function RankNotation(): (r: string)
      ensures |r| == 1 && '1' <= r[0] <= '8'
      ensures r[0] as int - '1' as int == rankIdx
    {
      [('1' as int + rankIdx) as char]
    }

    /** The file letter, "a".."h". */
    function FileNotation(): (r: string)
      ensures |r| == 1 && 'a' <= r[0] <= 'h'
      ensures r[0] as int - 'a' as int == fileIdx
      ensures r == FILE_NOTATIONS[fileIdx]
    {
      FILE_NOTATIONS[fileIdx]
    }

    /** File letter followed by rank digit. */
    function Notation(): (r: string)
      ensures |r| == 2 && 'a' <= r[0] <= 'h' && '1' <= r[1] <= '8'
      ensures r[0] as int - 'a' as int == fileIdx && r[1] as int - '1' as int == rankIdx
    {
      FileNotation() + RankNotation()
    }
  }

  /** The interned table: entry [i][j] is the square with file i and rank j. */
  ghost predicate IsTable(table: seq<seq<Square>>) {
    && |table| == 8
    && (forall i :: 0 <= i < 8 ==> |table[i]| == 8)
    && forall i, j :: 0 <= i < 8 && 0 <= j < 8 ==> table[i][j] == Square(i, j)
  }

  /** The static initializer: for each file an empty row is pushed onto the
      table first and then filled rank by rank through the table. */
  method BuildTable() returns (table: seq<seq<Square>>)
    ensures IsTable(table)
  {
    table := [];
    var i := 0;
    while i < 8
      invariant 0 <= i <= 8 && |table| == i
      invariant forall a :: 0 <= a < i ==> |table[a]| == 8
      invariant forall a, b :: 0 <= a < i && 0 <= b < 8 ==> table[a][b] == Square(a, b)
    {
      table := table + [[]];
      var j := 0;
      while j < 8
        invariant 0 <= j <= 8 && |table| == i + 1 && |table[i]| == j
        invariant forall a :: 0 <= a < i ==> |table[a]| == 8
        invariant forall a, b :: 0 <= a < i && 0 <= b < 8 ==> table[a][b] == Square(a, b)
        invariant forall b :: 0 <= b < j ==> table[i][b] == Square(i, b)
      {
        table := table[i := table[i] + [Square(i, j)]];
        j := j + 1;
      }
      i := i + 1;
    }
  }

  /** `toFileIndex`: the position of the lower-cased argument among the file
      letters, or `UnknownFile`. */
  function ToFileIndex(fileNotation: string): (r: Result<Coord, SquareError>)
    ensures r.Success? <==> Lower(fileNotation) in FILE_NOTATIONS
    ensures r.Success? ==> FILE_NOTATIONS[r.value] == Lower(fileNotation)
    ensures r.Failure? ==> r.error == UnknownFile
  {
    var not := Lower(fileNotation);
    if not == "a" then Success(0)
    else if not == "b" then Success(1)
    else if not == "c" then Success(2)
    else if not == "d" then Success(3)
    else if not == "e" then Success(4)
    else if not == "f" then Success(5)
    else if not == "g" then Success(6)
    else if not == "h" then Success(7)
    else Failure(UnknownFile)
  }

  /** `checkIndexWithinRange`: `None` when `idx` is a board index, else the
      error named for the coordinate being checked. */
  function CheckIndexWithinRange(idx: int, error: SquareError): (r: Option<SquareError>)
    ensures r.None? <==> 0 <= idx < 8
    ensures r.Some? ==> r.value == error
  {
    if idx < 0 || idx >= 8 then Some(error) else None
  }

  /** `Number(rankStr)` for the one-character string `not[1]`, or for
      `undefined` when the notation has one character: a digit gives its
      value, white space gives 0, anything else (and `undefined`) is NaN,
      written `None`. */
  function NumberOf(rankStr: Option<char>): (r: Option<int>)
    ensures r.Some? <==> rankStr.Some? && ('0' <= rankStr.value <= '9' || IsJsSpace(rankStr.value))
    ensures r.Some? && '0' <= rankStr.value <= '9' ==> r.value == rankStr.value as int - '0' as int
  {
    match rankStr
    case None => None
    case Some(c) =>
      if '0' <= c <= '9' then Some(c as int - '0' as int)
      else if IsJsSpace(c) then Some(0)
      else None
  }

  /** A trimmed notation `Square.square` accepts: a file letter in either
      case followed by a rank digit 1..8. */
  predicate IsSquareNotation(t: string) {
    |t| == 2 && 'a' <= LowerChar(t[0]) <= 'h' && '1' <= t[1] <= '8'
  }

  /** `Square.square`: parses a notation into its interned square. */
  function FromNotation(notation: string): (r: Result<Square, SquareError>)
    ensures r.Success? ==> r.value.Notation() == Lower(Trim(notation))
    ensures (|Trim(notation)| == 0 || |Trim(notation)| > 2) ==> r == Failure(BadFormat)
  {
    ParseTrimmed(Trim(notation))
  }

  /** The body of `Square.square` after `notation.trim()`. */
  function ParseTrimmed(not: string): (r: Result<Square, SquareError>)
    ensures r.Success? ==> r.value.Notation() == Lower(not)
    ensures (|not| == 0 || |not| > 2) ==> r == Failure(BadFormat)
  {
    if |not| > 2 || |not| <= 0 then Failure(BadFormat)
    else
      match ToFileIndex([not[0]])
      case Failure(e) => Failure(e)
      case Success(fileIdx) =>
        match NumberOf(if |not| == 2 then Some(not[1]) else None)
        case None => Failure(RankNotANumber)
        case Some(n) =>
          var rankIdx := n - 1;
          if CheckIndexWithinRange(fileIdx, FileOutOfRange).Some? then Failure(FileOutOfRange)
          else if CheckIndexWithinRange(rankIdx, RankOutOfRange).Some? then Failure(RankOutOfRange)
          else
            assert |not| == 2;
            LowerPair(not);
            var sq := Square(fileIdx, rankIdx);
            assert sq.FileNotation() == [LowerChar(not[0])];
            assert '1' <= not[1] <= '8' && sq.RankNotation() == [not[1]];
            Success(sq)
  }

  /** Lower-casing a two-character string character by character. */
  lemma LowerPair(t: string)
    requires |t| == 2
    ensures Lower(t) == [LowerChar(t[0]), LowerChar(t[1])]
    ensures Lower([t[0]]) == [LowerChar(t[0])]
  {
  }

  /** `Square.square` accepts exactly the notations whose trim is a file
      letter (either case) followed by a digit 1..8. */
  lemma FromNotationAcceptsExactly(notation: string)
    ensures FromNotation(notation).Success? <==> IsSquareNotation(Trim(notation))
  {
    var not := Trim(notation);
    if IsSquareNotation(not) {
      LowerPair(not);
      assert Lower([not[0]]) in FILE_NOTATIONS;
    }
  }

  /** Rendering a square and parsing it back gives the same square. */
  lemma NotationRoundTrip(sq: Square)
    ensures FromNotation(sq.Notation()) == Success(sq)
  {
    var n := sq.Notation();
    TrimFixed(n);
    LowerPair(n);
    assert Lower([n[0]]) == FILE_NOTATIONS[sq.fileIdx];
    assert ParseTrimmed(n) == Success(sq);
  }

  /** Interning: notations that agree once trimmed and lower-cased give the
      same square, or the same error. */
  lemma FromNotationInterned(s1: string, s2: string)
    requires Lower(Trim(s1)) == Lower(Trim(s2))
    ensures FromNotation(s1) == FromNotation(s2)
  {
    var t1, t2 := Trim(s1), Trim(s2);
    assert |t1| == |Lower(t1)| == |t2|;
    if 0 < |t1| <= 2 {
      assert Lower([t1[0]]) == [LowerChar(t1[0])] == [LowerChar(t2[0])] == Lower([t2[0]]);
      if |t1| == 2 {
        assert LowerChar(t1[1]) == LowerChar(t2[1]);
      }
    }
  }

  /** A parsed square is the table entry at its file and rank index. */
  lemma FromNotationIsTableEntry(table: seq<seq<Square>>, notation: string)
    requires IsTable(table)
    requires FromNotation(notation).Success?
    ensures var sq := FromNotation(notation).value;
      table[sq.fileIdx][sq.rankIdx] == sq
  {
  }

  /** The defect of the `file` getter: for every square it reports the rank
      index, so on "a8" it gives 7 where the file index is 0. */
  lemma FileGetterIsRank(sq: Square)
    ensures sq.File() == sq.Rank()
    ensures sq == Square(0, 7) ==> sq.File() != sq.fileIdx
  {
  }
}
