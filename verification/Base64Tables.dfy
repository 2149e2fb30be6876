/** The two tables of the Base64 coder, and the arithmetic of one group. */
module Base64Tables {

  type Byte = b: int | 0 <= b < 256

  type Sextet = x: int | 0 <= x < 64

  const BSTR: string :=
    "ABCDEFGHIJKLMNOPQ"
    + "RSTUVWXYZabcdefgh"
    + "ijklmnopqrstuvwxy"
    + "z0123456789+/"

  const ROWS: seq<seq<int>> := [
    [ 0,  0,  0,  0,  0,  0,  0,  0,  0,  0,  0,  0,  0,  0,  0,  0],
    [ 0,  0,  0,  0,  0,  0,  0,  0,  0,  0,  0,  0,  0,  0,  0,  0],
    [ 0,  0,  0,  0,  0,  0,  0,  0,  0,  0,  0, 62,  0,  0,  0, 63],
    [52, 53, 54, 55, 56, 57, 58, 59, 60, 61,  0,  0,  0,  0,  0,  0],
    [ 0,  0,  1,  2,  3,  4,  5,  6,  7,  8,  9, 10, 11, 12, 13, 14],
    [15, 16, 17, 18, 19, 20, 21, 22, 23, 24, 25,  0,  0,  0,  0,  0],
    [ 0, 26, 27, 28, 29, 30, 31, 32, 33, 34, 35, 36, 37, 38, 39, 40],
    [41, 42, 43, 44, 45, 46, 47, 48, 49, 50, 51,  0,  0,  0,  0,  0]]

  /** The decoding table, of 128 entries in eight rows. */
  function Rstr(c: nat): int
    requires c < 128
  {
    Rows();
    ROWS[c / 16][c % 16]
  }

  lemma Rows()
    ensures |ROWS| == 8 && forall r :: 0 <= r < 8 ==> |ROWS[r]| == 16
  {
  }

  /** The value of a symbol by the alphabet of section 4 of RFC 4648; others count as 0. */
  function Value(c: int): (x: Sextet) {
    if 'A' as int <= c <= 'Z' as int then c - 'A' as int
    else if 'a' as int <= c <= 'z' as int then c - 'a' as int + 26
    else if '0' as int <= c <= '9' as int then c - '0' as int + 52
    else if c == '+' as int then 62
    else if c == '/' as int then 63
    else 0
  }

  /** The alphabet of RFC 4648. */
  function Symbol(x: Sextet): char {
    if x < 26 then ('A' as int + x) as char
    else if x < 52 then ('a' as int + x - 26) as char
    else if x < 62 then ('0' as int + x - 52) as char
    else if x == 62 then '+'
    else '/'
  }

  /** The encoding table is the alphabet. */
  lemma EncodingTable(x: Sextet)
    ensures |BSTR| == 64 && BSTR[x] == Symbol(x)
  {
  }

  lemma SignRows(i: nat)
    requires i < 16
    ensures ROWS[0][i] == Value(i) && ROWS[1][i] == Value(16 + i)
    ensures ROWS[2][i] == Value(32 + i) && ROWS[3][i] == Value(48 + i)
  {
  }

  lemma CapitalRows(i: nat)
    requires i < 16
    ensures ROWS[4][i] == Value(64 + i) && ROWS[5][i] == Value(80 + i)
  {
  }

  lemma SmallRows(i: nat)
    requires i < 16
    ensures ROWS[6][i] == Value(96 + i) && ROWS[7][i] == Value(112 + i)
  {
  }

  /** The decoding table is its inverse, and 0 elsewhere. */
  lemma DecodingTable(c: nat)
    requires c < 128
    ensures Rstr(c) == Value(c)
  {
    hide Value;
    var r, i := c / 16, c % 16;
    SignRows(i);
    CapitalRows(i);
    SmallRows(i);
    assert c == 16 * r + i;
    assert r == 0 || r == 1 || r == 2 || r == 3 || r == 4 || r == 5 || r == 6 || r == 7;
  }

  lemma SymbolValue(x: Sextet)
    ensures Symbol(x) as int < 128 && Value(Symbol(x) as int) == x
    ensures Symbol(x) != '=' && Symbol(x) != '\n' && Symbol(x) != '\r'
  {
  }

  predicate IsSymbol(c: char) {
    'A' <= c <= 'Z' || 'a' <= c <= 'z' || '0' <= c <= '9' || c == '+' || c == '/'
  }

  lemma ValueSymbol(c: char)
    requires IsSymbol(c)
    ensures Symbol(Value(c as int)) == c
  {
  }
}
