/** What the Base64 coder is for: the decoder undoes the encoders, texts and bytes match one
    to one, and the lines have the length they should. */
module Base64Laws {
  import opened Base64Tables
  import opened Base64

  // ---------------------------------------------------------------- one group, back

  // Three bytes 4p + q, 16h + l and 64m + n have the sextets p, 16q + h, 4l + m and n.

  lemma Scaled(x: int)
    ensures 0 <= x < 64 ==> (x * 4) % 256 == 4 * x && x % 64 == x
    ensures 0 <= x < 16 ==> (x * 16) % 256 == 16 * x && x % 16 == x
    ensures 0 <= x < 4 ==> (x * 64) % 256 == 64 * x && x % 4 == x && (x * 16) % 64 == 16 * x
  {
  }

  lemma Mod256(q: int, x: int)
    ensures (256 * q + x) % 256 == x % 256
  {
  }

  lemma FirstParts(p: int, q: int)
    requires 0 <= p < 64 && 0 <= q < 4
    ensures First(4 * p + q) == p
  {
  }

  lemma SecondParts(p: int, q: int, h: int, l: int)
    requires 0 <= p < 64 && 0 <= q < 4 && 0 <= h < 16 && 0 <= l < 16
    ensures Second(4 * p + q, 16 * h + l) == 16 * q + h
  {
    Mod64(p, 16 * q);
    assert (4 * p + q) * 16 == 64 * p + 16 * q;
    assert (16 * h + l) / 16 == h;
  }

  lemma ThirdParts(h: int, l: int, m: int, n: int)
    requires 0 <= h < 16 && 0 <= l < 16 && 0 <= m < 4 && 0 <= n < 64
    ensures Third(16 * h + l, 64 * m + n) == 4 * l + m
  {
    Mod64(h, 4 * l);
    assert (16 * h + l) * 4 == 64 * h + 4 * l;
    assert (64 * m + n) / 64 == m;
  }

  lemma FourthParts(m: int, n: int)
    requires 0 <= n < 64
    ensures Fourth(64 * m + n) == n
  {
    Mod64(m, n);
  }

  lemma OneParts(p: Sextet, q: int, h: int, x: Sextet)
    requires 0 <= q < 4 && 0 <= h < 16 && x == 16 * q + h
    ensures One(p, x) == 4 * p + q
  {
    Scaled(p);
    assert x / 16 == q;
  }

  lemma TwoParts(q: int, h: int, l: int, m: int, x: Sextet, y: Sextet)
    requires 0 <= q < 4 && 0 <= h < 16 && 0 <= l < 16 && 0 <= m < 4 && x == 16 * q + h && y == 4 * l + m
    ensures Two(x, y) == 16 * h + l
  {
    Mod256(q, 16 * h);
    assert x * 16 == 256 * q + 16 * h;
    assert y / 4 == l;
  }

  lemma ThreeParts(l: int, m: int, n: Sextet, y: Sextet)
    requires 0 <= l < 16 && 0 <= m < 4 && y == 4 * l + m
    ensures Three(y, n) == 64 * m + n
  {
    Mod256(l, 64 * m);
    assert y * 64 == 256 * l + 64 * m;
  }

  /** The bytes of the sextets of three bytes are those bytes. */
  lemma BytesBack(a: Byte, b: Byte, c: Byte)
    ensures var w, x, y, z := First(a), Second(a, b), Third(b, c), Fourth(c);
            One(w, x) == a && Two(x, y) == b && Three(y, z) == c
  {
    hide First, Second, Third, Fourth, One, Two, Three;
    var p, q, h, l, m, n := a / 4, a % 4, b / 16, b % 16, c / 64, c % 64;
    FirstParts(p, q);
    SecondParts(p, q, h, l);
    ThirdParts(h, l, m, n);
    FourthParts(m, n);
    OneParts(First(a), q, h, Second(a, b));
    TwoParts(q, h, l, m, Second(a, b), Third(b, c));
    ThreeParts(l, m, Fourth(c), Third(b, c));
  }

  /** The sextets of the bytes of four sextets are those sextets. */
  lemma SextetsBack(w: Sextet, x: Sextet, y: Sextet, z: Sextet)
    ensures var a, b, c := One(w, x), Two(x, y), Three(y, z);
            First(a) == w && Second(a, b) == x && Third(b, c) == y && Fourth(c) == z
  {
    hide First, Second, Third, Fourth, One, Two, Three;
    var q, h, l, m := x / 16, x % 16, y / 4, y % 4;
    OneParts(w, q, h, x);
    TwoParts(q, h, l, m, x, y);
    ThreeParts(l, m, z, y);
    FirstParts(w, q);
    SecondParts(w, q, h, l);
    ThirdParts(h, l, m, z);
    FourthParts(m, z);
  }

  /** The text of a group, wherever it stands, is read back as the group. */
  lemma GroupDecodes(t: string, i: nat, g: seq<Byte>)
    requires 1 <= |g| <= 3 && i + 4 <= |t|
    ensures t[i..i + 4] == GroupText(g) ==> GroupBytes(t, i) == Bytes(g) && !IsBreak(t[i])
  {
    hide First, Second, Third, Fourth, One, Two, Three, Symbol, Value;
    var a, b, c := g[0], if |g| > 1 then g[1] else 0, if |g| > 2 then g[2] else 0;
    SymbolValue(First(a));
    SymbolValue(Second(a, b));
    SymbolValue(Third(b, c));
    SymbolValue(Fourth(c));
    BytesBack(a, b, c);
    if t[i..i + 4] == GroupText(g) {
      assert t[i] == GroupText(g)[0] && t[i + 1] == GroupText(g)[1];
      assert t[i + 2] == GroupText(g)[2] && t[i + 3] == GroupText(g)[3];
    }
  }

  lemma {:induction false} DecodedAfter(prefix: string, s: seq<Byte>, o: nat, wrap: bool)
    ensures Decoded(prefix + Encoded(s, o, wrap), |prefix|) == Bytes(s)
    decreases |s|
  {
    hide GroupBytes, GroupText;
    var t := prefix + Encoded(s, o, wrap);
    if s != [] {
      var k := Min(3, |s|);
      var br, group, rest := Break(o, wrap), GroupText(s[..k]), Encoded(s[k..], o + 4, wrap);
      var i := |prefix| + |br|;
      assert t == (prefix + br + group) + rest;
      assert t[i..i + 4] == group;
      GroupDecodes(t, i, s[..k]);
      DecodedAfter(prefix + br + group, s[k..], o + 4, wrap);
      assert Decoded(t, i) == Bytes(s[..k] + s[k..]);
      assert s[..k] + s[k..] == s;
      if br != "" {
        assert t[|prefix|] == '\n';
      }
    }
  }

  /** Decoding undoes encoding, for every byte string, wrapped or not, and no read goes
      beyond the text or the table. */
  lemma RoundTrip(s: seq<Byte>, wrap: bool)
    ensures Decoded(Encoded(s, 0, wrap), 0) == Bytes(s)
  {
    DecodedAfter("", s, 0, wrap);
    assert "" + Encoded(s, 0, wrap) == Encoded(s, 0, wrap);
  }

  // ------------------------------------------------------------- canonical texts

  /** Whole groups of symbols, with padding at the end only and zero bits under it. */
  predicate Canonical(t: string) {
    t != "" ==>
      && |t| >= 4
      && IsSymbol(t[0]) && IsSymbol(t[1])
      && if |t| > 4 || t[3] != '=' then
           IsSymbol(t[2]) && IsSymbol(t[3]) && Canonical(t[4..])
         else if t[2] != '=' then
           IsSymbol(t[2]) && Value(t[2] as int) % 4 == 0
         else
           Value(t[1] as int) % 16 == 0
  }

  /** Zero bits under the padding make the missing bytes zero. */
  lemma PaddedBack(w: Sextet, x: Sextet, y: Sextet)
    ensures x % 16 == 0 ==> First(One(w, x)) == w && Second(One(w, x), 0) == x
    ensures y % 4 == 0 ==>
              var a, b := One(w, x), Two(x, y);
              First(a) == w && Second(a, b) == x && Third(b, 0) == y
  {
    hide First, Second, Third, Fourth, One, Two, Three;
    SextetsBack(w, x, y, 0);
    if x % 16 == 0 {
      SextetsBack(w, x, 0, 0);
      TwoParts(x / 16, 0, 0, 0, x, 0);
    }
    if y % 4 == 0 {
      ThreeParts(y / 4, 0, 0, y);
    }
  }

  /** The bytes a canonical group stands for. */
  function GroupOf(t: string): (g: seq<Byte>)
    requires |t| == 4
    ensures 1 <= |g| <= 3
  {
    var w, x, y, z := Value(t[0] as int), Value(t[1] as int), Value(t[2] as int), Value(t[3] as int);
    [One(w, x)]
    + (if t[2] == '=' then [] else if t[3] == '=' then [Two(x, y)] else [Two(x, y), Three(y, z)])
  }

  function BytesOf(t: string): seq<Byte>
    requires Canonical(t)
  {
    if t == "" then [] else GroupOf(t[..4]) + BytesOf(t[4..])
  }

  lemma GroupEncodes(t: string)
    requires Canonical(t) && t != ""
    ensures GroupText(GroupOf(t[..4])) == t[..4]
    ensures |t| > 4 ==> |GroupOf(t[..4])| == 3
  {
    hide One, Two, Three, First, Second, Third, Fourth, Value, Symbol;
    var w, x, y, z := Value(t[0] as int), Value(t[1] as int), Value(t[2] as int), Value(t[3] as int);
    NotPad(t[0]);
    NotPad(t[1]);
    ValueSymbol(t[0]);
    ValueSymbol(t[1]);
    if |t| > 4 || t[3] != '=' {
      NotPad(t[2]);
      NotPad(t[3]);
      ValueSymbol(t[2]);
      ValueSymbol(t[3]);
      SextetsBack(w, x, y, z);
    } else if t[2] != '=' {
      ValueSymbol(t[2]);
      PaddedBack(w, x, y);
    } else {
      PaddedBack(w, x, 0);
    }
  }

  lemma NotPad(c: char)
    requires IsSymbol(c)
    ensures c != '='
  {
  }

  lemma {:induction false} BytesEncode(t: string, o: nat)
    requires Canonical(t)
    ensures Encoded(BytesOf(t), o, false) == t
  {
    hide GroupText, GroupOf;
    if t != "" {
      var g, rest := GroupOf(t[..4]), BytesOf(t[4..]);
      GroupEncodes(t);
      BytesEncode(t[4..], o + 4);
      assert (g + rest)[..|g|] == g && (g + rest)[|g|..] == rest;
      if |t| == 4 {
        assert t[4..] == "";
        assert g + rest == g;
      }
    }
  }

  lemma {:induction false} EncodedCanonical(s: seq<Byte>, o: nat)
    ensures Canonical(Encoded(s, o, false))
    decreases |s|
  {
    hide First, Second, Third, Fourth, Symbol, Value;
    if s != [] {
      var k := Min(3, |s|);
      var t, group, rest := Encoded(s, o, false), GroupText(s[..k]), Encoded(s[k..], o + 4, false);
      EncodedCanonical(s[k..], o + 4);
      assert t == group + rest && t[4..] == rest;
      GroupCanonical(s[..k]);
      if k < 3 {
        assert s[k..] == [];
      }
    }
  }

  lemma GroupCanonical(g: seq<Byte>)
    requires 1 <= |g| <= 3
    ensures var t := GroupText(g);
            && IsSymbol(t[0]) && IsSymbol(t[1])
            && (|g| == 3 ==> IsSymbol(t[2]) && IsSymbol(t[3]))
            && (|g| == 2 ==> IsSymbol(t[2]) && t[3] == '=' && Value(t[2] as int) % 4 == 0)
            && (|g| == 1 ==> t[2] == '=' && t[3] == '=' && Value(t[1] as int) % 16 == 0)
  {
    hide First, Second, Third, Fourth, Symbol, Value;
    SymbolIs(First(g[0]));
    SymbolIs(Second(g[0], if |g| > 1 then g[1] else 0));
    if |g| > 1 {
      SymbolIs(Third(g[1], if |g| > 2 then g[2] else 0));
      LowBits(g[1]);
    }
    if |g| > 2 {
      SymbolIs(Fourth(g[2]));
    }
    LowBits(g[0]);
  }

  lemma LowBits(a: Byte)
    ensures Second(a, 0) % 16 == 0 && Third(a, 0) % 4 == 0
  {
    hide Second, Third;
    SecondParts(a / 4, a % 4, 0, 0);
    ThirdParts(a / 16, a % 16, 0, 0);
  }

  lemma SymbolIs(x: Sextet)
    ensures IsSymbol(Symbol(x)) && Value(Symbol(x) as int) == x && Symbol(x) != '='
  {
  }

  /** The texts that survive decoding and encoding again, unwrapped, are exactly the
      canonical ones; so bytes and canonical texts match one to one. */
  lemma CanonicalTexts(t: string)
    requires Decoded(t, 0).Bytes?
    ensures Encoded(Decoded(t, 0).bytes, 0, false) == t <==> Canonical(t)
  {
    EncodedCanonical(Decoded(t, 0).bytes, 0);
    if Canonical(t) {
      BytesEncode(t, 0);
      RoundTrip(BytesOf(t), false);
    }
  }

  /** Canonical texts do decode. */
  lemma CanonicalDecodes(t: string)
    requires Canonical(t)
    ensures Decoded(t, 0) == Bytes(BytesOf(t)) && Encoded(BytesOf(t), 0, false) == t
  {
    BytesEncode(t, 0);
    RoundTrip(BytesOf(t), false);
  }
}
