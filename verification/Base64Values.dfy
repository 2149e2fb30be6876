/** What Base64 texts and bytes are to each other as numbers, by the alphabet and the examples of
    RFC 4648, and what the decoder makes of any text, well formed or not. */
module Base64Values {
  import opened Base64Tables
  import opened Base64
  import Base64Laws
  import Base64Layout

  /** Section 4 of RFC 4648. */
  const ALPHABET: string := "ABCDEFGHIJKLMNOPQRSTUVWXYZ" + "abcdefghijklmnopqrstuvwxyz" + "0123456789+/"

  /** Symbols and values are those of the alphabet; every other char has the value 0. */
  lemma Alphabet(x: Sextet, c: char)
    ensures |ALPHABET| == 64 && Symbol(x) == ALPHABET[x] && Value(ALPHABET[x] as int) == x
    ensures c !in ALPHABET ==> Value(c as int) == 0
  {
    SymbolAt(x);
    SymbolValue(x);
    if IsSymbol(c) {
      ValueSymbol(c);
      SymbolAt(Value(c as int));
    }
  }

  lemma SymbolAt(x: Sextet)
    ensures |ALPHABET| == 64 && ALPHABET[x] == Symbol(x)
  {
  }

  /** The examples of section 10 of RFC 4648: the bytes of "foobar", and less and less of them. */
  lemma Examples()
    ensures Encoded([], 0, false) == ""
    ensures Encoded([0x66], 0, false) == "Zg==" && Encoded([0x66, 0x6f], 0, false) == "Zm8="
    ensures Encoded([0x66, 0x6f, 0x6f], 0, false) == "Zm9v"
    ensures Encoded([0x66, 0x6f, 0x6f, 0x62], 0, false) == "Zm9vYg=="
    ensures Encoded([0x66, 0x6f, 0x6f, 0x62, 0x61], 0, false) == "Zm9vYmE="
    ensures Encoded([0x66, 0x6f, 0x6f, 0x62, 0x61, 0x72], 0, false) == "Zm9vYmFy"
  {
    hide GroupText, Encoded;
    Short([0x66], 0);
    Short([0x66, 0x6f], 0);
    Short([0x66, 0x6f, 0x6f], 0);
    Longer([0x66, 0x6f, 0x6f], [0x62]);
    Longer([0x66, 0x6f, 0x6f], [0x62, 0x61]);
    Longer([0x66, 0x6f, 0x6f], [0x62, 0x61, 0x72]);
    FirstGroups();
    SecondGroups();
    Nothing();
    assert [0x66, 0x6f, 0x6f] + [0x62] == [0x66, 0x6f, 0x6f, 0x62] && "Zm9v" + "Yg==" == "Zm9vYg==";
    assert [0x66, 0x6f, 0x6f] + [0x62, 0x61] == [0x66, 0x6f, 0x6f, 0x62, 0x61] && "Zm9v" + "YmE=" == "Zm9vYmE=";
    assert [0x66, 0x6f, 0x6f] + [0x62, 0x61, 0x72] == [0x66, 0x6f, 0x6f, 0x62, 0x61, 0x72];
    assert "Zm9v" + "YmFy" == "Zm9vYmFy";
  }

  lemma Nothing()
    ensures Encoded([], 0, false) == "" && Encoded([], 0, true) == ""
  {
  }

  lemma FirstGroups()
    ensures GroupText([0x66]) == "Zg==" && GroupText([0x66, 0x6f]) == "Zm8=" && GroupText([0x66, 0x6f, 0x6f]) == "Zm9v"
  {
  }

  lemma SecondGroups()
    ensures GroupText([0x62]) == "Yg==" && GroupText([0x62, 0x61]) == "YmE=" && GroupText([0x62, 0x61, 0x72]) == "YmFy"
  {
  }

  lemma Short(g: seq<Byte>, o: nat)
    requires 1 <= |g| <= 3
    ensures Encoded(g, o, false) == GroupText(g)
  {
    assert g[..|g|] == g && g[|g|..] == [];
    assert Encoded(g, o, false) == "" + GroupText(g) + "";
  }

  lemma Longer(g: seq<Byte>, rest: seq<Byte>)
    requires |g| == 3 && 1 <= |rest| <= 3
    ensures Encoded(g + rest, 0, false) == GroupText(g) + GroupText(rest)
  {
    hide GroupText;
    assert (g + rest)[..3] == g && (g + rest)[3..] == rest;
    Short(rest, 4);
    assert Encoded(g + rest, 0, false) == "" + GroupText(g) + GroupText(rest);
  }

  // --------------------------------------------------------------------- as numbers

  function Number64(w: Sextet, x: Sextet, y: Sextet, z: Sextet): nat {
    0x4_0000 * w + 0x1000 * x + 0x40 * y + z
  }

  function Number256(a: Byte, b: Byte, c: Byte): nat {
    0x1_0000 * a + 0x100 * b + c
  }

  /** Three bytes and the four sextets they are written in are one number. */
  lemma SameNumber(a: Byte, b: Byte, c: Byte)
    ensures Number64(First(a), Second(a, b), Third(b, c), Fourth(c)) == Number256(a, b, c)
  {
    hide First, Second, Third, Fourth;
    var p, q, h, l, m, n := a / 4, a % 4, b / 16, b % 16, c / 64, c % 64;
    Base64Laws.FirstParts(p, q);
    Base64Laws.SecondParts(p, q, h, l);
    Base64Laws.ThirdParts(h, l, m, n);
    Base64Laws.FourthParts(m, n);
  }

  /** So are any four sextets and the three bytes they are read as. */
  lemma SameNumberBack(w: Sextet, x: Sextet, y: Sextet, z: Sextet)
    ensures Number256(One(w, x), Two(x, y), Three(y, z)) == Number64(w, x, y, z)
  {
    hide One, Two, Three;
    var q, h, l, m := x / 16, x % 16, y / 4, y % 4;
    Base64Laws.OneParts(w, q, h, x);
    Base64Laws.TwoParts(q, h, l, m, x, y);
    Base64Laws.ThreeParts(l, m, z, y);
  }

  /** The bytes of a number. */
  lemma Digits(a: Byte, b: Byte, c: Byte, n: nat)
    requires n == Number256(a, b, c)
    ensures n / 0x1_0000 == a && n / 0x100 % 0x100 == b && n % 0x100 == c
  {
    assert n == 0x100 * (0x100 * a + b) + c;
    assert n / 0x100 == 0x100 * a + b;
  }

  /** The char at a place, or the zero char that ends the text. */
  function CharAt(t: string, k: nat): char {
    if k < |t| then t[k] else '\0'
  }

  /** Any four chars of the table are read as the bytes of the number they write, other chars,
      and a missing last one, counting as 0; padding leaves out a byte, in the third place the
      middle one and in the last place the last. */
  lemma GroupNumber(t: string, i: nat)
    requires i + 3 <= |t| && forall k :: i <= k < i + 4 ==> CharAt(t, k) as int < 128
    ensures var n := Number64(Value(t[i] as int), Value(t[i + 1] as int), Value(t[i + 2] as int), Value(CharAt(t, i + 3) as int));
            GroupBytes(t, i)
            == Bytes([n / 0x1_0000] + (if t[i + 2] == '=' then [] else [n / 0x100 % 0x100])
                     + (if CharAt(t, i + 3) == '=' then [] else [n % 0x100]))
  {
    hide One, Two, Three, Value;
    assert CharAt(t, i) == t[i] && CharAt(t, i + 1) == t[i + 1] && CharAt(t, i + 2) == t[i + 2];
    assert CharAt(t, i + 3) as int < 128;
    var w, x, y, z := Value(t[i] as int), Value(t[i + 1] as int), Value(t[i + 2] as int), Value(CharAt(t, i + 3) as int);
    SameNumberBack(w, x, y, z);
    Digits(One(w, x), Two(x, y), Three(y, z), Number64(w, x, y, z));
  }

  // ----------------------------------------------------------------------- any text

  predicate Unbroken(t: string) {
    forall k :: 0 <= k < |t| ==> !IsBreak(t[k])
  }

  predicate InTable(t: string) {
    forall k :: 0 <= k < |t| ==> t[k] as int < 128
  }

  /** A text without line breaks is decoded exactly when all its chars are in the table and
      its last group has at least three: a missing fourth is read as the end of the text. */
  lemma {:induction false} DecodesExactly(t: string, i: nat)
    requires Unbroken(t) && i <= |t|
    ensures Decoded(t, i).Bytes? <==> InTable(t[i..]) && (|t| - i) % 4 != 1 && (|t| - i) % 4 != 2
    decreases |t| - i
  {
    hide One, Two, Three, Value;
    if i + 4 <= |t| {
      DecodesExactly(t, i + 4);
      assert t[i..] == [t[i], t[i + 1], t[i + 2], t[i + 3]] + t[i + 4..];
      FourInTable(t, i);
    } else if i < |t| {
      assert t[i..][0] == t[i];
      if i + 1 < |t| {
        assert t[i..][1] == t[i + 1];
      }
      if i + 2 < |t| {
        assert t[i..][2] == t[i + 2];
      }
      assert i + 4 > |t| ==> Decoded(t, i + 4) == Bytes([]);
    }
  }

  lemma FourInTable(t: string, i: nat)
    requires i + 4 <= |t|
    ensures InTable(t[i..]) <==> InTable(t[i + 4..]) && Code(t, i) >= 0 && Code(t, i + 1) >= 0 && Code(t, i + 2) >= 0
                                 && Code(t, i + 3) >= 0
  {
    if InTable(t[i..]) {
      assert t[i] == t[i..][0] && t[i + 1] == t[i..][1] && t[i + 2] == t[i..][2] && t[i + 3] == t[i..][3];
      var rest := t[i + 4..];
      forall k | 0 <= k < |rest|
        ensures rest[k] as int < 128
      {
        assert rest[k] == t[i..][k + 4];
      }
    } else {
      var k :| 0 <= k < |t[i..]| && t[i..][k] as int >= 128;
      assert k >= 4 ==> t[i + 4..][k - 4] == t[i..][k];
    }
  }

  /** What a text decodes to does not depend on what stands before it. */
  lemma {:induction false} DecodedShifted(p: string, t: string, i: nat)
    requires i <= |t| + 4
    ensures Decoded(p + t, |p| + i) == Decoded(t, i)
    decreases |t| + 4 - i
  {
    hide One, Two, Three, Value;
    if i < |t| {
      assert (p + t)[|p| + i] == t[i];
      if IsBreak(t[i]) {
        DecodedShifted(p, t, i + 1);
      } else {
        DecodedShifted(p, t, i + 4);
        assert Code(p + t, |p| + i) == Code(t, i) && Code(p + t, |p| + i + 1) == Code(t, i + 1);
        assert Code(p + t, |p| + i + 2) == Code(t, i + 2) && Code(p + t, |p| + i + 3) == Code(t, i + 3);
      }
    }
  }

  /** Whole groups decode to what they decode to by themselves, and then the rest. */
  lemma {:induction false} DecodedInParts(a: string, b: string, i: nat)
    requires Unbroken(a) && |a| % 4 == 0 && i <= |a| && i % 4 == 0
    ensures Decoded(a + b, i) == Prepend(Decoded(a, i), Decoded(b, 0))
    decreases |a| - i
  {
    hide One, Two, Three, Value;
    if i == |a| {
      DecodedShifted(a, b, 0);
      assert Prepend(Bytes([]), Decoded(b, 0)) == Decoded(b, 0);
    } else {
      DecodedInParts(a, b, i + 4);
      assert (a + b)[i] == a[i];
      assert Code(a + b, i) == Code(a, i) && Code(a + b, i + 1) == Code(a, i + 1);
      assert Code(a + b, i + 2) == Code(a, i + 2) && Code(a + b, i + 3) == Code(a, i + 3);
      Prepends(GroupBytes(a, i), Decoded(a, i + 4), Decoded(b, 0));
    }
  }

  lemma Prepends(a: Decoding, b: Decoding, c: Decoding)
    ensures Prepend(a, Prepend(b, c)) == Prepend(Prepend(a, b), c)
  {
    if a.Bytes? && b.Bytes? && c.Bytes? {
      assert a.bytes + (b.bytes + c.bytes) == (a.bytes + b.bytes) + c.bytes;
    }
  }

  predicate AllBreaks(t: string) {
    forall k :: 0 <= k < |t| ==> t[k] == '\r' || t[k] == '\n'
  }

  /** Line breaks of either kind, any number of them, between groups, before the first and
      behind the last, mean nothing. */
  lemma {:induction false} BreaksSkipped(a: string, breaks: string, b: string)
    requires Unbroken(a) && |a| % 4 == 0 && AllBreaks(breaks)
    ensures Decoded(a + breaks + b, 0) == Decoded(a + b, 0)
  {
    assert a + breaks + b == a + (breaks + b);
    DecodedInParts(a, breaks + b, 0);
    DecodedInParts(a, b, 0);
    LeadingBreaks(breaks, b);
  }

  lemma {:induction false} LeadingBreaks(breaks: string, b: string)
    requires AllBreaks(breaks)
    ensures Decoded(breaks + b, 0) == Decoded(b, 0)
  {
    if breaks == "" {
      assert breaks + b == b;
    } else {
      var rest := breaks[1..];
      LeadingBreaks(rest, b);
      assert breaks + b == [breaks[0]] + (rest + b);
      DecodedShifted([breaks[0]], rest + b, 0);
      assert (breaks + b)[0] == breaks[0];
    }
  }

  // --------------------------------------------------------------------- wrapped text

  function Stripped(t: string): string {
    if t == "" then "" else (if t[0] == '\n' then "" else [t[0]]) + Stripped(t[1..])
  }

  lemma {:induction false} StrippedInParts(a: string, b: string)
    ensures Stripped(a + b) == Stripped(a) + Stripped(b)
  {
    if a == "" {
      assert a + b == b;
    } else {
      assert (a + b)[1..] == a[1..] + b;
      StrippedInParts(a[1..], b);
    }
  }

  lemma {:induction false} NothingStripped(t: string)
    requires Unbroken(t)
    ensures Stripped(t) == t
  {
    if t != "" {
      NothingStripped(t[1..]);
    }
  }

  /** Wrapped text is the unwrapped text with line breaks put in. */
  lemma {:induction false} WrappedIsUnwrapped(s: seq<Byte>, o: nat)
    ensures Stripped(Encoded(s, o, true)) == Encoded(s, o, false)
    decreases |s|
  {
    hide GroupText;
    if s != [] {
      var k := Min(3, |s|);
      var br, group, rest := Break(o, true), GroupText(s[..k]), Encoded(s[k..], o + 4, true);
      WrappedIsUnwrapped(s[k..], o + 4);
      StrippedInParts(br + group, rest);
      StrippedInParts(br, group);
      forall j | 0 <= j < |group|
        ensures !IsBreak(group[j])
      {
        Base64Layout.GroupUnbroken(s[..k], j);
      }
      NothingStripped(group);
      BreakStripped(o);
      assert Encoded(s, o, false) == "" + group + Encoded(s[k..], o + 4, false);
    }
  }

  lemma BreakStripped(o: nat)
    ensures Stripped(Break(o, true)) == ""
  {
  }

  /** The length announced for wrapped text is the number of bytes exactly when there is just
      one line; and a text of a length that is no multiple of four is announced as nothing. */
  lemma AnnouncedOfWrapped(s: seq<Byte>)
    ensures Announced(Encoded(s, 0, true)) == |s| <==> Base64Layout.Symbols(|s|) <= 76
    ensures |Encoded(s, 0, true)| % 4 != 0 ==> Announced(Encoded(s, 0, true)) == 0
  {
    hide Encoded;
    if s == [] {
      Nothing();
    } else {
      var n := Base64Layout.Symbols(|s|);
      Base64Layout.LengthOf(s, 0, true);
      if n <= 76 {
        OneLine(s, 0);
        Base64Layout.AnnouncedOfEncoded(s);
      } else {
        AnnouncedTooMuch(s);
      }
    }
  }

  lemma {:induction false} OneLine(s: seq<Byte>, o: nat)
    requires o + Base64Layout.Symbols(|s|) <= 76 && o % 4 == 0
    ensures Encoded(s, o, true) == Encoded(s, o, false)
    decreases |s|
  {
    hide GroupText;
    if s != [] {
      var k := Min(3, |s|);
      assert Base64Layout.Symbols(|s|) == 4 + Base64Layout.Symbols(|s| - k);
      OneLine(s[k..], o + 4);
    }
  }

  lemma AnnouncedTooMuch(s: seq<Byte>)
    requires Base64Layout.Symbols(|s|) > 76
    ensures Announced(Encoded(s, 0, true)) != |s|
  {
    hide Encoded;
    Base64Layout.LengthOf(s, 0, true);
    TooMuch(|s|, |Encoded(s, 0, true)|);
  }

  lemma TooMuch(n: nat, length: nat)
    requires var symbols := Base64Layout.Symbols(n); symbols > 76 && length == symbols + (symbols - 1) / 76
    ensures length % 4 == 0 ==> 3 * (length / 4) - 2 > n
  {
    var groups := (n + 2) / 3;
    var lines := (4 * groups - 1) / 76;
    if length % 4 == 0 {
      assert lines % 4 == 0 && lines >= 1;
      assert length / 4 == groups + lines / 4;
      assert 3 * groups >= n;
    }
  }
}
