/** The length of encoded texts, their lines, and the length announced for a text. */
module Base64Layout {
  import opened Base64Tables
  import opened Base64
  import Base64Laws

  /** The symbols of n bytes, with the padding. */
  function Symbols(n: nat): nat {
    4 * ((n + 2) / 3)
  }

  /** The line breaks made before the symbol at o: one per 76 symbols out, none at the start
      and none yet at o itself. */
  function Breaks(o: nat): nat {
    if o == 0 then 0 else (o - 1) / 76
  }

  lemma BreakStep(o: nat)
    requires o % 4 == 0
    ensures Breaks(o + 4) == Breaks(o) + if o != 0 && o % 76 == 0 then 1 else 0
  {
    var k, r := o / 76, o % 76;
    assert o == 76 * k + r && r % 4 == 0;
    if r > 0 {
      assert r <= 72;
    }
  }

  /** Where the symbol at o stands in its line. */
  lemma Column(o: nat)
    requires o % 4 == 0
    ensures o != 0 && o % 76 == 0 ==> (o + Breaks(o)) % 77 == 76
    ensures o == 0 || o % 76 != 0 ==> (o + Breaks(o)) % 77 <= 72
  {
    var k, r := o / 76, o % 76;
    assert o == 76 * k + r && r % 4 == 0;
    if r > 0 {
      assert r <= 72 && Breaks(o) == k && o + Breaks(o) == 77 * k + r;
    } else if o > 0 {
      assert Breaks(o) == k - 1 && o + Breaks(o) == 77 * (k - 1) + 76;
    }
  }

  lemma {:induction false} LengthOf(s: seq<Byte>, o: nat, wrap: bool)
    requires o % 4 == 0
    ensures |Encoded(s, o, wrap)|
            == Symbols(|s|) + if wrap then Breaks(o + Symbols(|s|)) - Breaks(o) else 0
    decreases |s|
  {
    hide GroupText, Breaks;
    if s != [] {
      var k := Min(3, |s|);
      LengthOf(s[k..], o + 4, wrap);
      BreakStep(o);
      assert Symbols(|s|) == 4 + Symbols(|s| - k);
    }
  }

  lemma GroupUnbroken(g: seq<int>, j: nat)
    requires 1 <= |g| <= 3 && j < 4
    ensures !IsBreak(GroupText(g)[j])
  {
    hide First, Second, Third, Fourth, Symbol;
    SymbolValue(First(g[0]));
    SymbolValue(Second(g[0], if |g| > 1 then g[1] else 0));
    if |g| > 1 {
      SymbolValue(Third(g[1], if |g| > 2 then g[2] else 0));
    }
    if |g| > 2 {
      SymbolValue(Fourth(g[2]));
    }
  }

  lemma {:induction false} LineBreaks(s: seq<Byte>, o: nat, j: nat)
    requires o % 4 == 0 && j < |Encoded(s, o, true)|
    ensures Encoded(s, o, true)[j] == '\n' <==> (o + Breaks(o) + j) % 77 == 76
    decreases |s|
  {
    hide GroupText, Breaks;
    var k := Min(3, |s|);
    var br, group, rest := Break(o, true), GroupText(s[..k]), Encoded(s[k..], o + 4, true);
    var t := Encoded(s, o, true);
    assert t == br + group + rest;
    BreakStep(o);
    Column(o);
    if j < |br| {
      assert t[j] == br[j];
    } else if j < |br| + 4 {
      assert t[j] == group[j - |br|];
      GroupUnbroken(s[..k], j - |br|);
    } else {
      assert t[j] == rest[j - |br| - 4];
      LineBreaks(s[k..], o + 4, j - |br| - 4);
    }
  }

  /** Wrapped text: a line break after exactly every 76 symbols and none at the end, so no
      line is longer than section 6.8 of RFC 2045 allows. */
  lemma Layout(s: seq<Byte>)
    requires s != []
    ensures var t, n := Encoded(s, 0, true), Symbols(|s|);
            && |t| == n + (n - 1) / 76
            && (forall j :: 0 <= j < |t| ==> (t[j] == '\n' <==> j % 77 == 76))
            && t[|t| - 1] != '\n'
    ensures |Encoded(s, 0, false)| == Symbols(|s|)
  {
    hide GroupText;
    LengthOf(s, 0, true);
    LengthOf(s, 0, false);
    var t, n := Encoded(s, 0, true), Symbols(|s|);
    forall j | 0 <= j < |t|
      ensures t[j] == '\n' <==> j % 77 == 76
    {
      LineBreaks(s, 0, j);
    }
    Column(n - 4);
    BreakStep(n - 4);
    assert |t| - 1 == n - 4 + Breaks(n) + 3;
  }

  // ------------------------------------------------------------- announced length

  /** The padding in the groups from i to j. */
  function Pads(t: string, i: nat, j: nat): nat
    requires i <= j <= |t| && i % 4 == 0 && j % 4 == 0
    decreases j - i
  {
    if i == j then 0 else PadAt(t, i + 2) + PadAt(t, i + 3) + Pads(t, i + 4, j)
  }

  /** Whole groups of chars in the table, none of which starts with a line break. */
  predicate Grouped(t: string) {
    && |t| % 4 == 0
    && (forall k :: 0 <= k < |t| ==> t[k] as int < 128)
    && forall k :: 0 <= k < |t| && k % 4 == 0 ==> !IsBreak(t[k])
  }

  lemma {:induction false} DecodedSize(t: string, i: nat)
    requires Grouped(t) && i <= |t| && i % 4 == 0
    ensures Decoded(t, i).Bytes? && |Decoded(t, i).bytes| == 3 * ((|t| - i) / 4) - Pads(t, i, |t|)
    decreases |t| - i
  {
    hide One, Two, Three, Value;
    if i < |t| {
      DecodedSize(t, i + 4);
      assert |GroupBytes(t, i).bytes| == 3 - PadAt(t, i + 2) - PadAt(t, i + 3);
    }
  }

  lemma {:induction false} PadsSplit(t: string, i: nat, j: nat, k: nat)
    requires i <= j <= k <= |t| && i % 4 == 0 && j % 4 == 0 && k % 4 == 0
    ensures Pads(t, i, k) == Pads(t, i, j) + Pads(t, j, k)
    decreases j - i
  {
    if i < j {
      PadsSplit(t, i + 4, j, k);
    }
  }

  lemma AnnouncedPads(t: string)
    requires |t| % 4 == 0 && |t| >= 4
    ensures Announced(t) == 3 * (|t| / 4) - Pads(t, |t| - 4, |t|)
  {
  }

  /** On unwrapped nonempty text, which does decode, the announced length is the decoded
      size exactly when no group before the last holds padding. */
  lemma AnnouncedLength(t: string)
    requires Grouped(t) && |t| >= 4
    ensures Decoded(t, 0).Bytes?
    ensures Announced(t) == |Decoded(t, 0).bytes| <==> Pads(t, 0, |t| - 4) == 0
  {
    hide Announced, Pads, Decoded;
    DecodedSize(t, 0);
    PadsSplit(t, 0, |t| - 4, |t|);
    AnnouncedPads(t);
  }

  lemma {:induction false} LastChars(s: seq<Byte>, o: nat)
    requires s != []
    ensures var t := Encoded(s, o, false);
            |t| >= 4 && PadAt(t, |t| - 2) + PadAt(t, |t| - 1) == 3 * ((|s| + 2) / 3) - |s|
    decreases |s|
  {
    hide First, Second, Third, Fourth, Symbol, Value;
    var k := Min(3, |s|);
    var t, group, rest := Encoded(s, o, false), GroupText(s[..k]), Encoded(s[k..], o + 4, false);
    assert t == group + rest;
    if |s| > 3 {
      LastChars(s[k..], o + 4);
    } else {
      assert rest == "";
      Base64Laws.GroupCanonical(s);
      assert s[..k] == s;
      if |s| == 3 {
        SymbolValue(Fourth(s[2]));
      }
      if |s| >= 2 {
        SymbolValue(Third(s[1], if |s| > 2 then s[2] else 0));
      }
    }
  }

  /** The length announced for an encoder's unwrapped output is the number of bytes. */
  lemma AnnouncedOfEncoded(s: seq<Byte>)
    ensures Announced(Encoded(s, 0, false)) == |s|
  {
    hide Encoded, PadAt;
    if s == [] {
      NothingEncoded();
    } else {
      LengthOf(s, 0, false);
      LastChars(s, 0);
    }
  }

  lemma NothingEncoded()
    ensures Encoded([], 0, false) == ""
  {
  }
}
