/** The Base64 coder: three encoders, two decoders and a length. */
module Base64 {
  import opened Base64Tables

  // ------------------------------------------------------------------ one group

  /** The four sextets of up to three chars; shifts and masks on integers, which may be
      negative when a char is signed. */
  function First(a: int): Sextet { (a / 4) % 64 }
  function Second(a: int, b: int): Sextet { (a * 16) % 64 + (b / 16) % 16 }
  function Third(b: int, c: int): Sextet { (b * 4) % 64 + (c / 64) % 4 }
  function Fourth(c: int): Sextet { c % 64 }

  function GroupText(g: seq<int>): (t: string)
    requires 1 <= |g| <= 3
    ensures |t| == 4
  {
    if |g| == 1 then [Symbol(First(g[0])), Symbol(Second(g[0], 0)), '=', '=']
    else if |g| == 2 then [Symbol(First(g[0])), Symbol(Second(g[0], g[1])), Symbol(Third(g[1], 0)), '=']
    else [Symbol(First(g[0])), Symbol(Second(g[0], g[1])), Symbol(Third(g[1], g[2])), Symbol(Fourth(g[2]))]
  }

  function Min(a: nat, b: nat): nat {
    if a < b then a else b
  }

  function Break(o: nat, wrap: bool): string {
    if wrap && o != 0 && o % 76 == 0 then "\n" else ""
  }

  /** The text of s when o symbols are already out. */
  function Encoded(s: seq<Byte>, o: nat, wrap: bool): string
    decreases |s|
  {
    if s == [] then ""
    else
      var k := Min(3, |s|);
      Break(o, wrap) + GroupText(s[..k]) + Encoded(s[k..], o + 4, wrap)
  }

  // ------------------------------------------------------------------- encoding

  type SignedChar = c: int | -128 <= c < 128

  function Unsigned(c: int): Byte {
    c % 256
  }

  function UnsignedAll(s: seq<int>): (r: seq<Byte>)
    ensures |r| == |s|
  {
    seq(|s|, i requires 0 <= i < |s| => Unsigned(s[i]))
  }

  lemma Mod64(q: int, x: int)
    ensures (64 * q + x) % 64 == x % 64
  {
  }

  lemma Mod16(q: int, x: int)
    ensures (16 * q + x) % 16 == x % 16
  {
  }

  lemma Mod4(q: int, x: int)
    ensures (4 * q + x) % 4 == x % 4
  {
  }

  lemma Quotients(c: int, q: int, u: int)
    requires c == 256 * q + u && 0 <= u < 256
    ensures c / 4 == 64 * q + u / 4
    ensures c / 16 == 16 * q + u / 16
    ensures c / 64 == 4 * q + u / 64
  {
  }

  lemma SignOfOne(c: int)
    ensures First(Unsigned(c)) == First(c) && Fourth(Unsigned(c)) == Fourth(c)
    ensures Unsigned(c) * 16 % 64 == c * 16 % 64 && Unsigned(c) * 4 % 64 == c * 4 % 64
    ensures Unsigned(c) / 16 % 16 == c / 16 % 16 && Unsigned(c) / 64 % 4 == c / 64 % 4
  {
    var q, u := c / 256, Unsigned(c);
    assert c == 256 * q + u;
    Quotients(c, q, u);
    Mod64(q, u / 4);
    Mod64(4 * q, u);
    Mod64(64 * q, u * 16);
    Mod64(16 * q, u * 4);
    Mod16(q, u / 16);
    Mod4(q, u / 64);
  }

  /** Sign does not matter to the symbols. */
  lemma SignDropped(a: int, b: int, c: int)
    ensures First(Unsigned(a)) == First(a)
    ensures Second(Unsigned(a), Unsigned(b)) == Second(a, b) && Second(Unsigned(a), 0) == Second(a, 0)
    ensures Third(Unsigned(b), Unsigned(c)) == Third(b, c) && Third(Unsigned(b), 0) == Third(b, 0)
    ensures Fourth(Unsigned(c)) == Fourth(c)
  {
    hide Unsigned;
    SignOfOne(a);
    SignOfOne(b);
    SignOfOne(c);
  }

  lemma GroupUnsigned(g: seq<int>)
    requires 1 <= |g| <= 3
    ensures GroupText(UnsignedAll(g)) == GroupText(g)
  {
    hide First, Second, Third, Fourth, Unsigned;
    SignDropped(g[0], if |g| > 1 then g[1] else 0, if |g| > 2 then g[2] else 0);
  }

  /** One group of the output; remain is the number of chars from i on. */
  method AppendGroup(input: seq<int>, i: nat, remain: nat, output: string) returns (out: string)
    requires 1 <= remain && i + Min(3, remain) <= |input|
    ensures out == output + GroupText(input[i..i + Min(3, remain)])
  {
    hide First, Second, Third, Fourth, Symbol;
    EncodingTable(First(input[i]));
    EncodingTable(Second(input[i], 0));
    out := output;
    if remain == 1 {
      out := out + [BSTR[First(input[i])]];
      out := out + [BSTR[Second(input[i], 0)]];
      out := out + "==";
    } else if remain == 2 {
      EncodingTable(Second(input[i], input[i + 1]));
      EncodingTable(Third(input[i + 1], 0));
      out := out + [BSTR[First(input[i])]];
      out := out + [BSTR[Second(input[i], input[i + 1])]];
      out := out + [BSTR[Third(input[i + 1], 0)]];
      out := out + "=";
    } else {
      EncodingTable(Second(input[i], input[i + 1]));
      EncodingTable(Third(input[i + 1], input[i + 2]));
      EncodingTable(Fourth(input[i + 2]));
      out := out + [BSTR[First(input[i])]];
      out := out + [BSTR[Second(input[i], input[i + 1])]];
      out := out + [BSTR[Third(input[i + 1], input[i + 2])]];
      out := out + [BSTR[Fourth(input[i + 2])]];
    }
  }

  lemma NextGroup(s: seq<Byte>, i: nat, o: nat, wrap: bool)
    requires i < |s|
    ensures var k := Min(3, |s| - i);
            Encoded(s[i..], o, wrap) == Break(o, wrap) + GroupText(s[i..i + k]) + Encoded(s[i + k..], o + 4, wrap)
  {
    var k := Min(3, |s| - i);
    assert s[i..][..k] == s[i..i + k] && s[i..][k..] == s[i + k..];
  }

  /** The text is what is out followed by the text of the rest. */
  predicate Progress(s: seq<Byte>, i: nat, o: nat, wrap: bool, output: string) {
    i <= |s| && output + Encoded(s[i..], o, wrap) == Encoded(s, 0, wrap)
  }

  lemma ProgressStart(s: seq<Byte>, wrap: bool)
    ensures Progress(s, 0, 0, wrap, "")
  {
    assert s[0..] == s;
  }

  lemma ProgressEnd(s: seq<Byte>, o: nat, wrap: bool, output: string)
    requires Progress(s, |s|, o, wrap, output)
    ensures output == Encoded(s, 0, wrap)
  {
    assert Encoded(s[|s|..], o, wrap) == "";
  }

  lemma ProgressStep(s: seq<Byte>, i: nat, o: nat, wrap: bool, output: string)
    requires i < |s|
    ensures var k := Min(3, |s| - i);
            Progress(s, i, o, wrap, output) ==>
              Progress(s, i + k, o + 4, wrap, output + Break(o, wrap) + GroupText(s[i..i + k]))
  {
    hide Encoded, GroupText, Break;
    NextGroup(s, i, o, wrap);
  }

  /** What each turn of the encoders' loops does. */
  method AppendLine(input: seq<int>, i: nat, remain: nat, o: nat, wrap: bool, output: string) returns (out: string)
    requires 1 <= remain && i + Min(3, remain) <= |input|
    ensures out == output + Break(o, wrap) + GroupText(input[i..i + Min(3, remain)])
  {
    hide GroupText;
    out := output;
    if wrap && o != 0 && o % 76 == 0 {
      out := out + "\n";
    }
    out := AppendGroup(input, i, remain, out);
  }

  method EncodeUnsigned(input: seq<Byte>, wrap: bool) returns (output: string)
    ensures output == Encoded(input, 0, wrap)
  {
    hide GroupText, Progress, Encoded, Break;
    var l := |input|;
    var i, o := 0, 0;
    output := "";
    ProgressStart(input, wrap);
    while i < l
      invariant Progress(input, Min(i, l), o, wrap, output)
    {
      ProgressStep(input, i, o, wrap, output);
      output := AppendLine(input, i, l - i, o, wrap, output);
      o := o + 4;
      i := i + 3;
    }
    ProgressEnd(input, o, wrap, output);
  }

  method EncodeSigned(input: seq<SignedChar>, wrap: bool) returns (output: string)
    ensures output == Encoded(UnsignedAll(input), 0, wrap)
  {
    hide GroupText, Progress, Encoded, Break, Unsigned;
    ghost var s := UnsignedAll(input);
    var l := |input|;
    var i, o := 0, 0;
    output := "";
    ProgressStart(s, wrap);
    while i < l
      invariant Progress(s, Min(i, l), o, wrap, output)
    {
      ProgressStep(s, i, o, wrap, output);
      GroupUnsigned(input[i..i + Min(3, l - i)]);
      assert UnsignedAll(input[i..i + Min(3, l - i)]) == s[i..i + Min(3, l - i)];
      output := AppendLine(input, i, l - i, o, wrap, output);
      o := o + 4;
      i := i + 3;
    }
    ProgressEnd(s, o, wrap, output);
  }

  /** Reading a file in pieces of three chars, of which only the last may be short. The
      buffer keeps old chars behind a short read; they are not looked at. */
  method EncodeFile(file: seq<SignedChar>, wrap: bool) returns (output: string)
    ensures output == Encoded(UnsignedAll(file), 0, wrap)
  {
    hide GroupText, Progress, Encoded, Break, Unsigned;
    ghost var s := UnsignedAll(file);
    var o, at := 0, 0;
    output := "";
    ProgressStart(s, wrap);
    var remain := Min(3, |file|);
    var input: seq<SignedChar> := file[..remain] + [0, 0, 0, 0][remain..];
    at := remain;
    while remain > 0
      invariant remain <= at <= |file| && |input| == 4
      invariant remain == Min(3, |file| - (at - remain)) && input[..remain] == file[at - remain..at]
      invariant Progress(s, at - remain, o, wrap, output)
      decreases |file| - at + remain
    {
      ghost var i := at - remain;
      ProgressStep(s, i, o, wrap, output);
      GroupUnsigned(file[i..at]);
      assert UnsignedAll(file[i..at]) == s[i..at];
      assert input[0..remain] == input[..remain];
      output := AppendLine(input, 0, remain, o, wrap, output);
      o := o + 4;
      remain := Min(3, |file| - at);
      input := file[at..at + remain] + input[remain..];
      at := at + remain;
    }
    ProgressEnd(s, o, wrap, output);
  }

  // -------------------------------------------------------------------- decoding

  /** A decoder's result: bytes, or a read beyond the text or the table. */
  datatype Decoding = Bytes(bytes: seq<Byte>) | Fault

  /** The char at a position as a table index. The text ends in a zero char; beyond that,
      and for chars that are negative when signed, there is none. */
  function Code(t: string, k: nat): int {
    if k < |t| then (if t[k] as int < 128 then t[k] as int else -1)
    else if k == |t| then 0
    else -1
  }

  function One(x: Sextet, y: Sextet): Byte { (x * 4) % 256 + (y / 16) % 4 }
  function Two(x: Sextet, y: Sextet): Byte { (x * 16) % 256 + (y / 4) % 16 }
  function Three(x: Sextet, y: Sextet): Byte { (x * 64) % 256 + y }

  const PAD := '=' as int

  /** The bytes of the group at a position; the two padding places are looked at apart. */
  function GroupBytes(t: string, i: nat): Decoding {
    var a, b, c, d := Code(t, i), Code(t, i + 1), Code(t, i + 2), Code(t, i + 3);
    if a < 0 || b < 0 || c < 0 || d < 0 then
      Fault
    else
      Bytes([One(Value(a), Value(b))]
            + (if c != PAD then [Two(Value(b), Value(c))] else [])
            + (if d != PAD then [Three(Value(c), Value(d))] else []))
  }

  predicate IsBreak(c: char) {
    c == '\r' || c == '\n'
  }

  function Prepend(b: Decoding, rest: Decoding): Decoding {
    if b.Fault? || rest.Fault? then Fault else Bytes(b.bytes + rest.bytes)
  }

  /** Line breaks are skipped before a group, not inside one. */
  function Decoded(t: string, i: nat): Decoding
    decreases |t| - i
  {
    if i >= |t| then Bytes([])
    else if IsBreak(t[i]) then Decoded(t, i + 1)
    else Prepend(GroupBytes(t, i), Decoded(t, i + 4))
  }

  /** One group: the table is indexed and the next chars looked at in the order of the
      code, so a fault ends it at once. */
  method ReadGroup(input: string, i: nat) returns (r: Decoding)
    requires i < |input|
    ensures r == GroupBytes(input, i)
  {
    hide One, Two, Three, Value;
    if input[i] as int >= 128 || Code(input, i + 1) < 0 {
      return Fault;
    }
    var c0, c1 := input[i] as int, Code(input, i + 1);
    DecodingTable(c0);
    DecodingTable(c1);
    var bytes := [One(Rstr(c0), Rstr(c1))];
    var c2 := Code(input, i + 2);
    if c2 < 0 {
      return Fault;
    }
    DecodingTable(c2);
    if c2 != PAD {
      bytes := bytes + [Two(Rstr(c1), Rstr(c2))];
    }
    var c3 := Code(input, i + 3);
    if c3 < 0 {
      return Fault;
    }
    DecodingTable(c3);
    if c3 != PAD {
      bytes := bytes + [Three(Rstr(c2), Rstr(c3))];
    }
    r := Bytes(bytes);
  }

  /** What is out so far, with what the rest of the text decodes to. */
  predicate Reading(t: string, i: nat, done: seq<Byte>) {
    Prepend(Bytes(done), Decoded(t, i)) == Decoded(t, 0)
  }

  lemma ReadingStart(t: string)
    ensures Reading(t, 0, [])
  {
  }

  lemma ReadingBreak(t: string, i: nat, done: seq<Byte>)
    requires Reading(t, i, done) && i < |t| && IsBreak(t[i])
    ensures Reading(t, i + 1, done)
  {
  }

  lemma ReadingGroup(t: string, i: nat, done: seq<Byte>)
    requires Reading(t, i, done) && i < |t| && !IsBreak(t[i])
    ensures match GroupBytes(t, i)
            case Fault => Decoded(t, 0) == Fault
            case Bytes(b) => Reading(t, i + 4, done + b)
  {
    hide GroupBytes;
    var group := GroupBytes(t, i);
    if group.Bytes? {
      Regroup(done, group.bytes, Decoded(t, i + 4));
    }
  }

  lemma ReadingEnd(t: string, i: nat, done: seq<Byte>)
    requires Reading(t, i, done) && i >= |t|
    ensures Decoded(t, 0) == Bytes(done)
  {
  }

  lemma Regroup(a: seq<Byte>, b: seq<Byte>, rest: Decoding)
    ensures Prepend(Bytes(a), Prepend(Bytes(b), rest)) == Prepend(Bytes(a + b), rest)
  {
    if rest.Bytes? {
      assert a + (b + rest.bytes) == (a + b) + rest.bytes;
    }
  }

  method SkipBreaks(input: string, i: nat, ghost done: seq<Byte>) returns (k: nat)
    requires i <= |input| && Reading(input, i, done)
    ensures i <= k <= |input| && Reading(input, k, done)
    ensures k < |input| ==> !IsBreak(input[k])
  {
    hide Reading;
    k := i;
    while k < |input| && (input[k] == 13 as char || input[k] == 10 as char)
      invariant i <= k <= |input| && Reading(input, k, done)
    {
      ReadingBreak(input, k, done);
      k := k + 1;
    }
  }

  method Decode(input: string) returns (r: Decoding)
    ensures r == Decoded(input, 0)
  {
    hide GroupBytes, Reading, Decoded;
    var l := |input|;
    var i := 0;
    var output: seq<Byte> := [];
    ReadingStart(input);
    while i < l
      invariant Reading(input, i, output)
      decreases l - i
    {
      i := SkipBreaks(input, i, output);
      if i < l {
        var group := ReadGroup(input, i);
        ReadingGroup(input, i, output);
        if group.Fault? {
          return Fault;
        }
        output := output + group.bytes;
        i := i + 4;
      }
    }
    ReadingEnd(input, i, output);
    r := Bytes(output);
  }

  method Fill(output: array<Byte>, j: nat, bytes: seq<Byte>)
    requires j + |bytes| <= output.Length
    modifies output
    ensures output[..] == old(output[..])[..j] + bytes + old(output[..])[j + |bytes|..]
  {
    var k := 0;
    while k < |bytes|
      invariant k <= |bytes|
      invariant forall x :: 0 <= x < output.Length ==>
        output[x] == if j <= x < j + k then bytes[x - j] else old(output[x])
    {
      output[j + k] := bytes[k];
      k := k + 1;
    }
  }

  /** The decoder that writes to a buffer, or only counts when there is none. For a buffer
      the text must be decodable, and the buffer must hold what is decoded. */
  method DecodeTo(input: string, output: array?<Byte>) returns (ok: bool, sz: nat)
    requires output != null ==> Decoded(input, 0).Bytes? && |Decoded(input, 0).bytes| <= output.Length
    modifies if output == null then {} else {output}
    ensures ok == Decoded(input, 0).Bytes?
    ensures ok ==> sz == |Decoded(input, 0).bytes|
    ensures ok && output != null ==> output[..] == Decoded(input, 0).bytes + old(output[..])[sz..]
  {
    hide GroupBytes, Reading, Decoded;
    var l := |input|;
    var i, j := 0, 0;
    ghost var done: seq<Byte> := [];
    ReadingStart(input);
    while i < l
      invariant j == |done| && Reading(input, i, done)
      invariant output != null ==> j <= output.Length && output[..] == done + old(output[..])[j..]
      decreases l - i
    {
      i := SkipBreaks(input, i, done);
      if i < l {
        var group := ReadGroup(input, i);
        ReadingGroup(input, i, done);
        if group.Fault? {
          return false, 0;
        }
        if output != null {
          ReadingFits(input, i + 4, done + group.bytes);
          Fill(output, j, group.bytes);
        }
        done := done + group.bytes;
        j := j + |group.bytes|;
        i := i + 4;
      }
    }
    ReadingEnd(input, i, done);
    ok, sz := true, j;
  }

  lemma ReadingFits(t: string, i: nat, done: seq<Byte>)
    requires Reading(t, i, done) && Decoded(t, 0).Bytes?
    ensures |done| <= |Decoded(t, 0).bytes|
  {
    hide Decoded;
  }

  // ------------------------------------------------------------- announced length

  function PadAt(t: string, k: nat): nat
    requires k < |t|
  {
    if t[k] == '=' then 1 else 0
  }

  /** The size announced for a text of whole groups, by the padding of the last group. */
  function Announced(t: string): nat {
    if |t| == 0 || |t| % 4 != 0 then 0
    else 3 * (|t| / 4) - PadAt(t, |t| - 2) - PadAt(t, |t| - 1)
  }

  method DecodeLength(str64: string) returns (l: nat)
    ensures l == Announced(str64)
  {
    if |str64| == 0 || |str64| % 4 != 0 {
      return 0;
    }
    l := 3 * (|str64| / 4 - 1) + 1;
    if str64[|str64| - 2] != '=' {
      l := l + 1;
    }
    if str64[|str64| - 1] != '=' {
      l := l + 1;
    }
  }
}
