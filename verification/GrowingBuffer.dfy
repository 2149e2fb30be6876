/** Formatting into a buffer that is doubled until the text fits. */
module GrowingBuffer {

  /** What a format and its arguments make: a text, whatever the size of the buffer, or an
      error, whatever the size of the buffer. */
  datatype Format = Text(text: string) | Failure

  const FIRST_SIZE := 0x40
  const NUL := '\0'

  /** What the C library reports: the length of the whole text, or a negative number. */
  function Reported(f: Format): int {
    if f.Text? then |f.text| else -1
  }

  /** What one attempt with a buffer of a size comes to: cut text counts as an error. */
  function Attempt(f: Format, size: nat): int {
    if f.Text? && |f.text| < size then |f.text| else -1
  }

  /** The C library's formatter: at most size - 1 chars of the text and a terminator. */
  method Vsnprintf(buffer: array<char>, offset: nat, size: nat, f: Format) returns (code: int)
    requires offset + size <= buffer.Length && size > 0
    modifies buffer
    ensures code == Reported(f)
    ensures buffer[..offset] == old(buffer[..offset])
    ensures f.Text? && |f.text| < size ==>
              buffer[offset..offset + |f.text|] == f.text && buffer[offset + |f.text|] == NUL
  {
    if f.Failure? {
      return -1;
    }
    var n := if |f.text| < size then |f.text| else size - 1;
    var k := 0;
    while k < n
      invariant k <= n
      invariant buffer[..offset] == old(buffer[..offset])
      invariant buffer[offset..offset + k] == f.text[..k]
    {
      buffer[offset + k] := f.text[k];
      k := k + 1;
    }
    buffer[offset + n] := NUL;
    assert |f.text| < size ==> f.text[..n] == f.text;
    code := |f.text|;
  }

  /** One pass of the loops: an attempt to format, whose result is tested for cut text. */
  method Pass(buffer: array<char>, offset: nat, size: nat, f: Format) returns (code: int)
    requires offset + size <= buffer.Length && size > 0
    modifies buffer
    ensures code == Attempt(f, size)
    ensures buffer[..offset] == old(buffer[..offset])
    ensures code >= 0 ==> f.Text? && buffer[offset..offset + code] == f.text && buffer[offset + code] == NUL
  {
    code := Vsnprintf(buffer, offset, size, f);
    if size <= code {
      code := -1;
    }
  }

  /** How often a size must be doubled for a text of length n to fit with its terminator. */
  function Doublings(n: nat, size: nat): nat
    requires size > 0
    decreases if n < size then 0 else n + 1 - size
  {
    if n < size then 0 else 1 + Doublings(n, 2 * size)
  }

  function Pow2(k: nat): nat {
    if k == 0 then 1 else 2 * Pow2(k - 1)
  }

  /** That is the least number of times: the text fits after j doublings exactly when j is
      at least that. */
  lemma {:induction false} LeastDoublings(n: nat, size: nat, j: nat)
    requires size > 0
    ensures n < size * Pow2(j) <==> j >= Doublings(n, size)
    decreases j
  {
    if j == 0 {
    } else if n < size {
      Pow2Positive(j);
      assert size * Pow2(j) >= size;
    } else {
      LeastDoublings(n, 2 * size, j - 1);
      assert size * Pow2(j) == 2 * size * Pow2(j - 1);
    }
  }

  /** The size of the buffer after so many doublings. */
  function SizeAt(k: nat): nat {
    FIRST_SIZE * Pow2(k)
  }

  /** The loops end with the first attempt that succeeds. */
  ghost predicate EndsAt(f: Format, k: nat) {
    Attempt(f, SizeAt(k)) >= 0 && forall j: nat :: j < k ==> Attempt(f, SizeAt(j)) < 0
  }

  lemma EndsLeast(f: Format, k: nat)
    requires f.Text?
    ensures EndsAt(f, k) <==> k == Doublings(|f.text|, FIRST_SIZE)
  {
    var least := Doublings(|f.text|, FIRST_SIZE);
    forall j: nat
      ensures Attempt(f, SizeAt(j)) >= 0 <==> j >= least
    {
      LeastDoublings(|f.text|, FIRST_SIZE, j);
    }
    assert Attempt(f, SizeAt(least)) >= 0;
  }

  lemma Pow2Positive(k: nat)
    ensures Pow2(k) >= 1
  {
  }

  /** A string resized to a length: cut, or filled up with zero chars. */
  method Resize(a: array<char>, length: nat) returns (b: array<char>)
    ensures fresh(b) && b.Length == length
    ensures length <= a.Length ==> b[..] == a[..length]
    ensures length > a.Length ==> b[..a.Length] == a[..]
  {
    b := new char[length](i => NUL);
    var k := 0;
    while k < length && k < a.Length
      invariant k <= length && k <= a.Length
      invariant b[..k] == a[..k]
    {
      b[k] := a[k];
      k := k + 1;
    }
  }

  /** What is left to double shrinks as long as the text does not fit. */
  lemma NotYet(f: Format, k: nat)
    requires f.Text? && forall j: nat :: j <= k ==> Attempt(f, SizeAt(j)) < 0
    ensures k < Doublings(|f.text|, FIRST_SIZE) && SizeAt(k + 1) == 2 * SizeAt(k)
  {
    LeastDoublings(|f.text|, FIRST_SIZE, k);
    Pow2Positive(k);
    assert Attempt(f, SizeAt(k)) < 0;
  }

  /** Appends the formatted text to a string. The number of passes beyond the first is
      reported too. */
  method VsprintfString(str: array<char>, f: Format) returns (r: array<char>, code: int, doublings: nat)
    requires f.Text?
    ensures r[..] == str[..] + f.text && code == |f.text|
    ensures EndsAt(f, doublings) && doublings == Doublings(|f.text|, FIRST_SIZE)
  {
    var offset := str.Length;
    var size := FIRST_SIZE;
    r := str;
    code := -1;
    doublings := 0;
    while code < 0
      invariant r.Length >= offset && r[..offset] == str[..]
      invariant r != str ==> fresh(r)
      invariant code < 0 ==> size == SizeAt(doublings) > 0
      invariant forall j: nat :: j < doublings ==> Attempt(f, SizeAt(j)) < 0
      invariant code >= 0 ==> code == Attempt(f, SizeAt(doublings))
      invariant code >= 0 ==> offset + code <= r.Length && r[offset..offset + code] == f.text
      decreases code < 0, Doublings(|f.text|, FIRST_SIZE) - doublings
    {
      r := Resize(r, offset + size);
      code := Pass(r, offset, size, f);
      if code < 0 {
        NotYet(f, doublings);
        doublings := doublings + 1;
      }
      size := size * 2;
    }
    EndsLeast(f, doublings);
    ghost var full := r[..];
    r := Resize(r, offset + code);
    assert r[..] == full[..offset] + full[offset..offset + code];
  }

  /** Makes the formatted text in a buffer of its own, with a terminator. */
  method Vasprintf(f: Format) returns (strp: array<char>, code: int, doublings: nat)
    requires f.Text?
    ensures fresh(strp) && code == |f.text|
    ensures strp[..] == f.text + [NUL]
    ensures EndsAt(f, doublings)
  {
    var size := FIRST_SIZE;
    strp := new char[0];
    code := -1;
    doublings := 0;
    while code < 0
      invariant fresh(strp)
      invariant code < 0 ==> size == SizeAt(doublings) > 0
      invariant forall j: nat :: j < doublings ==> Attempt(f, SizeAt(j)) < 0
      invariant code >= 0 ==> code == Attempt(f, SizeAt(doublings))
      invariant code >= 0 ==> code < strp.Length && strp[..code] == f.text
      decreases code < 0, Doublings(|f.text|, FIRST_SIZE) - doublings
    {
      strp := Resize(strp, size);
      code := Pass(strp, 0, size, f);
      if code < 0 {
        NotYet(f, doublings);
        doublings := doublings + 1;
      }
      size := size * 2;
    }
    strp := Resize(strp, code + 1);
    strp[code] := NUL;
  }

  /** The loops leave after a pass exactly when its attempt succeeds. There is such a pass,
      and then it is the one after the least doublings, exactly when the format makes a
      text: an error is met again at every size, and the loops would go on for ever. */
  lemma LoopsEnd(f: Format)
    ensures (exists k: nat :: EndsAt(f, k)) <==> f.Text?
    ensures f.Text? ==> EndsAt(f, Doublings(|f.text|, FIRST_SIZE))
    ensures f.Failure? ==> forall k: nat :: Attempt(f, SizeAt(k)) < 0
  {
    if f.Text? {
      EndsLeast(f, Doublings(|f.text|, FIRST_SIZE));
    }
  }
}
