/** The reader of EmbedFs archives: a directory of names and sizes, then the data blocks. */
module EmbedFs {

  type Byte = b: int | 0 <= b < 256

  /** The files read, or the error of reading a number beyond the end of the archive. */
  datatype Reading = Blobs(blobs: map<string, seq<Byte>>) | Short

  datatype Entry = Entry(name: string, size: nat)

  datatype Directory = Directory(entries: seq<Entry>, off: nat) | Missing

  // --------------------------------------------------------------------- reading

  /** A little-endian 32-bit number. */
  function U32(data: seq<Byte>, off: nat): nat
    requires off + 4 <= |data|
  {
    var a: int, b: int, c: int, d: int := data[off], data[off + 1], data[off + 2], data[off + 3];
    a + 0x100 * b + 0x1_0000 * c + 0x100_0000 * d
  }

  function Min(a: nat, b: nat): nat {
    if a < b then a else b
  }

  /** A slice is cut at the end of the data. */
  function Slice(data: seq<Byte>, lo: nat, hi: nat): seq<Byte>
    requires lo <= hi
  {
    data[Min(lo, |data|)..Min(hi, |data|)]
  }

  /** Bytes that are not ASCII become the replacement character. */
  function Ascii(bytes: seq<Byte>): (s: string)
    ensures |s| == |bytes|
  {
    seq(|bytes|, i requires 0 <= i < |bytes| => if bytes[i] < 128 then bytes[i] as char else '\U{FFFD}')
  }

  function ReadDirectory(data: seq<Byte>, off: nat, count: nat): Directory
    decreases count
  {
    if count == 0 then
      Directory([], off)
    else if off + 8 > |data| then
      Missing
    else
      var size, nlen := U32(data, off), U32(data, off + 4);
      var entry := Entry(Ascii(Slice(data, off + 8, off + 8 + nlen)), size);
      match ReadDirectory(data, off + 8 + nlen + 1, count - 1)
      case Missing => Missing
      case Directory(entries, end) => Directory([entry] + entries, end)
  }

  function ReadBlobs(data: seq<Byte>, off: nat, entries: seq<Entry>, blobs: map<string, seq<Byte>>): map<string, seq<Byte>>
    decreases |entries|
  {
    if entries == [] then
      blobs
    else
      var e := entries[0];
      ReadBlobs(data, off + e.size, entries[1..], blobs[e.name := Slice(data, off, off + e.size)])
  }

  function Read(data: seq<Byte>): Reading {
    if |data| < 4 then Short
    else
      match ReadDirectory(data, 4, U32(data, 0))
      case Missing => Short
      case Directory(entries, off) => Blobs(ReadBlobs(data, off, entries, map[]))
  }

  predicate Extends(d: Directory, entries: seq<Entry>, rest: Directory) {
    if rest.Missing? then d.Missing? else d == Directory(entries + rest.entries, rest.off)
  }

  lemma ExtendsOne(d: Directory, entries: seq<Entry>, e: Entry, rest: Directory)
    requires Extends(d, entries, if rest.Missing? then Missing else Directory([e] + rest.entries, rest.off))
    ensures Extends(d, entries + [e], rest)
  {
    if rest.Directory? {
      assert entries + ([e] + rest.entries) == entries + [e] + rest.entries;
    }
  }

  lemma ReadOne(data: seq<Byte>, off: nat, count: nat, d: Directory, entries: seq<Entry>)
    requires count > 0 && Extends(d, entries, ReadDirectory(data, off, count))
    ensures off + 8 > |data| ==> d.Missing?
    ensures off + 8 <= |data| ==>
              var size, nlen := U32(data, off), U32(data, off + 4);
              var e := Entry(Ascii(Slice(data, off + 8, off + 8 + nlen)), size);
              Extends(d, entries + [e], ReadDirectory(data, off + 8 + nlen + 1, count - 1))
  {
    hide U32, Slice, Ascii;
    if off + 8 <= |data| {
      var size, nlen := U32(data, off), U32(data, off + 4);
      var e := Entry(Ascii(Slice(data, off + 8, off + 8 + nlen)), size);
      ExtendsOne(d, entries, e, ReadDirectory(data, off + 8 + nlen + 1, count - 1));
    }
  }

  lemma ReadNone(data: seq<Byte>, off: nat, d: Directory, entries: seq<Entry>)
    ensures Extends(d, entries, ReadDirectory(data, off, 0)) <==> d == Directory(entries, off)
    ensures Extends(d, [], d)
  {
    assert entries + [] == entries;
  }

  method ReadEntries(data: seq<Byte>, start: nat, count: nat) returns (r: Directory)
    ensures r == ReadDirectory(data, start, count)
  {
    hide U32, Slice, Ascii, Extends, ReadDirectory;
    ghost var d := ReadDirectory(data, start, count);
    var off: nat := start;
    var entries: seq<Entry> := [];
    var k := 0;
    ReadNone(data, start, d, []);
    while k < count
      invariant k <= count && Extends(d, entries, ReadDirectory(data, off, count - k))
    {
      ReadOne(data, off, count - k, d, entries);
      if off + 4 > |data| {
        return Missing;
      }
      var size := U32(data, off);
      off := off + 4;
      if off + 4 > |data| {
        return Missing;
      }
      var nlen := U32(data, off);
      off := off + 4;
      var name := Ascii(Slice(data, off, off + nlen));
      off := off + nlen + 1;
      entries := entries + [Entry(name, size)];
      k := k + 1;
    }
    ReadNone(data, off, d, entries);
    r := Directory(entries, off);
  }

  method ReadEmbedFs(data: seq<Byte>) returns (r: Reading)
    ensures r == Read(data)
  {
    hide U32, ReadDirectory, Slice;
    if |data| < 4 {
      return Short;
    }
    var directory := ReadEntries(data, 4, U32(data, 0));
    if directory.Missing? {
      return Short;
    }
    var entries := directory.entries;
    var off: nat := directory.off;
    var blobs: map<string, seq<Byte>> := map[];
    var i := 0;
    while i < |entries|
      invariant i <= |entries|
      invariant ReadBlobs(data, off, entries[i..], blobs) == ReadBlobs(data, directory.off, entries, map[])
    {
      var e := entries[i];
      assert entries[i..][0] == e && entries[i..][1..] == entries[i + 1..];
      blobs := blobs[e.name := Slice(data, off, off + e.size)];
      off := off + e.size;
      i := i + 1;
    }
    r := Blobs(blobs);
  }

  // ------------------------------------------------------------ the written layout

  datatype File = File(name: string, blob: seq<Byte>)

  predicate Fits(n: nat) {
    n < 0x1_0000_0000
  }

  /** A file that can be written: an ASCII name, and lengths of 32 bits. */
  predicate Writable(f: File) {
    Fits(|f.name|) && Fits(|f.blob|) && forall i :: 0 <= i < |f.name| ==> f.name[i] as int < 128
  }

  function Number(n: nat): (r: seq<Byte>)
    requires Fits(n)
    ensures |r| == 4
  {
    [n % 0x100, n / 0x100 % 0x100, n / 0x1_0000 % 0x100, n / 0x100_0000]
  }

  function NameBytes(name: string): (r: seq<Byte>)
    requires forall i :: 0 <= i < |name| ==> name[i] as int < 128
    ensures |r| == |name|
  {
    seq(|name|, i requires 0 <= i < |name| => name[i] as int)
  }

  /** Size, length of the name, the name, and one zero byte. */
  function Record(f: File): seq<Byte>
    requires Writable(f)
  {
    Number(|f.blob|) + Number(|f.name|) + NameBytes(f.name) + [0]
  }

  predicate AllWritable(files: seq<File>) {
    forall i :: 0 <= i < |files| ==> Writable(files[i])
  }

  function Records(files: seq<File>): seq<Byte>
    requires AllWritable(files)
  {
    if files == [] then [] else Record(files[0]) + Records(files[1..])
  }

  function Data(files: seq<File>): seq<Byte> {
    if files == [] then [] else files[0].blob + Data(files[1..])
  }

  function Archive(files: seq<File>): seq<Byte>
    requires Fits(|files|) && AllWritable(files)
  {
    Number(|files|) + Records(files) + Data(files)
  }

  /** What the archive is for: each name with its file, the last one of a name. */
  function Contents(files: seq<File>, blobs: map<string, seq<Byte>>): map<string, seq<Byte>> {
    if files == [] then blobs else Contents(files[1..], blobs[files[0].name := files[0].blob])
  }

  function EntriesOf(files: seq<File>): (r: seq<Entry>)
    ensures |r| == |files|
  {
    seq(|files|, i requires 0 <= i < |files| => Entry(files[i].name, |files[i].blob|))
  }

  // ------------------------------------------------------------------ reading back

  lemma NumberBack(n: nat)
    requires Fits(n)
    ensures U32(Number(n), 0) == n
  {
    var a, b := n / 0x100, n / 0x1_0000;
    assert a == n / 0x100 && b == a / 0x100 && n / 0x100_0000 == b / 0x100;
    assert n == 0x100 * a + n % 0x100 && a == 0x100 * b + a % 0x100 && b == 0x100 * (b / 0x100) + b % 0x100;
  }

  lemma NumberAt(data: seq<Byte>, off: nat, n: nat)
    requires Fits(n) && off + 4 <= |data| && data[off..off + 4] == Number(n)
    ensures U32(data, off) == n
  {
    NumberBack(n);
    assert data[off] == data[off..off + 4][0] && data[off + 1] == data[off..off + 4][1];
    assert data[off + 2] == data[off..off + 4][2] && data[off + 3] == data[off..off + 4][3];
  }

  lemma NameBack(name: string)
    requires forall i :: 0 <= i < |name| ==> name[i] as int < 128
    ensures Ascii(NameBytes(name)) == name
  {
  }

  /** One record is read back as its entry, wherever it stands. */
  lemma RecordBack(before: seq<Byte>, f: File, after: seq<Byte>, count: nat)
    requires Writable(f)
    ensures var data := before + Record(f) + after;
            var entry := Entry(f.name, |f.blob|);
            ReadDirectory(data, |before|, count + 1)
            == match ReadDirectory(data, |before| + |Record(f)|, count)
               case Missing => Missing
               case Directory(entries, end) => Directory([entry] + entries, end)
  {
    var data, off := before + Record(f) + after, |before|;
    var n := |f.name|;
    assert data[off..off + 4] == Number(|f.blob|);
    assert data[off + 4..off + 8] == Number(n);
    assert data[off + 8..off + 8 + n] == NameBytes(f.name);
    NumberAt(data, off, |f.blob|);
    NumberAt(data, off + 4, n);
    NameBack(f.name);
    assert |Record(f)| == 8 + n + 1;
  }

  lemma {:induction false} RecordsBack(before: seq<Byte>, files: seq<File>, after: seq<Byte>)
    requires AllWritable(files)
    ensures ReadDirectory(before + Records(files) + after, |before|, |files|)
            == Directory(EntriesOf(files), |before| + |Records(files)|)
    decreases |files|
  {
    hide Record, ReadDirectory;
    if files == [] {
      NoRecords(before + Records(files) + after, |before|);
    } else {
      var f, rest := files[0], files[1..];
      RecordsBack(before + Record(f), rest, after);
      RecordBack(before, f, Records(rest) + after, |rest|);
      assert before + Records(files) + after == (before + Record(f)) + Records(rest) + after;
      assert before + Records(files) + after == before + Record(f) + (Records(rest) + after);
      assert [Entry(f.name, |f.blob|)] + EntriesOf(rest) == EntriesOf(files);
    }
  }

  lemma NoRecords(data: seq<Byte>, off: nat)
    ensures ReadDirectory(data, off, 0) == Directory([], off)
  {
  }

  lemma FirstBlob(data: seq<Byte>, off: nat, files: seq<File>, blobs: map<string, seq<Byte>>)
    requires files != []
    ensures var f := files[0]; var block := Slice(data, off, off + |f.blob|);
            ReadBlobs(data, off, EntriesOf(files), blobs)
            == ReadBlobs(data, off + |f.blob|, EntriesOf(files[1..]), blobs[f.name := block])
  {
    hide Slice;
    assert EntriesOf(files)[1..] == EntriesOf(files[1..]);
  }

  lemma FirstBlock(before: seq<Byte>, files: seq<File>, after: seq<Byte>)
    requires files != []
    ensures var f, data := files[0], before + Data(files) + after;
            && data == (before + f.blob) + Data(files[1..]) + after
            && Slice(data, |before|, |before| + |f.blob|) == f.blob
  {
    Middle(before, files[0].blob, Data(files[1..]), after);
  }

  lemma Middle(a: seq<Byte>, b: seq<Byte>, c: seq<Byte>, d: seq<Byte>)
    ensures a + (b + c) + d == (a + b) + c + d
    ensures Slice(a + (b + c) + d, |a|, |a| + |b|) == b
  {
    assert (a + (b + c) + d)[|a|..|a| + |b|] == b;
  }

  lemma {:induction false} DataBack(before: seq<Byte>, files: seq<File>, after: seq<Byte>, blobs: map<string, seq<Byte>>)
    ensures ReadBlobs(before + Data(files) + after, |before|, EntriesOf(files), blobs) == Contents(files, blobs)
    decreases |files|
  {
    if files != [] {
      hide ReadBlobs, Data, EntriesOf, Slice;
      var f := files[0];
      FirstBlock(before, files, after);
      FirstBlob(before + Data(files) + after, |before|, files, blobs);
      DataBack(before + f.blob, files[1..], after, blobs[f.name := f.blob]);
    }
  }

  /** Reading undoes writing, for every list of files and whatever follows the data: no read
      is short, and each name has its last file. */
  lemma ReadBack(files: seq<File>, footer: seq<Byte>)
    requires Fits(|files|) && AllWritable(files)
    ensures Read(Archive(files) + footer) == Blobs(Contents(files, map[]))
  {
    hide ReadDirectory, ReadBlobs, Records, Data, Number, U32;
    var head, records, blocks := Number(|files|), Records(files), Data(files);
    var data := Archive(files) + footer;
    Regroup(head, records, blocks, footer);
    NumberAt(data, 0, |files|);
    RecordsBack(head, files, blocks + footer);
    DataBack(head + records, files, footer, map[]);
  }

  lemma Regroup(a: seq<Byte>, b: seq<Byte>, c: seq<Byte>, d: seq<Byte>)
    ensures a + b + c + d == a + b + (c + d)
    ensures (a + b + c + d)[0..|a|] == a
  {
  }

  ghost predicate IsLast(files: seq<File>, i: nat, name: string)
    requires i < |files|
  {
    files[i].name == name && forall j :: i < j < |files| ==> files[j].name != name
  }

  /** A name maps to a file exactly when that is the last one of the name. */
  lemma {:induction false} LastWins(files: seq<File>, blobs: map<string, seq<Byte>>, name: string)
    ensures name in Contents(files, blobs)
            <==> name in blobs || exists i :: 0 <= i < |files| && files[i].name == name
    ensures forall i :: 0 <= i < |files| && IsLast(files, i, name) ==>
              name in Contents(files, blobs) && Contents(files, blobs)[name] == files[i].blob
    ensures name in blobs && (forall i :: 0 <= i < |files| ==> files[i].name != name) ==>
              name in Contents(files, blobs) && Contents(files, blobs)[name] == blobs[name]
  {
    if files != [] {
      var f, rest := files[0], files[1..];
      LastWins(rest, blobs[f.name := f.blob], name);
      assert forall i :: 0 <= i < |rest| ==> files[i + 1] == rest[i];
      assert forall i :: 0 < i < |files| ==> files[i] == rest[i - 1];
      assert forall i :: 0 < i < |files| && IsLast(files, i, name) ==> IsLast(rest, i - 1, name);
    }
  }

  /** Of the files of one name the last is the one read. */
  lemma LastFileWins(files: seq<File>, footer: seq<Byte>, i: nat)
    requires Fits(|files|) && AllWritable(files) && i < |files|
    requires forall j :: i < j < |files| ==> files[j].name != files[i].name
    ensures var r := Read(Archive(files) + footer);
            r.Blobs? && files[i].name in r.blobs && r.blobs[files[i].name] == files[i].blob
  {
    hide Read, Archive;
    ReadBack(files, footer);
    assert IsLast(files, i, files[i].name);
    LastWins(files, map[], files[i].name);
  }

  /** With distinct names, every file is found under its name, and nothing else is. */
  lemma DistinctNames(files: seq<File>, footer: seq<Byte>)
    requires Fits(|files|) && AllWritable(files)
    requires forall i, j :: 0 <= i < j < |files| ==> files[i].name != files[j].name
    ensures var r := Read(Archive(files) + footer);
            && r.Blobs?
            && (forall i :: 0 <= i < |files| ==> files[i].name in r.blobs && r.blobs[files[i].name] == files[i].blob)
            && (forall name :: name in r.blobs ==> exists i :: 0 <= i < |files| && files[i].name == name)
  {
    ReadBack(files, footer);
    var blobs := Contents(files, map[]);
    forall i | 0 <= i < |files|
      ensures files[i].name in blobs && blobs[files[i].name] == files[i].blob
    {
      assert IsLast(files, i, files[i].name);
      LastWins(files, map[], files[i].name);
    }
    forall name | name in blobs
      ensures exists i :: 0 <= i < |files| && files[i].name == name
    {
      LastWins(files, map[], name);
    }
  }

  // ------------------------------------------------------- other bytes, and less of them

  /** A name of any bytes, ended by any byte: what is not ASCII becomes the replacement char. */
  lemma AnyName(before: seq<Byte>, size: nat, name: seq<Byte>, end: Byte, after: seq<Byte>)
    requires Fits(size) && Fits(|name|)
    ensures var data := before + Number(size) + Number(|name|) + name + [end] + after;
            var d := ReadDirectory(data, |before|, 1);
            && d.Directory? && d.off == |data| - |after| && |d.entries| == 1 && d.entries[0].size == size
            && |d.entries[0].name| == |name|
            && forall i :: 0 <= i < |name| ==>
                 d.entries[0].name[i] == if name[i] < 128 then name[i] as char else '\U{FFFD}'
  {
    hide Number, U32;
    var data, off := before + Number(size) + Number(|name|) + name + [end] + after, |before|;
    assert data[off..off + 4] == Number(size);
    assert data[off + 4..off + 8] == Number(|name|);
    assert data[off + 8..off + 8 + |name|] == name;
    NumberAt(data, off, size);
    NumberAt(data, off + 4, |name|);
    NoRecords(data, off + 8 + |name| + 1);
  }

  lemma SliceOfPrefix(data: seq<Byte>, n: nat, i: nat, j: nat)
    requires i <= j <= n <= |data|
    ensures data[..n][i..j] == data[i..j]
  {
  }

  lemma NumbersOf(before: seq<Byte>, f: File, after: seq<Byte>)
    requires Writable(f)
    ensures var data, off := before + Record(f) + after, |before|;
            data[off..off + 4] == Number(|f.blob|) && data[off + 4..off + 8] == Number(|f.name|)
  {
    hide Number;
    var data, off := before + Record(f) + after, |before|;
    var tail := NameBytes(f.name) + [0] + after;
    assert data == before + (Number(|f.blob|) + (Number(|f.name|) + tail));
    assert data[off..] == Number(|f.blob|) + (Number(|f.name|) + tail);
    assert data[off..off + 4] == data[off..][..4];
    assert data[off + 4..] == data[off..][4..] == Number(|f.name|) + tail;
    assert data[off + 4..off + 8] == data[off + 4..][..4];
  }

  lemma CutOne(data: seq<Byte>, before: seq<Byte>, f: File, after: seq<Byte>, n: nat, count: nat)
    requires Writable(f) && data == before + Record(f) + after && n <= |data|
    ensures ReadDirectory(data[..n], |before|, count + 1).Missing?
            <==> n < |before| + 8 || ReadDirectory(data[..n], |before| + |Record(f)|, count).Missing?
  {
    hide Number, U32, Ascii;
    var off := |before|;
    if n >= off + 8 {
      NumbersOf(before, f, after);
      SliceOfPrefix(data, n, off, off + 4);
      SliceOfPrefix(data, n, off + 4, off + 8);
      NumberAt(data[..n], off, |f.blob|);
      NumberAt(data[..n], off + 4, |f.name|);
      assert |Record(f)| == 8 + |f.name| + 1;
    }
  }

  lemma {:induction false} CutRecords(before: seq<Byte>, files: seq<File>, after: seq<Byte>, n: nat)
    requires AllWritable(files) && n <= |before + Records(files) + after|
    ensures ReadDirectory((before + Records(files) + after)[..n], |before|, |files|).Missing?
            <==> files != [] && n < |before| + |Records(files[..|files| - 1])| + 8
    decreases |files|
  {
    hide Record, ReadDirectory;
    var data := before + Records(files) + after;
    if files == [] {
      NoRecords(data[..n], |before|);
    } else {
      var f, rest := files[0], files[1..];
      assert data == before + Record(f) + (Records(rest) + after);
      assert data == (before + Record(f)) + Records(rest) + after;
      CutOne(data, before, f, Records(rest) + after, n, |rest|);
      CutRecords(before + Record(f), rest, after, n);
      if rest != [] {
        assert files[..|files| - 1][1..] == rest[..|rest| - 1];
        assert Records(files[..|files| - 1]) == Record(f) + Records(rest[..|rest| - 1]);
      } else {
        assert files[..|files| - 1] == [];
      }
    }
  }

  /** An archive cut short anywhere cannot be read exactly when the cut is before the end of
      its last number. */
  lemma CutShort(files: seq<File>, n: nat)
    requires Fits(|files|) && AllWritable(files) && n <= |Archive(files)|
    ensures Read(Archive(files)[..n]).Short?
            <==> n < 4 || (files != [] && n < 4 + |Records(files[..|files| - 1])| + 8)
  {
    hide ReadDirectory, Records, Data, Number, U32;
    var head := Number(|files|);
    if n >= 4 {
      assert Archive(files) == head + Records(files) + Data(files);
      assert Archive(files)[..n][0..4] == head;
      NumberAt(Archive(files)[..n], 0, |files|);
      CutRecords(head, files, Data(files), n);
    }
  }

  /** What is left of the files when only so many bytes of data are. */
  function CutFiles(files: seq<File>, left: nat): seq<File> {
    if files == [] then []
    else
      var f := files[0];
      [File(f.name, f.blob[..Min(left, |f.blob|)])] + CutFiles(files[1..], left - Min(left, |f.blob|))
  }

  lemma FirstCut(before: seq<Byte>, files: seq<File>, left: nat)
    requires files != [] && left <= |Data(files)|
    ensures var f, data := files[0], before + Data(files)[..left];
            var k := Min(left, |f.blob|);
            && Slice(data, |before|, |before| + |f.blob|) == f.blob[..k]
            && left - k <= |Data(files[1..])|
            && (left >= |f.blob| ==> data == (before + f.blob) + Data(files[1..])[..left - k])
  {
    var f, rest := files[0], Data(files[1..]);
    var data := before + Data(files)[..left];
    assert Data(files) == f.blob + rest;
    if left >= |f.blob| {
      assert Data(files)[..left] == f.blob + rest[..left - |f.blob|];
      assert data == (before + f.blob) + rest[..left - |f.blob|];
      assert data[|before|..|before| + |f.blob|] == f.blob == f.blob[..|f.blob|];
    } else {
      assert Data(files)[..left] == f.blob[..left];
      assert data[|before|..] == f.blob[..left];
    }
  }

  lemma ContentsOfCut(files: seq<File>, left: nat, blobs: map<string, seq<Byte>>)
    requires files != []
    ensures var f := files[0]; var k := Min(left, |f.blob|);
            Contents(CutFiles(files, left), blobs)
            == Contents(CutFiles(files[1..], left - k), blobs[f.name := f.blob[..k]])
  {
    var f := files[0];
    var k := Min(left, |f.blob|);
    var rest := CutFiles(files[1..], left - k);
    assert CutFiles(files, left) == [File(f.name, f.blob[..k])] + rest;
    assert CutFiles(files, left)[1..] == rest;
  }

  /** Blocks cut short give what is there of each file, and nothing of those behind. */
  lemma {:induction false} DataCut(before: seq<Byte>, files: seq<File>, left: nat, blobs: map<string, seq<Byte>>)
    requires left <= |Data(files)|
    ensures ReadBlobs(before + Data(files)[..left], |before|, EntriesOf(files), blobs)
            == Contents(CutFiles(files, left), blobs)
    decreases |files|
  {
    if files == [] {
      NothingBehind(before + Data(files)[..left], |before|, files, blobs);
    } else {
      hide ReadBlobs, Data, EntriesOf, Slice, Contents, CutFiles;
      var f, rest := files[0], files[1..];
      var data, k := before + Data(files)[..left], Min(left, |f.blob|);
      var next := blobs[f.name := f.blob[..k]];
      FirstCut(before, files, left);
      FirstBlob(data, |before|, files, blobs);
      ContentsOfCut(files, left, blobs);
      if left >= |f.blob| {
        DataCut(before + f.blob, rest, left - k, next);
      } else {
        NothingBehind(data, |before| + |f.blob|, rest, next);
      }
    }
  }

  lemma {:induction false} NothingBehind(data: seq<Byte>, off: nat, files: seq<File>, blobs: map<string, seq<Byte>>)
    requires off >= |data|
    ensures ReadBlobs(data, off, EntriesOf(files), blobs) == Contents(CutFiles(files, 0), blobs)
    decreases |files|
  {
    if files != [] {
      hide ReadBlobs, EntriesOf, Contents, CutFiles;
      var f := files[0];
      FirstBlob(data, off, files, blobs);
      ContentsOfCut(files, 0, blobs);
      assert Slice(data, off, off + |f.blob|) == [] == f.blob[..0];
      NothingBehind(data, off + |f.blob|, files[1..], blobs[f.name := []]);
    }
  }
}
