/**
 * VPK directory trees: the host agent's reader (agent/internal/update/rushrooms.go), and the packer and the readers of
 * the build scripts (plugin/rush-script/pack_vpk.py, build_vjs.py). File names are the bytes they are stored as.
 */
module Vpk {
  import opened Common
  import opened Bytes

  const SIGNATURE := 0x55AA1234
  const IN_THIS_FILE := 0x7FFF
  const RECORD := 18
  const SLASH: Byte := 47
  const DOT: Byte := 46

  // ---------- Names ----------

  /** The place of the last x, if any. */
  function LastIndex(s: Data, x: Byte): (r: Option<nat>)
    ensures r.Some? ==> r.value < |s| && s[r.value] == x && forall i | r.value < i < |s| :: s[i] != x
    ensures r.None? ==> x !in s
  {
    if s == [] then None
    else if s[|s| - 1] == x then Some(|s| - 1)
    else LastIndex(s[..|s| - 1], x)
  }

  datatype Parts = Parts(dir: Data, file: Data, ext: Data)

  /** Directory, file and extension of a path. None when there is no slash or no dot after the last one. */
  function SplitName(name: Data): Option<Parts> {
    var slash, dot := LastIndex(name, SLASH), LastIndex(name, DOT);
    if slash.None? || dot.None? || dot.value < slash.value then None
    else Some(Parts(name[..slash.value], name[slash.value + 1..dot.value], name[dot.value + 1..]))
  }

  function JoinName(p: Parts): Data {
    p.dir + [SLASH] + p.file + [DOT] + p.ext
  }

  /** Parts that stand for one path only. */
  predicate Plain(p: Parts) {
    SLASH !in p.file && SLASH !in p.ext && DOT !in p.ext
  }

  lemma LastIndexIs(s: Data, x: Byte, i: nat)
    requires i < |s| && s[i] == x && forall j | i < j < |s| :: s[j] != x
    ensures LastIndex(s, x) == Some(i)
  {
  }

  lemma SplitIsPlain(name: Data)
    requires SplitName(name).Some?
    ensures Plain(SplitName(name).value) && JoinName(SplitName(name).value) == name
  {
    var slash, dot := LastIndex(name, SLASH).value, LastIndex(name, DOT).value;
    assert dot != slash;
    var p := SplitName(name).value;
    assert forall i | 0 <= i < |p.file| :: p.file[i] == name[slash + 1 + i];
    assert forall i | 0 <= i < |p.ext| :: p.ext[i] == name[dot + 1 + i];
  }

  /** Splitting undoes joining plain parts, and only their path splits into them. */
  lemma SplitOfJoin(p: Parts, name: Data)
    requires Plain(p)
    ensures JoinName(p) == name <==> SplitName(name) == Some(p)
  {
    var s := JoinName(p);
    var slash, dot := |p.dir|, |p.dir| + 1 + |p.file|;
    assert s[slash] == SLASH && s[dot] == DOT;
    assert forall i | slash < i < dot :: s[i] == p.file[i - slash - 1];
    assert forall i | dot < i < |s| :: s[i] == p.ext[i - dot - 1];
    LastIndexIs(s, SLASH, slash);
    LastIndexIs(s, DOT, dot);
    assert s[..slash] == p.dir && s[slash + 1..dot] == p.file && s[dot + 1..] == p.ext;
    if SplitName(name) == Some(p) {
      SplitIsPlain(name);
    }
  }

  // ---------- Printing ----------

  datatype Entry = Entry(name: Data, crc: nat, preload: Data, archive: nat, offset: nat, length: nat, term: nat)

  datatype Dir = Dir(name: Data, files: seq<Entry>)

  datatype Ext = Ext(name: Data, dirs: seq<Dir>)

  predicate GoodName(s: Data) {
    s != [] && 0 !in s
  }

  predicate GoodEntry(e: Entry) {
    && GoodName(e.name)
    && e.crc < 0x1_0000_0000 && e.offset < 0x1_0000_0000 && e.length < 0x1_0000_0000
    && e.archive < 0x1_0000 && e.term < 0x1_0000 && |e.preload| < 0x1_0000
  }

  predicate GoodFiles(files: seq<Entry>) {
    forall i | 0 <= i < |files| :: GoodEntry(files[i])
  }

  predicate GoodDirs(dirs: seq<Dir>) {
    forall i | 0 <= i < |dirs| :: GoodName(dirs[i].name) && GoodFiles(dirs[i].files)
  }

  predicate GoodTree(exts: seq<Ext>) {
    forall i | 0 <= i < |exts| :: GoodName(exts[i].name) && GoodDirs(exts[i].dirs)
  }

  function PrintRecord(e: Entry): (r: Data)
    ensures |r| == RECORD
  {
    Le(e.crc, 4) + (Le(|e.preload|, 2) + (Le(e.archive, 2) + (Le(e.offset, 4) + (Le(e.length, 4) + Le(e.term, 2)))))
  }

  /** A list of files, directories or extensions ends with an empty name. */
  function PrintFiles(files: seq<Entry>): Data {
    if files == [] then [0]
    else files[0].name + ([0] + (PrintRecord(files[0]) + (files[0].preload + PrintFiles(files[1..]))))
  }

  function PrintDirs(dirs: seq<Dir>): Data {
    if dirs == [] then [0] else dirs[0].name + ([0] + (PrintFiles(dirs[0].files) + PrintDirs(dirs[1..])))
  }

  function PrintTree(exts: seq<Ext>): Data {
    if exts == [] then [0] else exts[0].name + ([0] + (PrintDirs(exts[0].dirs) + PrintTree(exts[1..])))
  }

  // ---------- Looking for a file in a tree ----------

  /** What a reader looks for: three parts, or the whole path put together again. */
  datatype Want = ByParts(parts: Parts) | ByPath(path: Data)

  predicate Matches(want: Want, p: Parts) {
    match want
    case ByParts(parts) => p == parts
    case ByPath(path) => JoinName(p) == path
  }

  function InFiles(files: seq<Entry>, want: Want, ext: Data, dir: Data): Option<Entry> {
    if files == [] then None
    else if Matches(want, Parts(dir, files[0].name, ext)) then Some(files[0])
    else InFiles(files[1..], want, ext, dir)
  }

  function InDirs(dirs: seq<Dir>, want: Want, ext: Data): Option<Entry> {
    if dirs == [] then None
    else
      var here := InFiles(dirs[0].files, want, ext, dirs[0].name);
      if here.Some? then here else InDirs(dirs[1..], want, ext)
  }

  /** The first file of the tree that matches. */
  function InTree(exts: seq<Ext>, want: Want): Option<Entry> {
    if exts == [] then None
    else
      var here := InDirs(exts[0].dirs, want, exts[0].name);
      if here.Some? then here else InTree(exts[1..], want)
  }

  // ---------- Reading ----------

  /**
   * How a reader behaves. need: how much of a record it must get. strict: whether a preload cut short is an error.
   */
  datatype Reader = Reader(want: Want, need: nat, strict: bool)

  predicate Works(rd: Reader) {
    6 <= rd.need <= RECORD
  }

  /** Where the record found is, where a list ended, or why reading stopped: a name without an end or a short record. */
  datatype Scan = Found(record: nat) | Ends(at: nat) | NoEnd | Short

  /** The first NUL from i on. */
  function NulFrom(b: Data, i: nat): (r: Option<nat>)
    ensures r.Some? ==> i <= r.value < |b| && b[r.value] == 0 && forall j | i <= j < r.value :: b[j] != 0
    ensures r.None? ==> forall j | i <= j < |b| :: b[j] != 0
    decreases |b| - i
  {
    if i >= |b| then None else if b[i] == 0 then Some(i) else NulFrom(b, i + 1)
  }

  /** The first byte after a record and its preload, which a lax reader may find beyond the end. */
  function AfterRecord(b: Data, record: nat): nat
    requires record + 6 <= |b|
  {
    record + RECORD + Read(b, record + 4, 2)
  }

  function AtMost(x: nat, y: nat): nat {
    if x <= y then x else y
  }

  function ScanFiles(b: Data, i: nat, rd: Reader, ext: Data, dir: Data): (r: Scan)
    requires Works(rd)
    ensures r.Ends? ==> i < r.at <= |b|
    ensures r.Found? ==> r.record + rd.need <= |b|
    decreases |b| - i
  {
    match NulFrom(b, i)
    case None => NoEnd
    case Some(e) =>
      if e == i then Ends(e + 1)
      else if |b| - (e + 1) < rd.need then Short
      else if rd.strict && AfterRecord(b, e + 1) > |b| then Short
      else if Matches(rd.want, Parts(dir, b[i..e], ext)) then Found(e + 1)
      else ScanFiles(b, AtMost(AfterRecord(b, e + 1), |b|), rd, ext, dir)
  }

  function ScanDirs(b: Data, i: nat, rd: Reader, ext: Data): (r: Scan)
    requires Works(rd)
    ensures r.Ends? ==> i < r.at <= |b|
    ensures r.Found? ==> r.record + rd.need <= |b|
    decreases |b| - i
  {
    match NulFrom(b, i)
    case None => NoEnd
    case Some(e) =>
      if e == i then Ends(e + 1)
      else
        var files := ScanFiles(b, e + 1, rd, ext, b[i..e]);
        if files.Ends? then ScanDirs(b, files.at, rd, ext) else files
  }

  function ScanTree(b: Data, i: nat, rd: Reader): (r: Scan)
    requires Works(rd)
    ensures r.Ends? ==> i < r.at <= |b|
    ensures r.Found? ==> r.record + rd.need <= |b|
    decreases |b| - i
  {
    match NulFrom(b, i)
    case None => NoEnd
    case Some(e) =>
      if e == i then Ends(e + 1)
      else
        var dirs := ScanDirs(b, e + 1, rd, b[i..e]);
        if dirs.Ends? then ScanTree(b, dirs.at, rd) else dirs
  }

  method ReadName(b: Data, i: nat) returns (e: Option<nat>)
    ensures e == NulFrom(b, i)
  {
    var j := i;
    while j < |b|
      invariant i <= j && NulFrom(b, j) == NulFrom(b, i)
      decreases |b| - j
    {
      if b[j] == 0 {
        return Some(j);
      }
      j := j + 1;
    }
    return None;
  }

  /** The innermost of the three nested loops every reader has: the files of one directory. */
  method FindInFiles(b: Data, start: nat, rd: Reader, ext: Data, dir: Data) returns (r: Scan)
    requires Works(rd)
    ensures r == ScanFiles(b, start, rd, ext, dir)
  {
    hide Matches, Read;
    var i := start;
    while true
      invariant ScanFiles(b, i, rd, ext, dir) == ScanFiles(b, start, rd, ext, dir)
      decreases |b| - i
    {
      var e := ReadName(b, i);
      if e.None? {
        return NoEnd;
      }
      if e.value == i {
        return Ends(i + 1);
      }
      var record := e.value + 1;
      if |b| - record < rd.need {
        return Short;
      }
      var next := AfterRecord(b, record);
      if rd.strict && next > |b| {
        return Short;
      }
      if Matches(rd.want, Parts(dir, b[i..e.value], ext)) {
        return Found(record);
      }
      i := AtMost(next, |b|);
    }
  }

  /** The middle loop: the directories of one extension. */
  method FindInDirs(b: Data, start: nat, rd: Reader, ext: Data) returns (r: Scan)
    requires Works(rd)
    ensures r == ScanDirs(b, start, rd, ext)
  {
    hide ScanFiles, NulFrom;
    var i := start;
    while true
      invariant ScanDirs(b, i, rd, ext) == ScanDirs(b, start, rd, ext)
      decreases |b| - i
    {
      var e := ReadName(b, i);
      if e.None? {
        return NoEnd;
      }
      if e.value == i {
        return Ends(i + 1);
      }
      r := FindInFiles(b, e.value + 1, rd, ext, b[i..e.value]);
      if !r.Ends? {
        return;
      }
      i := r.at;
    }
  }

  /** The outer loop: the extensions. */
  method Find(b: Data, start: nat, rd: Reader) returns (r: Scan)
    requires Works(rd)
    ensures r == ScanTree(b, start, rd)
  {
    hide ScanDirs, NulFrom;
    var i := start;
    while true
      invariant ScanTree(b, i, rd) == ScanTree(b, start, rd)
      decreases |b| - i
    {
      var e := ReadName(b, i);
      if e.None? {
        return NoEnd;
      }
      if e.value == i {
        return Ends(i + 1);
      }
      r := FindInDirs(b, e.value + 1, rd, b[i..e.value]);
      if !r.Ends? {
        return;
      }
      i := r.at;
    }
  }

  // ---------- Reading what was printed ----------

  /** Reading a name that is there finds its end. */
  lemma NameAt(b: Data, i: nat, name: Data, rest: Data)
    requires At(b, i, name + ([0] + rest)) && 0 !in name
    ensures NulFrom(b, i) == Some(i + |name|) && b[i..i + |name|] == name && At(b, i + |name| + 1, rest)
  {
    AtSplit(b, i, name, [0] + rest);
    AtSplit(b, i + |name|, [0], rest);
    assert b[i + |name|] == 0;
    forall j | i <= j < i + |name| ensures b[j] != 0 {
      assert b[j] == name[j - i];
    }
    NulIs(b, i, i + |name|);
  }

  lemma {:induction false} NulIs(b: Data, i: nat, e: nat)
    requires i <= e < |b| && b[e] == 0 && forall j | i <= j < e :: b[j] != 0
    ensures NulFrom(b, i) == Some(e)
    decreases e - i
  {
    if i < e {
      NulIs(b, i + 1, e);
    }
  }

  lemma EndAt(b: Data, i: nat)
    requires At(b, i, [0])
    ensures NulFrom(b, i) == Some(i)
  {
    assert b[i] == 0;
  }

  /** e's record and preload are at r. */
  ghost predicate RecordAt(b: Data, r: nat, e: Entry) {
    At(b, r, PrintRecord(e)) && At(b, r + RECORD, e.preload)
  }

  /** Every field of a printed record reads back. */
  lemma RecordReads(b: Data, r: nat, e: Entry)
    requires RecordAt(b, r, e) && GoodEntry(e)
    ensures r + RECORD + |e.preload| <= |b|
    ensures Read(b, r, 4) == e.crc && Read(b, r + 4, 2) == |e.preload| && Read(b, r + 6, 2) == e.archive
    ensures Read(b, r + 8, 4) == e.offset && Read(b, r + 12, 4) == e.length && Read(b, r + 16, 2) == e.term
    ensures b[r + RECORD..r + RECORD + |e.preload|] == e.preload
  {
    Limits();
    var crc, pre, arc, off, len, term := Le(e.crc, 4), Le(|e.preload|, 2), Le(e.archive, 2), Le(e.offset, 4),
      Le(e.length, 4), Le(e.term, 2);
    AtSplit(b, r, crc, pre + (arc + (off + (len + term))));
    AtSplit(b, r + 4, pre, arc + (off + (len + term)));
    AtSplit(b, r + 6, arc, off + (len + term));
    AtSplit(b, r + 8, off, len + term);
    AtSplit(b, r + 12, len, term);
    hide At, Le, Limit, Read;
    ReadLe(b, r, e.crc, 4);
    ReadLe(b, r + 4, |e.preload|, 2);
    ReadLe(b, r + 6, e.archive, 2);
    ReadLe(b, r + 8, e.offset, 4);
    ReadLe(b, r + 12, e.length, 4);
    ReadLe(b, r + 16, e.term, 2);
  }

  /** The result of a scan that found e or went through a list of the given size. */
  ghost predicate Sees(b: Data, r: Scan, e: Option<Entry>, end: nat) {
    if e.Some? then r.Found? && RecordAt(b, r.record, e.value) else r == Ends(end)
  }

  /** One file: found, or its record and preload skipped. */
  lemma FilesStep(b: Data, i: nat, e: Entry, rest: Data, rd: Reader, ext: Data, dir: Data)
    requires Works(rd) && GoodEntry(e) && At(b, i, e.name + ([0] + (PrintRecord(e) + (e.preload + rest))))
    ensures var r := i + |e.name| + 1;
            var next := r + RECORD + |e.preload|;
            && RecordAt(b, r, e) && At(b, next, rest)
            && ScanFiles(b, i, rd, ext, dir) ==
                 if Matches(rd.want, Parts(dir, e.name, ext)) then Found(r) else ScanFiles(b, next, rd, ext, dir)
  {
    hide PrintRecord, Matches, At, Read, NulFrom;
    var r := i + |e.name| + 1;
    NameAt(b, i, e.name, PrintRecord(e) + (e.preload + rest));
    AtSplit(b, r, PrintRecord(e), e.preload + rest);
    AtSplit(b, r + RECORD, e.preload, rest);
    RecordReads(b, r, e);
  }

  lemma {:induction false} FilesReadBack(b: Data, i: nat, files: seq<Entry>, rd: Reader, ext: Data, dir: Data)
    requires Works(rd) && GoodFiles(files) && At(b, i, PrintFiles(files))
    ensures Sees(b, ScanFiles(b, i, rd, ext, dir), InFiles(files, rd.want, ext, dir), i + |PrintFiles(files)|)
    decreases |files|
  {
    hide PrintRecord, Matches, At, RecordAt, GoodEntry, NulFrom;
    if files == [] {
      EndAt(b, i);
    } else {
      var e := files[0];
      FilesStep(b, i, e, PrintFiles(files[1..]), rd, ext, dir);
      FilesReadBack(b, i + |e.name| + 1 + RECORD + |e.preload|, files[1..], rd, ext, dir);
    }
  }

  /** One directory: its files, then the rest. */
  lemma DirsStep(b: Data, i: nat, d: Dir, rest: Data, rd: Reader, ext: Data)
    requires Works(rd) && GoodName(d.name) && At(b, i, d.name + ([0] + (PrintFiles(d.files) + rest)))
    ensures var f := i + |d.name| + 1;
            && At(b, f, PrintFiles(d.files)) && At(b, f + |PrintFiles(d.files)|, rest)
            && ScanDirs(b, i, rd, ext) ==
                 var files := ScanFiles(b, f, rd, ext, d.name);
                 if files.Ends? then ScanDirs(b, files.at, rd, ext) else files
  {
    hide PrintFiles, ScanFiles, At, NulFrom;
    NameAt(b, i, d.name, PrintFiles(d.files) + rest);
    AtSplit(b, i + |d.name| + 1, PrintFiles(d.files), rest);
  }

  lemma {:induction false} DirsReadBack(b: Data, i: nat, dirs: seq<Dir>, rd: Reader, ext: Data)
    requires Works(rd) && GoodDirs(dirs) && At(b, i, PrintDirs(dirs))
    ensures Sees(b, ScanDirs(b, i, rd, ext), InDirs(dirs, rd.want, ext), i + |PrintDirs(dirs)|)
    decreases |dirs|
  {
    hide GoodName, GoodFiles, PrintFiles, InFiles, ScanFiles, RecordAt, At, NulFrom;
    if dirs == [] {
      EndAt(b, i);
    } else {
      var d := dirs[0];
      DirsStep(b, i, d, PrintDirs(dirs[1..]), rd, ext);
      FilesReadBack(b, i + |d.name| + 1, d.files, rd, ext, d.name);
      DirsReadBack(b, i + |d.name| + 1 + |PrintFiles(d.files)|, dirs[1..], rd, ext);
    }
  }

  /** One extension: its directories, then the rest. */
  lemma TreeStep(b: Data, i: nat, x: Ext, rest: Data, rd: Reader)
    requires Works(rd) && GoodName(x.name) && At(b, i, x.name + ([0] + (PrintDirs(x.dirs) + rest)))
    ensures var d := i + |x.name| + 1;
            && At(b, d, PrintDirs(x.dirs)) && At(b, d + |PrintDirs(x.dirs)|, rest)
            && ScanTree(b, i, rd) ==
                 var dirs := ScanDirs(b, d, rd, x.name);
                 if dirs.Ends? then ScanTree(b, dirs.at, rd) else dirs
  {
    hide PrintDirs, ScanDirs, At, NulFrom;
    NameAt(b, i, x.name, PrintDirs(x.dirs) + rest);
    AtSplit(b, i + |x.name| + 1, PrintDirs(x.dirs), rest);
  }

  /** Any reader, on a printed tree, finds the first file that matches, or reads the tree to its end. */
  lemma {:induction false} TreeReadBack(b: Data, i: nat, exts: seq<Ext>, rd: Reader)
    requires Works(rd) && GoodTree(exts) && At(b, i, PrintTree(exts))
    ensures Sees(b, ScanTree(b, i, rd), InTree(exts, rd.want), i + |PrintTree(exts)|)
    decreases |exts|
  {
    hide GoodName, GoodDirs, PrintDirs, InDirs, ScanDirs, RecordAt, At, NulFrom;
    if exts == [] {
      EndAt(b, i);
    } else {
      var x := exts[0];
      TreeStep(b, i, x, PrintTree(exts[1..]), rd);
      DirsReadBack(b, i + |x.name| + 1, x.dirs, rd, x.name);
      TreeReadBack(b, i + |x.name| + 1 + |PrintDirs(x.dirs)|, exts[1..], rd);
    }
  }

  // ---------- What a reader may find ----------

  /** The name from k up to the NUL before record r, with some directory and extension, is one rd wants. */
  ghost predicate Wanted(b: Data, r: nat, want: Want, k: nat, dir: Data, ext: Data) {
    && k + 1 < r <= |b| && b[r - 1] == 0 && 0 !in b[k..r - 1]
    && Matches(want, Parts(dir, b[k..r - 1], ext))
  }

  /** What a reader found: as much of the record as it needs, and for a strict reader its preload too. */
  predicate Complete(b: Data, r: nat, rd: Reader) {
    r + rd.need <= |b| && (rd.strict ==> r + 6 <= |b| && r + 18 + Read(b, r + 4, 2) <= |b|)
  }

  lemma {:induction false} FilesFound(b: Data, i: nat, rd: Reader, ext: Data, dir: Data)
    requires Works(rd) && ScanFiles(b, i, rd, ext, dir).Found?
    ensures var r := ScanFiles(b, i, rd, ext, dir).record;
            Complete(b, r, rd) && exists k :: Wanted(b, r, rd.want, k, dir, ext)
    decreases |b| - i
  {
    hide Matches, Read;
    var e := NulFrom(b, i).value;
    if Matches(rd.want, Parts(dir, b[i..e], ext)) {
      assert Wanted(b, e + 1, rd.want, i, dir, ext);
    } else {
      FilesFound(b, AtMost(AfterRecord(b, e + 1), |b|), rd, ext, dir);
    }
  }

  lemma {:induction false} DirsFound(b: Data, i: nat, rd: Reader, ext: Data)
    requires Works(rd) && ScanDirs(b, i, rd, ext).Found?
    ensures var r := ScanDirs(b, i, rd, ext).record;
            Complete(b, r, rd) && exists k, dir :: Wanted(b, r, rd.want, k, dir, ext)
    decreases |b| - i
  {
    hide Complete, Wanted, ScanFiles, NulFrom;
    var e := NulFrom(b, i).value;
    var files := ScanFiles(b, e + 1, rd, ext, b[i..e]);
    if files.Ends? {
      DirsFound(b, files.at, rd, ext);
    } else {
      FilesFound(b, e + 1, rd, ext, b[i..e]);
    }
  }

  /** On any bytes: what a reader finds is a record with a name it wants, read as far as it needs, and for a strict
      reader with its preload inside the tree. */
  lemma {:induction false} TreeFound(b: Data, i: nat, rd: Reader)
    requires Works(rd) && ScanTree(b, i, rd).Found?
    ensures var r := ScanTree(b, i, rd).record;
            Complete(b, r, rd) && exists k, dir, ext :: Wanted(b, r, rd.want, k, dir, ext)
    decreases |b| - i
  {
    hide Complete, Wanted, ScanDirs, NulFrom;
    var e := NulFrom(b, i).value;
    var dirs := ScanDirs(b, e + 1, rd, b[i..e]);
    if dirs.Ends? {
      TreeFound(b, dirs.at, rd);
    } else {
      DirsFound(b, e + 1, rd, b[i..e]);
    }
  }
}
