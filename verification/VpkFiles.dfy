/** Whole VPK files: what the three readers make of any of them, and of the ones the packer writes. */
module VpkFiles {
  import opened Common
  import opened Bytes
  import opened Vpk

  const CRC_SIZE := 4

  /** Length of the header of a version. */
  function HeaderSize(version: nat): nat {
    if version == 2 then 28 else 12
  }

  function Header(version: nat, treeSize: nat): Data {
    Le(SIGNATURE, 4) + (Le(version, 4) + Le(treeSize, 4))
  }

  /** The host agent's reader, kept to the bytes the header gives the tree. */
  method VPKEntryCRC(b: Data, name: Data) returns (r: Option<nat>)
    ensures r == AgentCrc(b, name)
  {
    var parts := SplitName(name);
    if parts.None? {
      return None;
    }
    if |b| < 12 || Read(b, 0, 4) != SIGNATURE {
      return None;
    }
    var version := Read(b, 4, 4);
    if version != 1 && version != 2 {
      return None;
    }
    var tree := TreePart(b, version);
    var found := Find(tree, 0, Reader(ByParts(parts.value), RECORD, true));
    if found.Found? {
      return Some(Read(tree, found.record, CRC_SIZE));
    }
    return None;
  }

  function TreePart(b: Data, version: nat): Data
    requires |b| >= 12
  {
    var start := AtMost(HeaderSize(version), |b|);
    b[start..AtMost(start + Read(b, 8, 4), |b|)]
  }

  function AgentCrc(b: Data, name: Data): Option<nat> {
    var parts := SplitName(name);
    if parts.None? || |b| < 12 || Read(b, 0, 4) != SIGNATURE || !(1 <= Read(b, 4, 4) <= 2) then None
    else
      var tree := TreePart(b, Read(b, 4, 4));
      var found := ScanTree(tree, 0, Reader(ByParts(parts.value), RECORD, true));
      if found.Found? then Some(Read(tree, found.record, CRC_SIZE)) else None
  }

  /** How a build script ends: with an answer, with an error, or not at all on a name without an end. */
  datatype Answer<T> = Done(value: T) | Fails | Endless

  /** entry_crc of pack_vpk.py. It takes any version and reads to the end of the file. */
  method EntryCrc(b: Data, name: Data) returns (r: Answer<nat>)
    ensures r == ScriptCrc(b, name)
  {
    if |b| < 12 || Read(b, 0, 4) != SIGNATURE {
      return Fails;
    }
    var found := Find(b, AtMost(HeaderSize(Read(b, 4, 4)), |b|), Reader(ByPath(name), 6, false));
    match found
    case Found(at) => return Done(Read(b, at, CRC_SIZE));
    case NoEnd => return Endless;
    case _ => return Fails;
  }

  function ScriptCrc(b: Data, name: Data): Answer<nat> {
    if |b| < 12 || Read(b, 0, 4) != SIGNATURE then Fails
    else
      match ScanTree(b, AtMost(HeaderSize(Read(b, 4, 4)), |b|), Reader(ByPath(name), 6, false))
      case Found(at) => Done(Read(b, at, CRC_SIZE))
      case NoEnd => Endless
      case _ => Fails
  }

  /** What reading n bytes at i of a file gives, at most what is there. */
  function Piece(b: Data, i: nat, n: nat): Data {
    b[AtMost(i, |b|)..AtMost(i + n, |b|)]
  }

  /** read_entry of build_vjs.py. archives holds the numbered files next to the directory file. */
  method ReadEntry(b: Data, archives: nat -> Data, name: Data) returns (r: Answer<Data>)
    ensures r == EntryData(b, archives, name)
  {
    hide ScanTree, Read, Piece;
    if |b| < 12 || Read(b, 0, 4) != SIGNATURE || Read(b, 4, 4) != 2 {
      return Fails;
    }
    var treeSize := Read(b, 8, 4);
    var found := Find(b, AtMost(28, |b|), Reader(ByPath(name), RECORD, false));
    match found
    case Found(at) =>
      var preload := Piece(b, at + RECORD, Read(b, at + 4, 2));
      var archive, offset, length := Read(b, at + 6, 2), Read(b, at + 8, 4), Read(b, at + 12, 4);
      if archive == IN_THIS_FILE {
        return Done(preload + Piece(b, 28 + treeSize + offset, length));
      }
      return Done(preload + Piece(archives(archive), offset, length));
    case NoEnd => return Endless;
    case _ => return Fails;
  }

  function EntryData(b: Data, archives: nat -> Data, name: Data): Answer<Data> {
    if |b| < 12 || Read(b, 0, 4) != SIGNATURE || Read(b, 4, 4) != 2 then Fails
    else
      match ScanTree(b, AtMost(28, |b|), Reader(ByPath(name), RECORD, false))
      case Found(at) =>
        var stored := if Read(b, at + 6, 2) == IN_THIS_FILE then b else archives(Read(b, at + 6, 2));
        var offset := if Read(b, at + 6, 2) == IN_THIS_FILE then 28 + Read(b, 8, 4) + Read(b, at + 8, 4)
          else Read(b, at + 8, 4);
        Done(Piece(b, at + RECORD, Read(b, at + 4, 2)) + Piece(stored, offset, Read(b, at + 12, 4)))
      case NoEnd => Endless
      case _ => Fails
  }

  // ---------- Any well-formed file ----------

  /** A file of version 1 or 2 whose header gives the size of its printed tree. */
  ghost predicate IsVpk(b: Data, version: nat, exts: seq<Ext>) {
    && 1 <= version <= 2 && GoodTree(exts) && |PrintTree(exts)| < 0x1_0000_0000
    && At(b, 0, Header(version, |PrintTree(exts)|))
    && At(b, if version == 1 then 12 else 28, PrintTree(exts))
  }

  lemma HeaderReads(b: Data, version: nat, exts: seq<Ext>)
    requires IsVpk(b, version, exts)
    ensures |b| >= HeaderSize(version) + |PrintTree(exts)| >= 12
    ensures Read(b, 0, 4) == SIGNATURE && Read(b, 4, 4) == version && Read(b, 8, 4) == |PrintTree(exts)|
  {
    var size := |PrintTree(exts)|;
    var sig, ver, len := Le(SIGNATURE, 4), Le(version, 4), Le(size, 4);
    Limits();
    AtSplit(b, 0, sig, ver + len);
    AtSplit(b, 4, ver, len);
    ReadLe(b, 0, SIGNATURE, 4);
    ReadLe(b, 4, version, 4);
    ReadLe(b, 8, size, 4);
  }

  /** File names without a slash and extensions without a slash or a dot: a path stands for one file. */
  predicate PlainFiles(files: seq<Entry>, ext: Data, dir: Data) {
    forall i | 0 <= i < |files| :: Plain(Parts(dir, files[i].name, ext))
  }

  predicate PlainDirs(dirs: seq<Dir>, ext: Data) {
    forall i | 0 <= i < |dirs| :: PlainFiles(dirs[i].files, ext, dirs[i].name)
  }

  predicate PlainTree(exts: seq<Ext>) {
    forall i | 0 <= i < |exts| :: PlainDirs(exts[i].dirs, exts[i].name)
  }

  function ByName(name: Data): Want
    requires SplitName(name).Some?
  {
    ByParts(SplitName(name).value)
  }

  lemma {:induction false} FilesAgree(files: seq<Entry>, ext: Data, dir: Data, name: Data)
    requires PlainFiles(files, ext, dir)
    ensures InFiles(files, ByPath(name), ext, dir) ==
            if SplitName(name).Some? then InFiles(files, ByName(name), ext, dir) else None
  {
    if files != [] {
      FilesAgree(files[1..], ext, dir, name);
      SplitOfJoin(Parts(dir, files[0].name, ext), name);
    }
  }

  lemma {:induction false} DirsAgree(dirs: seq<Dir>, ext: Data, name: Data)
    requires PlainDirs(dirs, ext)
    ensures InDirs(dirs, ByPath(name), ext) == if SplitName(name).Some? then InDirs(dirs, ByName(name), ext) else None
  {
    if dirs != [] {
      FilesAgree(dirs[0].files, ext, dirs[0].name, name);
      DirsAgree(dirs[1..], ext, name);
    }
  }

  /** Comparing whole paths and comparing parts pick the same file, and a name that does not split picks none. */
  lemma {:induction false} WantsAgree(exts: seq<Ext>, name: Data)
    requires PlainTree(exts)
    ensures InTree(exts, ByPath(name)) == if SplitName(name).Some? then InTree(exts, ByName(name)) else None
  {
    if exts != [] {
      DirsAgree(exts[0].dirs, exts[0].name, name);
      WantsAgree(exts[1..], name);
    }
  }

  lemma {:induction false} InFilesGood(files: seq<Entry>, want: Want, ext: Data, dir: Data)
    requires GoodFiles(files)
    ensures InFiles(files, want, ext, dir).Some? ==> GoodEntry(InFiles(files, want, ext, dir).value)
  {
    if files != [] {
      InFilesGood(files[1..], want, ext, dir);
    }
  }

  lemma {:induction false} InDirsGood(dirs: seq<Dir>, want: Want, ext: Data)
    requires GoodDirs(dirs)
    ensures InDirs(dirs, want, ext).Some? ==> GoodEntry(InDirs(dirs, want, ext).value)
  {
    if dirs != [] {
      InFilesGood(dirs[0].files, want, ext, dirs[0].name);
      InDirsGood(dirs[1..], want, ext);
    }
  }

  lemma {:induction false} InTreeGood(exts: seq<Ext>, want: Want)
    requires GoodTree(exts)
    ensures InTree(exts, want).Some? ==> GoodEntry(InTree(exts, want).value)
  {
    if exts != [] {
      InDirsGood(exts[0].dirs, want, exts[0].name);
      InTreeGood(exts[1..], want);
    }
  }

  /**
   * The host agent gets the CRC of the first file of the tree with the name, and an error exactly when there is none.
   */
  lemma AgentFindsFirst(b: Data, version: nat, exts: seq<Ext>, name: Data)
    requires IsVpk(b, version, exts)
    ensures AgentCrc(b, name) ==
            if SplitName(name).None? then None
            else match InTree(exts, ByName(name)) case None => None case Some(e) => Some(e.crc)
  {
    hide PrintTree, ScanTree, InTree, GoodTree, GoodEntry, Read, SplitName, TreePart, At, RecordAt, Header;
    HeaderReads(b, version, exts);
    TreePartIs(b, version, exts);
    if SplitName(name).Some? {
      var tree, rd := TreePart(b, version), Reader(ByName(name), RECORD, true);
      TreeReadBack(tree, 0, exts, rd);
      InTreeGood(exts, rd.want);
      if InTree(exts, rd.want).Some? {
        RecordReads(tree, ScanTree(tree, 0, rd).record, InTree(exts, rd.want).value);
      }
    }
  }

  lemma TreePartIs(b: Data, version: nat, exts: seq<Ext>)
    requires IsVpk(b, version, exts)
    ensures |b| >= 12 && At(TreePart(b, version), 0, PrintTree(exts))
  {
    HeaderReads(b, version, exts);
    hide PrintTree, GoodTree, Header, Read;
    var start, size := HeaderSize(version), |PrintTree(exts)|;
    assert TreePart(b, version) == b[start..start + size];
  }

  lemma TreeStands(b: Data, version: nat, exts: seq<Ext>)
    requires IsVpk(b, version, exts)
    ensures GoodTree(exts) && At(b, HeaderSize(version), PrintTree(exts))
  {
  }

  /** The packer's reader agrees with the host agent's on every file whose names can be told apart from paths. */
  lemma ReadersAgree(b: Data, version: nat, exts: seq<Ext>, name: Data)
    requires IsVpk(b, version, exts) && PlainTree(exts)
    ensures ScriptCrc(b, name) == match AgentCrc(b, name) case None => Fails case Some(crc) => Done(crc)
  {
    HeaderReads(b, version, exts);
    AgentFindsFirst(b, version, exts, name);
    WantsAgree(exts, name);
    var rd := Reader(ByPath(name), 6, false);
    var start := HeaderSize(version);
    TreeStands(b, version, exts);
    hide IsVpk, PlainTree, Header;
    TreeReadBack(b, start, exts, rd);
    InTreeGood(exts, rd.want);
    hide PrintTree, ScanTree, InTree, GoodTree, GoodEntry, Read, SplitName, AgentCrc;
    if InTree(exts, rd.want).Some? {
      RecordReads(b, ScanTree(b, start, rd).record, InTree(exts, rd.want).value);
    }
  }

  lemma StoredFields(b: Data, at: nat, e: Entry)
    requires RecordAt(b, at, e) && GoodEntry(e)
    ensures at + RECORD <= |b|
    ensures Read(b, at + 4, 2) == |e.preload| && Read(b, at + 6, 2) == e.archive
    ensures Read(b, at + 8, 4) == e.offset && Read(b, at + 12, 4) == e.length
    ensures Piece(b, at + RECORD, |e.preload|) == e.preload
  {
    RecordReads(b, at, e);
  }

  /** build_vjs.py gets the first matching file's preload and then its stored bytes. */
  lemma ReadsStoredBytes(b: Data, archives: nat -> Data, exts: seq<Ext>, name: Data)
    requires IsVpk(b, 2, exts)
    ensures EntryData(b, archives, name) ==
            match InTree(exts, ByPath(name))
            case None => Fails
            case Some(e) =>
              Done(e.preload + (if e.archive == IN_THIS_FILE then Piece(b, 28 + |PrintTree(exts)| + e.offset, e.length)
                                else Piece(archives(e.archive), e.offset, e.length)))
  {
    hide PrintTree, ScanTree, InTree, GoodTree, GoodEntry, Read, Piece, RecordAt, At, Header;
    HeaderReads(b, 2, exts);
    var rd := Reader(ByPath(name), RECORD, false);
    TreeReadBack(b, 28, exts, rd);
    InTreeGood(exts, rd.want);
    if InTree(exts, rd.want).Some? {
      StoredFields(b, ScanTree(b, 28, rd).record, InTree(exts, rd.want).value);
    }
  }

  // ---------- Any bytes ----------

  /** A record and its preload are in the tree at r, and crc is its checksum. */
  ghost predicate HasCrc(tree: Data, r: nat, crc: nat) {
    r + 18 <= |tree| && r + 18 + Read(tree, r + 4, 2) <= |tree| && Read(tree, r, 4) == crc
  }

  /** What a file must be for the host agent to read a CRC from it: a VPK of version 1 or 2, with a complete record of
      that name in its tree. */
  lemma AgentReadsOnlyVpks(b: Data, name: Data)
    requires AgentCrc(b, name).Some?
    ensures |b| >= 12 && b[..4] == [0x34, 0x12, 0xAA, 0x55]
    ensures Read(b, 4, 4) == 1 || Read(b, 4, 4) == 2
    ensures SplitName(name).Some?
    ensures exists r :: HasCrc(TreePart(b, Read(b, 4, 4)), r, AgentCrc(b, name).value)
  {
    hide ScanTree, SplitName;
    var tree := TreePart(b, Read(b, 4, 4));
    var rd := Reader(ByParts(SplitName(name).value), RECORD, true);
    TreeFound(tree, 0, rd);
    SignatureBytes(b);
    var r := ScanTree(tree, 0, rd).record;
    assert HasCrc(tree, r, AgentCrc(b, name).value);
  }

  lemma SignatureBytes(b: Data)
    requires |b| >= 12 && Read(b, 0, 4) == SIGNATURE
    ensures b[..4] == [0x34, 0x12, 0xAA, 0x55]
  {
    var s, t, u, v := b[0..4], b[1..4], b[2..4], b[3..4];
    var x0: int, x1: int, x2: int, x3: int := b[0], b[1], b[2], b[3];
    assert s[1..] == t && t[1..] == u && u[1..] == v && v[1..] == [];
    assert Number(v) == x3;
    assert Number(u) == x2 + 256 * x3;
    assert Number(t) == x1 + 256 * (x2 + 256 * x3);
    assert Number(s) == x0 + 256 * (x1 + 256 * (x2 + 256 * x3));
  }

  /** The build scripts want the same signature, the packer's in any version, the builder's in version 2 only. */
  lemma ScriptsReadOnlyVpks(b: Data, archives: nat -> Data, name: Data)
    ensures !ScriptCrc(b, name).Fails? ==> |b| >= 12 && b[..4] == [0x34, 0x12, 0xAA, 0x55]
    ensures !EntryData(b, archives, name).Fails? ==>
              |b| >= 12 && b[..4] == [0x34, 0x12, 0xAA, 0x55] && Read(b, 4, 4) == 2
  {
    hide ScanTree;
    if |b| >= 12 && Read(b, 0, 4) == SIGNATURE {
      SignatureBytes(b);
    }
  }

  // ---------- The packer ----------

  /** Checksums, kept abstract. */
  datatype Sums = Sums(crc: Data -> nat, md5: Data -> Data)

  ghost predicate GoodSums(h: Sums) {
    forall d :: h.crc(d) < 0x1_0000_0000 && |h.md5(d)| == 16
  }

  function PackedEntry(h: Sums, p: Parts, data: Data): Entry {
    Entry(p.file, h.crc(data), [], IN_THIS_FILE, 0, |data|, 0xFFFF)
  }

  function PackedTree(h: Sums, p: Parts, data: Data): seq<Ext> {
    [Ext(p.ext, [Dir(p.dir, [PackedEntry(h, p, data)])])]
  }

  /** pack of pack_vpk.py. None when the name does not split or a size does not fit its field. */
  method Pack(h: Sums, rel: Data, data: Data) returns (r: Option<Data>)
    requires GoodSums(h)
    ensures r.Some? <==>
            && SplitName(rel).Some? && |data| < 0x1_0000_0000
            && |PrintTree(PackedTree(h, SplitName(rel).value, data))| < 0x1_0000_0000
    ensures r.Some? ==> At(r.value, 0, Header(2, |PrintTree(PackedTree(h, SplitName(rel).value, data))|))
    ensures r.Some? ==> At(r.value, 28, PrintTree(PackedTree(h, SplitName(rel).value, data)))
    ensures r.Some? ==> At(r.value, 28 + |PrintTree(PackedTree(h, SplitName(rel).value, data))|, data)
    ensures r.Some? ==> Checked(h, r.value, PrintTree(PackedTree(h, SplitName(rel).value, data)), data)
  {
    var parts := SplitName(rel);
    if parts.None? || |data| >= 0x1_0000_0000 {
      return None;
    }
    var p := parts.value;
    var tree := p.ext + [0] + p.dir + [0] + p.file + [0];
    tree := tree + PrintRecord(PackedEntry(h, p, data));
    tree := tree + [0, 0, 0];
    PackedTreeIs(h, p, data);
    if |tree| >= 0x1_0000_0000 {
      return None;
    }
    var head := Header(2, |tree|);
    var more := Le(|data|, 4) + Le(0, 4) + Le(48, 4) + Le(0, 4);
    var body := head + more + tree + data;
    var part := h.md5(tree) + h.md5([]);
    var sums := part + h.md5(body + part);
    hide PrintTree, PackedTree, PrintRecord, SplitName, At, Header, Le, Checked;
    assert |head| == 12 && |more| == 16;
    Layout(head, more, tree, data, sums);
    LayoutOfSums(h, head, tree, data);
    return Some(body + sums);
  }

  /**
   * The rest of a packed file: in the header the sizes of data and checksums, with no archive checksums and no
   * signature, and at the end the checksums of the tree, of no archive checksums, and of all before the last.
   */
  ghost predicate Checked(h: Sums, file: Data, tree: Data, data: Data) {
    var n := 28 + |tree| + |data|;
    && |file| == n + 48
    && At(file, 12, Le(|data|, 4)) && At(file, 16, Le(0, 4)) && At(file, 20, Le(48, 4)) && At(file, 24, Le(0, 4))
    && file[n..n + 16] == h.md5(tree) && file[n + 16..n + 32] == h.md5([]) && file[n + 32..] == h.md5(file[..n + 32])
  }

  lemma LayoutOfSums(h: Sums, head: Data, tree: Data, data: Data)
    requires GoodSums(h) && |head| == 12
    ensures var more := Le(|data|, 4) + Le(0, 4) + Le(48, 4) + Le(0, 4);
            var body := head + more + tree + data;
            var part := h.md5(tree) + h.md5([]);
            Checked(h, body + (part + h.md5(body + part)), tree, data)
  {
    var a, b, c, d := Le(|data|, 4), Le(0, 4), Le(48, 4), Le(0, 4);
    hide Le, GoodSums, At, Checked;
    Sizes(head, a, b, c, d, tree, data);
    SumsAtEnd(h, head + (a + b + c + d) + tree + data, tree, data);
  }

  lemma Sizes(head: Data, a: Data, b: Data, c: Data, d: Data, tree: Data, data: Data)
    requires |head| == 12 && |a| == 4 && |b| == 4 && |c| == 4 && |d| == 4
    ensures var body := head + (a + b + c + d) + tree + data;
            At(body, 12, a) && At(body, 16, b) && At(body, 20, c) && At(body, 24, d) && |body| == 28 + |tree| + |data|
  {
    var body := head + (a + b + c + d) + tree + data;
    assert body[12..16] == a;
    assert body[16..20] == b;
    assert body[20..24] == c;
    assert body[24..28] == d;
  }

  lemma SumsAtEnd(h: Sums, body: Data, tree: Data, data: Data)
    requires GoodSums(h) && |body| == 28 + |tree| + |data|
    requires At(body, 12, Le(|data|, 4)) && At(body, 16, Le(0, 4)) && At(body, 20, Le(48, 4)) && At(body, 24, Le(0, 4))
    ensures var part := h.md5(tree) + h.md5([]);
            Checked(h, body + (part + h.md5(body + part)), tree, data)
  {
    var part := h.md5(tree) + h.md5([]);
    assert |h.md5(tree)| == 16 && |h.md5([])| == 16 && |h.md5(body + part)| == 16;
    hide *;
    Tail(body, h.md5(tree), h.md5([]), h.md5(body + part));
    Sealed(h, body + (part + h.md5(body + part)), body, tree, data);
  }

  lemma Sealed(h: Sums, file: Data, body: Data, tree: Data, data: Data)
    requires |body| == 28 + |tree| + |data| && |file| == |body| + 48 && file[..|body|] == body
    requires At(body, 12, Le(|data|, 4)) && At(body, 16, Le(0, 4)) && At(body, 20, Le(48, 4)) && At(body, 24, Le(0, 4))
    requires file[|body|..|body| + 16] == h.md5(tree) && file[|body| + 16..|body| + 32] == h.md5([])
    requires file[|body| + 32..] == h.md5(file[..|body| + 32])
    ensures Checked(h, file, tree, data)
  {
    hide *;
    AtMore(body, 12, Le(|data|, 4), file);
    AtMore(body, 16, Le(0, 4), file);
    AtMore(body, 20, Le(48, 4), file);
    AtMore(body, 24, Le(0, 4), file);
    ChecksOut(h, file, tree, data);
  }

  lemma ChecksOut(h: Sums, file: Data, tree: Data, data: Data)
    requires |file| == 28 + |tree| + |data| + 48
    requires At(file, 12, Le(|data|, 4)) && At(file, 16, Le(0, 4)) && At(file, 20, Le(48, 4)) && At(file, 24, Le(0, 4))
    requires var n := 28 + |tree| + |data|;
             && file[n..n + 16] == h.md5(tree) && file[n + 16..n + 32] == h.md5([])
             && file[n + 32..] == h.md5(file[..n + 32])
    ensures Checked(h, file, tree, data)
  {
    hide At, Le;
  }

  lemma AtMore(b: Data, i: nat, s: Data, more: Data)
    requires At(b, i, s) && |more| >= |b| && more[..|b|] == b
    ensures At(more, i, s)
  {
    assert more[i..i + |s|] == b[i..i + |s|];
  }

  lemma Tail(body: Data, x: Data, y: Data, z: Data)
    requires |x| == 16 && |y| == 16 && |z| == 16
    ensures var file, n := body + (x + y + z), |body|;
            && |file| == n + 48 && file[..n] == body
            && file[n..n + 16] == x && file[n + 16..n + 32] == y && file[n + 32..] == z
            && file[..n + 32] == body + (x + y)
  {
    var file, n := body + (x + y + z), |body|;
    assert file[n..n + 16] == x;
    assert file[n + 16..n + 32] == y;
    assert file[n + 32..] == z;
    assert file[..n + 32] == body + (x + y);
  }

  lemma Layout(head: Data, more: Data, tree: Data, data: Data, sums: Data)
    requires |head| == 12 && |more| == 16
    ensures var file := head + more + tree + data + sums;
            At(file, 0, head) && At(file, 28, tree) && At(file, 28 + |tree|, data)
  {
    var file := head + more + tree + data + sums;
    assert file[0..12] == head;
    assert file[28..28 + |tree|] == tree;
    assert file[28 + |tree|..28 + |tree| + |data|] == data;
  }

  lemma PackedTreeIs(h: Sums, p: Parts, data: Data)
    ensures PrintTree(PackedTree(h, p, data)) ==
            p.ext + [0] + p.dir + [0] + p.file + [0] + PrintRecord(PackedEntry(h, p, data)) + [0, 0, 0]
  {
    var e := PackedEntry(h, p, data);
    var d := Dir(p.dir, [e]);
    assert [e][1..] == [] && [d][1..] == [] && PackedTree(h, p, data)[1..] == [];
    assert PrintFiles([]) == [0] && PrintDirs([]) == [0] && PrintTree([]) == [0];
    hide PrintRecord;
    var record := PrintRecord(e);
    assert PrintFiles([e]) == p.file + ([0] + (record + ([] + [0]))) == p.file + [0] + record + [0];
    assert PrintDirs([d]) == p.dir + ([0] + (PrintFiles([e]) + [0])) == p.dir + [0] + p.file + [0] + record + [0, 0];
  }

  /**
   * Packing and reading back: every reader of a packed file gets what went in, for any path whose three parts are
   * names and any data that fits.
   */
  lemma PackedReadsBack(h: Sums, rel: Data, data: Data, file: Data, archives: nat -> Data)
    requires GoodSums(h) && SplitName(rel).Some? && |data| < 0x1_0000_0000
    requires var p := SplitName(rel).value; GoodName(p.dir) && GoodName(p.file) && GoodName(p.ext)
    requires var t := PrintTree(PackedTree(h, SplitName(rel).value, data));
             |t| < 0x1_0000_0000 && At(file, 0, Header(2, |t|)) && At(file, 28, t) && At(file, 28 + |t|, data)
    ensures EntryData(file, archives, rel) == Done(data)
    ensures AgentCrc(file, rel) == Some(h.crc(data))
    ensures ScriptCrc(file, rel) == Done(h.crc(data))
  {
    hide PrintTree, PackedTree, SplitName, EntryData, AgentCrc, ScriptCrc, InTree, Piece, Plain;
    var p := SplitName(rel).value;
    var t := PackedTree(h, p, data);
    SplitIsPlain(rel);
    PackedIsGood(h, p, data);
    PackedFound(h, p, data);
    assert IsVpk(file, 2, t);
    hide IsVpk, GoodTree, PlainTree;
    AgentFindsFirst(file, 2, t, rel);
    ReadersAgree(file, 2, t, rel);
    ReadsStoredBytes(file, archives, t, rel);
    PieceAt(file, 28 + |PrintTree(t)|, data);
    assert [] + data == data;
  }

  lemma PieceAt(b: Data, i: nat, s: Data)
    requires At(b, i, s)
    ensures Piece(b, i, |s|) == s
  {
  }

  lemma PackedIsGood(h: Sums, p: Parts, data: Data)
    requires GoodSums(h) && Plain(p) && |data| < 0x1_0000_0000
    requires GoodName(p.dir) && GoodName(p.file) && GoodName(p.ext)
    ensures GoodTree(PackedTree(h, p, data)) && PlainTree(PackedTree(h, p, data))
  {
    assert GoodEntry(PackedEntry(h, p, data));
  }

  lemma PackedFound(h: Sums, p: Parts, data: Data)
    ensures InTree(PackedTree(h, p, data), ByParts(p)) == Some(PackedEntry(h, p, data))
    ensures InTree(PackedTree(h, p, data), ByPath(JoinName(p))) == Some(PackedEntry(h, p, data))
  {
    var e := PackedEntry(h, p, data);
    assert InFiles([e], ByParts(p), p.ext, p.dir) == Some(e);
    assert InFiles([e], ByPath(JoinName(p)), p.ext, p.dir) == Some(e);
  }
}
