/** Swapping the script inside a compiled Source 2 resource (swap_data of plugin/rush-script/build_vjs.py). */
module Resource {
  import opened Common
  import opened Bytes

  const HEADER := 16
  const BLOCK := 12
  const DATA_KIND: Data := [68, 65, 84, 65]

  /** Where the block table starts and how many blocks it has. */
  function Table(r: Data): nat
    requires |r| >= HEADER
  {
    8 + Read(r, 8, 4)
  }

  function Count(r: Data): nat
    requires |r| >= HEADER
  {
    Read(r, 12, 4)
  }

  /** The entry of the last block. */
  function LastEntry(r: Data): nat
    requires |r| >= HEADER && Count(r) >= 1
  {
    Table(r) + (Count(r) - 1) * BLOCK
  }

  /** The checks swap_data makes: the size field, a table that is all there, and DATA as the last block to the end. */
  predicate Passes(r: Data) {
    && |r| >= HEADER
    && Read(r, 0, 4) == |r|
    && Count(r) >= 1
    && LastEntry(r) + BLOCK <= |r|
    && r[LastEntry(r)..LastEntry(r) + 4] == DATA_KIND
    && LastEntry(r) + 4 + Read(r, LastEntry(r) + 4, 4) + Read(r, LastEntry(r) + 8, 4) == |r|
  }

  /** Where the DATA block starts. */
  function DataStart(r: Data): (s: nat)
    requires Passes(r)
    ensures s <= |r|
  {
    LastEntry(r) + 4 + Read(r, LastEntry(r) + 4, 4)
  }

  /** A resource as the engine lays it out: header, then the table, then the blocks. */
  predicate WellFormed(r: Data) {
    Passes(r) && Table(r) >= HEADER && DataStart(r) >= LastEntry(r) + BLOCK
  }

  /** The script: the body of the DATA block. */
  function Script(r: Data): Data
    requires Passes(r)
  {
    r[DataStart(r)..]
  }

  /** s written over b at i. */
  function Put(b: Data, i: nat, s: Data): (r: Data)
    requires i + |s| <= |b|
    ensures |r| == |b|
  {
    b[..i] + s + b[i + |s|..]
  }

  function Swapped(r: Data, script: Data): Option<Data> {
    if !Passes(r) then None
    else
      var out := r[..DataStart(r)] + script;
      if |out| >= 0x1_0000_0000 || |out| < LastEntry(r) + BLOCK then None
      else Some(Put(Put(out, 0, Le(|out|, 4)), LastEntry(r) + 8, Le(|script|, 4)))
  }

  /** One block of the table: its kind, where its entry is, where it starts and how long it is. */
  datatype Block = Block(kind: Data, at: nat, start: nat, length: nat)

  function BlockAt(r: Data, at: nat): Block
    requires at + BLOCK <= |r|
  {
    Block(r[at..at + 4], at, at + 4 + Read(r, at + 4, 4), Read(r, at + 8, 4))
  }

  /** None stands for every way the script gives up: a failed check, a table cut short or a number too big. */
  method SwapData(r: Data, script: Data) returns (res: Option<Data>)
    ensures res == Swapped(r, script)
  {
    hide Read, Put, Le;
    if |r| < HEADER {
      return None;
    }
    if Read(r, 0, 4) != |r| {
      return None;
    }
    var table, count := 8 + Read(r, 8, 4), Read(r, 12, 4);
    var blocks: seq<Block> := [];
    for i := 0 to count
      invariant |blocks| == i
      invariant i > 0 ==> table + i * BLOCK <= |r| && blocks[i - 1] == BlockAt(r, table + (i - 1) * BLOCK)
    {
      var at := table + i * BLOCK;
      if at + BLOCK > |r| {
        assert LastEntry(r) >= at;
        return None;
      }
      blocks := blocks + [BlockAt(r, at)];
    }
    if blocks == [] {
      return None;
    }
    var last := blocks[|blocks| - 1];
    if last.kind != DATA_KIND || last.start + last.length != |r| {
      return None;
    }
    var out := r[..last.start] + script;
    if |out| >= 0x1_0000_0000 || |out| < last.at + BLOCK {
      return None;
    }
    out := Put(out, 0, Le(|out|, 4));
    out := Put(out, last.at + 8, Le(|script|, 4));
    return Some(out);
  }

  // ---------- What a swap does ----------

  /** i is in the size field or in the length of the DATA block. */
  predicate Field(r: Data, i: nat)
    requires |r| >= HEADER && Count(r) >= 1
  {
    i < 4 || LastEntry(r) + 8 <= i < LastEntry(r) + BLOCK
  }

  lemma PutAt(b: Data, i: nat, s: Data)
    requires i + |s| <= |b|
    ensures At(Put(b, i, s), i, s)
    ensures forall j | 0 <= j < |b| && !(i <= j < i + |s|) :: Put(b, i, s)[j] == b[j]
  {
    var r := Put(b, i, s);
    assert r[i..i + |s|] == s;
  }

  lemma SameRead(a: Data, b: Data, i: nat, k: nat)
    requires i + k <= |a| && i + k <= |b| && forall j | i <= j < i + k :: a[j] == b[j]
    ensures Read(a, i, k) == Read(b, i, k) && a[i..i + k] == b[i..i + k]
  {
    assert a[i..i + k] == b[i..i + k];
  }

  /**
   * A swap of a well-formed resource: its size, the two fields, and every byte before the script that is in neither.
   */
  lemma SwapShape(r: Data, script: Data)
    requires WellFormed(r) && DataStart(r) + |script| < 0x1_0000_0000
    ensures Swapped(r, script).Some?
    ensures var out := Swapped(r, script).value;
            && |out| == DataStart(r) + |script|
            && At(out, 0, Le(|out|, 4)) && At(out, LastEntry(r) + 8, Le(|script|, 4))
            && (forall i | 0 <= i < DataStart(r) && !Field(r, i) :: out[i] == r[i])
            && out[DataStart(r)..] == script
  {
    hide Put, Le, Read, Table, Count, At;
    var start, at := DataStart(r), LastEntry(r);
    var base := r[..start] + script;
    var out := Swapped(r, script).value;
    TwoPuts(base, Le(|base|, 4), at + 8, Le(|script|, 4));
    hide Swapped, LastEntry, DataStart, Passes;
    SameTail(base, out, start, script);
  }

  lemma SameTail(base: Data, out: Data, start: nat, s: Data)
    requires |out| == |base| == start + |s| && base[start..] == s
    requires forall i | start <= i < |base| :: out[i] == base[i]
    ensures out[start..] == s
  {
    assert out[start..] == base[start..];
  }

  lemma TwoPuts(b: Data, s: Data, at: nat, t: Data)
    requires |s| == 4 && |t| == 4 && 4 <= at && at + 4 <= |b|
    ensures var r := Put(Put(b, 0, s), at, t);
            && At(r, 0, s) && At(r, at, t)
            && (forall i | 0 <= i < |b| && !(i < 4 || at <= i < at + 4) :: r[i] == b[i])
  {
    var once := Put(b, 0, s);
    PutAt(b, 0, s);
    PutAt(once, at, t);
    var r := Put(once, at, t);
    hide Put;
    assert r[0..4] == s by {
      assert forall i | 0 <= i < 4 :: r[i] == once[i] == s[i];
    }
  }

  /** The result is as well-formed as what went in, has the same table and holds the script as its DATA block. */
  lemma SwapReparses(r: Data, script: Data)
    requires WellFormed(r) && DataStart(r) + |script| < 0x1_0000_0000
    ensures Swapped(r, script).Some?
    ensures var out := Swapped(r, script).value;
            && WellFormed(out)
            && Table(out) == Table(r) && Count(out) == Count(r) && DataStart(out) == DataStart(r)
            && Script(out) == script
            && (forall i | 0 <= i < DataStart(r) && !Field(r, i) :: out[i] == r[i])
  {
    hide Read, Le, At, Limit, Swapped;
    SwapShape(r, script);
    var out := Swapped(r, script).value;
    var at := LastEntry(r);
    Limits();
    ReadLe(out, 0, |out|, 4);
    ReadLe(out, at + 8, |script|, 4);
    SameRead(out, r, 8, 4);
    SameRead(out, r, 12, 4);
    SameRead(out, r, at, 4);
    SameRead(out, r, at + 4, 4);
  }

  /** Blocks before the last keep their entries, so everything else in the resource is where it was. */
  lemma OtherBlocksStay(r: Data, script: Data, k: nat)
    requires WellFormed(r) && DataStart(r) + |script| < 0x1_0000_0000 && k < Count(r) - 1
    ensures Swapped(r, script).Some?
    ensures var out := Swapped(r, script).value;
            var at := Table(r) + k * BLOCK;
            at + BLOCK <= |out| && at + BLOCK <= |r| && BlockAt(out, at) == BlockAt(r, at)
  {
    SwapShape(r, script);
    var out := Swapped(r, script).value;
    var at := Table(r) + k * BLOCK;
    assert at + BLOCK <= LastEntry(r);
    hide Le, At, Swapped;
    assert forall i | at <= i < at + BLOCK :: out[i] == r[i];
    SameRead(out, r, at, 4);
    SameRead(out, r, at + 4, 4);
    SameRead(out, r, at + 8, 4);
  }

  /** Swapping twice is swapping once with the last script. */
  lemma LastSwapWins(r: Data, first: Data, second: Data)
    requires WellFormed(r)
    requires DataStart(r) + |first| < 0x1_0000_0000 && DataStart(r) + |second| < 0x1_0000_0000
    ensures Swapped(r, first).Some? && Swapped(Swapped(r, first).value, second) == Swapped(r, second)
  {
    SwapReparses(r, first);
    var mid := Swapped(r, first).value;
    SwapShape(r, second);
    SwapShape(mid, second);
    var a, b := Swapped(mid, second).value, Swapped(r, second).value;
    hide Read, Le, Swapped, Script;
    assert |a| == |b|;
    var start, at := DataStart(r), LastEntry(r);
    forall i | 0 <= i < |a| ensures a[i] == b[i] {
      if i >= start {
        assert a[i] == a[start..][i - start] && b[i] == b[start..][i - start];
      } else if i < 4 {
        assert a[i] == a[0..4][i] && b[i] == b[0..4][i];
      } else if at + 8 <= i < at + BLOCK {
        assert a[i] == a[at + 8..at + BLOCK][i - at - 8] && b[i] == b[at + 8..at + BLOCK][i - at - 8];
      } else {
        assert !Field(r, i) && !Field(mid, i);
      }
    }
    assert a == b;
  }

  // ---------- What is refused ----------

  /** Block k of the table is all there. */
  predicate HasBlock(r: Data, k: nat)
    requires |r| >= 16
  {
    8 + Read(r, 8, 4) + k * 12 + 12 <= |r|
  }

  function BlockOf(r: Data, k: nat): Block
    requires |r| >= 16 && HasBlock(r, k)
  {
    BlockAt(r, 8 + Read(r, 8, 4) + k * 12)
  }

  /**
   * A swap is made exactly of a resource whose size field is right, whose table is all there, and whose last block is a
   * DATA block that goes to the end, when the new size fits its field and the entry of that block is before the script.
   */
  lemma SwapsIff(r: Data, script: Data)
    ensures Swapped(r, script).Some? <==>
            && |r| >= 16 && Read(r, 0, 4) == |r|
            && Read(r, 12, 4) >= 1 && (forall k | 0 <= k < Read(r, 12, 4) :: HasBlock(r, k))
            && var last := BlockOf(r, Read(r, 12, 4) - 1);
               && last.kind == [68, 65, 84, 65] && last.start + last.length == |r|
               && last.at + 12 <= last.start + |script| < 0x1_0000_0000
    ensures Swapped(r, script).Some? ==> |Swapped(r, script).value| == DataStart(r) + |script|
  {
    hide Read, Put, Le;
    if |r| >= 16 && Read(r, 12, 4) >= 1 {
      var last := Read(r, 12, 4) - 1;
      if HasBlock(r, last) {
        forall k | 0 <= k <= last ensures HasBlock(r, k) {
        }
      }
    }
  }
}
