/**
 * `utils.get_folder_size`: sums the sizes of the regular (non-symlink) files that
 * `os.walk` finds under a directory, then picks the first binary unit among
 * B, KB, MB, GB, TB at which the value, divided by 1024 once per unit, drops below 1024,
 * falling back to PB.
 */
module FolderSize {
  import opened Wrappers

  /** One name listed by `os.walk`, with what `os.path.islink` and `os.path.getsize`
      report for it. */
  datatype FileEntry = FileEntry(name: string, isLink: bool, bytes: nat)

  /** One `(dirpath, dirnames, filenames)` triple of `os.walk`. */
  datatype WalkDir = WalkDir(dirpath: string, files: seq<FileEntry>)

  datatype Unit = B | KB | MB | GB | TB | PB

  /** The value and unit of the size text (the value is printed with one decimal). */
  datatype SizeText = SizeText(value: real, unit: Unit)

  /** The units the loop tries, in order; PB is the fallback after them. */
  const LoopUnits: seq<Unit> := [B, KB, MB, GB, TB]

  function UnitAt(k: nat): Unit
    requires k <= 5
  {
    if k < 5 then LoopUnits[k] else PB
  }

  function Pow1024(k: nat): (p: nat)
    ensures p >= 1
  {
    if k == 0 then 1 else 1024 * Pow1024(k - 1)
  }

  /** The first size in unit `k` that no longer displays below 1024 of that unit. */
  function Limit(k: nat): nat
  {
    1024 * Pow1024(k)
  }

  /** Bytes of the regular files in one directory listing. */
  function DirBytes(files: seq<FileEntry>): nat
  {
    if files == [] then 0
    else DirBytes(files[..|files| - 1]) + (if files[|files| - 1].isLink then 0 else files[|files| - 1].bytes)
  }

  /** Bytes of the regular files in a whole walk. */
  function TreeBytes(tree: seq<WalkDir>): nat
  {
    if tree == [] then 0 else TreeBytes(tree[..|tree| - 1]) + DirBytes(tree[|tree| - 1].files)
  }

  lemma {:induction false} DirBytesAppend(a: seq<FileEntry>, b: seq<FileEntry>)
    ensures DirBytes(a + b) == DirBytes(a) + DirBytes(b)
    decreases |b|
  {
    if b != [] {
      assert (a + b)[..|a + b| - 1] == a + b[..|b| - 1];
      DirBytesAppend(a, b[..|b| - 1]);
    } else {
      assert a + b == a;
    }
  }

  /** What a symbolic link reports as its size never reaches the total. */
  lemma {:induction false} LinkSizesIgnored(files: seq<FileEntry>, i: nat, bytes: nat)
    requires i < |files| && files[i].isLink
    ensures DirBytes(files[i := files[i].(bytes := bytes)]) == DirBytes(files)
  {
    var changed := files[i := files[i].(bytes := bytes)];
    assert files == files[..i] + [files[i]] + files[i + 1..];
    assert changed == files[..i] + [changed[i]] + files[i + 1..];
    DirBytesAppend(files[..i] + [files[i]], files[i + 1..]);
    DirBytesAppend(files[..i] + [changed[i]], files[i + 1..]);
    DirBytesAppend(files[..i], [files[i]]);
    DirBytesAppend(files[..i], [changed[i]]);
    assert DirBytes([files[i]]) == 0 by { assert [files[i]][..0] == []; }
    assert DirBytes([changed[i]]) == 0 by { assert [changed[i]][..0] == []; }
  }

  /** The nested `os.walk` loops of `get_folder_size`. */
  method SumRegularFiles(tree: seq<WalkDir>) returns (total: nat)
    ensures total == TreeBytes(tree)
  {
    total := 0;
    var i := 0;
    while i < |tree|
      invariant 0 <= i <= |tree|
      invariant total == TreeBytes(tree[..i])
    {
      var files := tree[i].files;
      var j := 0;
      while j < |files|
        invariant 0 <= j <= |files|
        invariant total == TreeBytes(tree[..i]) + DirBytes(files[..j])
      {
        if !files[j].isLink {
          total := total + files[j].bytes;
        }
        assert files[..j + 1][..j] == files[..j];
        j := j + 1;
      }
      assert files[..j] == files;
      assert tree[..i + 1][..i] == tree[..i];
      i := i + 1;
    }
    assert tree[..i] == tree;
  }

  /** The index of the unit `get_folder_size` chooses for `n` bytes: the first unit
      below PB whose limit `n` stays under, or PB (index 5). */
  function UnitIndex(n: nat): (k: nat)
    ensures k <= 5
    ensures k < 5 ==> n < Limit(k)
    ensures forall j :: 0 <= j < k ==> n >= Limit(j)
  {
    UnitIndexFrom(n, 0)
  }

  function UnitIndexFrom(n: nat, k: nat): (u: nat)
    requires k <= 5
    requires forall j :: 0 <= j < k ==> n >= Limit(j)
    ensures k <= u <= 5
    ensures u < 5 ==> n < Limit(u)
    ensures forall j :: 0 <= j < u ==> n >= Limit(j)
    decreases 5 - k
  {
    if k == 5 || n < Limit(k) then k else UnitIndexFrom(n, k + 1)
  }

  /** The unit is determined by the "first unit under its limit" rule alone. */
  lemma UnitIndexUnique(n: nat, k: nat)
    requires k <= 5
    requires k < 5 ==> n < Limit(k)
    requires forall j :: 0 <= j < k ==> n >= Limit(j)
    ensures k == UnitIndex(n)
  {
    var u := UnitIndex(n);
    assert k < u ==> n >= Limit(k);
    var lu := Limit(u);
    assert u < k ==> n >= lu;
  }

  /** The size text for `n` bytes, with the value exact (no floating-point rounding):
      the value in the chosen unit, times that unit's size, is `n` again. */
  function FormatSize(n: nat): (r: SizeText)
    ensures r.unit == UnitAt(UnitIndex(n))
    ensures r.value * Pow1024(UnitIndex(n)) as real == n as real
    ensures r.value >= 0.0
  {
    var k := UnitIndex(n);
    SizeText(n as real / Pow1024(k) as real, UnitAt(k))
  }

  /** What `get_folder_size` returns for a path: `None` is a path that does not exist,
      shown like a folder of 0 bytes. */
  function FolderSizeText(tree: Option<seq<WalkDir>>): (r: SizeText)
    ensures r == FormatSize(if tree.None? then 0 else TreeBytes(tree.value))
  {
    match tree
    case None => SizeText(0.0, B)
    case Some(t) => FormatSize(TreeBytes(t))
  }

  lemma DivBelow(n: real, p: real)
    requires p > 0.0 && n >= 0.0
    ensures n / p < 1024.0 <==> n < 1024.0 * p
  {
    var q := n / p;
    assert n == q * p;
  }

  lemma DivDiv(n: real, p: real)
    requires p > 0.0
    ensures (n / p) / 1024.0 == n / (1024.0 * p)
  {
  }

  /** The unit loop of `get_folder_size`: divide by 1024 until the value is below 1024. */
  method SelectUnit(n: nat) returns (r: SizeText)
    ensures r == FormatSize(n)
  {
    var size: real := n as real;
    var i := 0;
    while i < |LoopUnits|
      invariant 0 <= i <= 5
      invariant size == n as real / Pow1024(i) as real
      invariant forall j :: 0 <= j < i ==> n >= Limit(j)
    {
      DivBelow(n as real, Pow1024(i) as real);
      if size < 1024.0 {
        UnitIndexUnique(n, i);
        return SizeText(size, LoopUnits[i]);
      }
      assert n >= Limit(i);
      DivDiv(n as real, Pow1024(i) as real);
      size := size / 1024.0;
      i := i + 1;
    }
    UnitIndexUnique(n, 5);
    r := SizeText(size, PB);
  }

  method GetFolderSize(tree: Option<seq<WalkDir>>) returns (r: SizeText)
    ensures r == FolderSizeText(tree)
  {
    if tree.None? {
      return SizeText(0.0, B);
    }
    var total := SumRegularFiles(tree.value);
    r := SelectUnit(total);
  }

  /** Below PB the value before `:3.1f` rounding is under 1024 of its unit (rounding
      itself can still print `1024.0`); PB is chosen exactly from 1024^5 bytes on, and an
      existing empty directory reads like a missing one. */
  lemma FormatSizeBounds(n: nat)
    ensures FormatSize(n).unit != PB ==> FormatSize(n).value < 1024.0
    ensures FormatSize(n).unit == PB <==> n >= Pow1024(5)
    ensures FormatSize(n).value >= 0.0
    ensures FolderSizeText(Some([])) == FolderSizeText(None)
  {
    var k := UnitIndex(n);
    DivBelow(n as real, Pow1024(k) as real);
    assert Limit(4) == Pow1024(5);
    if k < 5 {
      assert Limit(k) as real == 1024.0 * Pow1024(k) as real;
    }
    assert FormatSize(0) == SizeText(0.0, B);
  }

  lemma FormatSizeExamples()
    ensures FormatSize(0) == SizeText(0.0, B)
    ensures FormatSize(1023) == SizeText(1023.0, B)
    ensures FormatSize(1536) == SizeText(1.5, KB)
    ensures FormatSize(1073741824) == SizeText(1.0, GB)
  {
  }
}
