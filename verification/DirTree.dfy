/** Directory trees as readdir shows them, and the recursive count a walk must report. */
module DirTree {
  import opened Base

  datatype Mode = ModeDir | ModeRegular | ModeIrregular

  /** One directory entry. `dtype` is None for DT_UNKNOWN; `info` is what an Lstat gives
      (None when it fails); `below` is what reading the entry as a directory lists. */
  datatype DirEntry = DirEntry(dtype: Option<Mode>, info: Option<Mode>, below: seq<DirEntry>)

  type Listing = seq<DirEntry>

  datatype Kind = KindOther | KindFile | KindDir

  function KindOf(m: Mode): Kind
  {
    match m
    case ModeDir => KindDir
    case ModeRegular => KindFile
    case ModeIrregular => KindOther
  }

  /** The d_type decides; only an unknown d_type falls back to Lstat, and a failed Lstat is "other". */
  function Classify(de: DirEntry): Kind
  {
    match de.dtype
    case Some(m) => KindOf(m)
    case None =>
      match de.info
      case None => KindOther
      case Some(m) => KindOf(m)
  }

  function Own(k: Kind, de: DirEntry): nat
  {
    if Classify(de) == k then 1 else 0
  }

  /** How many entries of kind `k` are in `l[i..]` or anywhere below it. */
  function CountFrom(k: Kind, l: Listing, i: nat): nat
    decreases l, |l| - i
  {
    if i >= |l| then 0
    else Own(k, l[i]) + Inside(k, l[i]) + CountFrom(k, l, i + 1)
  }

  /** How many entries of kind `k` are strictly below `de`; only directories are descended into. */
  function Inside(k: Kind, de: DirEntry): nat
    decreases de
  {
    if Classify(de) == KindDir then CountFrom(k, de.below, 0) else 0
  }

  /** The recursive count of the tree under `l`; the root itself is not counted. */
  function Count(k: Kind, l: Listing): nat
  {
    CountFrom(k, l, 0)
  }

  datatype Tally = Tally(files: nat, dirs: nat, other: nat) {
    function Get(k: Kind): nat
    {
      match k
      case KindFile => files
      case KindDir => dirs
      case KindOther => other
    }

    function Bump(k: Kind): Tally
    {
      match k
      case KindFile => Tally(files + 1, dirs, other)
      case KindDir => Tally(files, dirs + 1, other)
      case KindOther => Tally(files, dirs, other + 1)
    }

    function Plus(t: Tally): Tally
    {
      Tally(files + t.files, dirs + t.dirs, other + t.other)
    }
  }

  const ZERO := Tally(0, 0, 0)

  function TallyFrom(l: Listing, i: nat): Tally
  {
    Tally(CountFrom(KindFile, l, i), CountFrom(KindDir, l, i), CountFrom(KindOther, l, i))
  }
}
