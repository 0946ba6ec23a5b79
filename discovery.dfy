/** Source discovery of the Rust sharder: keep the directory entries whose
    extension is `safetensors`, sort them by path, and refuse an empty list. */
module Discovery {
  import opened Wrappers
  import opened TensorIo
  import opened Seqs

  /** A directory entry: a file with its name and contents (its parsed
      header, `None` when it is not safetensors), or an entry that could
      not be read (`entry.ok()?` drops it). */
  datatype DirEntry = Entry(name: string, header: Option<Header>) | Unreadable

  datatype DiscoveryError = NoSafetensorsFiles

  /** The position of the last '.' in `s`. */
  function LastDot(s: string): (r: Option<nat>)
    ensures r.Some? ==> r.value < |s| && s[r.value] == '.'
    ensures r.Some? ==> forall j :: r.value < j < |s| ==> s[j] != '.'
    ensures r.None? ==> forall j :: 0 <= j < |s| ==> s[j] != '.'
  {
    if s == [] then None
    else if s[|s| - 1] == '.' then Some(|s| - 1)
    else LastDot(s[..|s| - 1])
  }

  /** `Path::extension` of a file name: what follows the last '.', unless
      there is no '.', or the only '.' starts the name, or the name is "..". */
  function Extension(fileName: string): Option<string> {
    if fileName == ".." then None
    else
      match LastDot(fileName)
      case None => None
      case Some(i) => if i == 0 then None else Some(fileName[i + 1..])
  }

  const Suffix: string := ".safetensors"

  /** A name is kept exactly when it is something non-empty followed by
      ".safetensors": "a.safetensors" is kept, ".safetensors" and
      "a.safetensors.bak" are not. */
  lemma ExtensionIsSafetensors(name: string)
    ensures Extension(name) == Some("safetensors") <==>
      |name| > |Suffix| && name[|name| - |Suffix|..] == Suffix
  {
    if Extension(name) == Some("safetensors") {
      ExtensionGivesSuffix(name);
    }
    if |name| > |Suffix| && name[|name| - |Suffix|..] == Suffix {
      SuffixGivesExtension(name);
    }
  }

  lemma ExtensionGivesSuffix(name: string)
    requires Extension(name) == Some("safetensors")
    ensures |name| > |Suffix| && name[|name| - |Suffix|..] == Suffix
  {
    var i := LastDot(name).value;
    assert i != 0 && Extension(name) == Some(name[i + 1..]);
    assert name[i + 1..] == "safetensors";
    assert |name| == i + 12;
    var d := |name| - |Suffix|;
    assert d == i && name[d] == '.';
    assert Suffix == ['.'] + "safetensors";
    assert name[d..] == [name[d]] + name[d + 1..];
  }

  lemma SuffixGivesExtension(name: string)
    requires |name| > |Suffix| && name[|name| - |Suffix|..] == Suffix
    ensures Extension(name) == Some("safetensors")
  {
    var d := |name| - |Suffix|;
    assert Suffix == ['.'] + "safetensors";
    assert name[d] == '.';
    forall j | d < j < |name| ensures name[j] != '.' {
      assert name[j] == Suffix[j - d];
    }
    LastDotIs(name, d);
    assert name != ".." by {
      assert |name| > 2;
    }
    assert name[d + 1..] == "safetensors";
  }

  lemma {:induction false} LastDotIs(s: string, i: nat)
    requires i < |s| && s[i] == '.'
    requires forall j :: i < j < |s| ==> s[j] != '.'
    ensures LastDot(s) == Some(i)
  {
    if i < |s| - 1 {
      LastDotIs(s[..|s| - 1], i);
    }
  }

  /** The kept entries, in directory order. */
  function KeepSafetensors(entries: seq<DirEntry>): (r: seq<SourceFile>)
    ensures forall i :: 0 <= i < |r| ==> Extension(r[i].path) == Some("safetensors")
    ensures forall i :: 0 <= i < |r| ==> Entry(r[i].path, r[i].header) in entries
  {
    if entries == [] then []
    else
      var init := KeepSafetensors(entries[..|entries| - 1]);
      var e := entries[|entries| - 1];
      if e.Entry? && Extension(e.name) == Some("safetensors") then init + [SourceFile(e.name, e.header)] else init
  }

  /** The filter is exact: a file is kept once for every readable entry
      with the `safetensors` extension that names it, and never otherwise. */
  lemma KeepCount(entries: seq<DirEntry>, f: SourceFile)
    ensures multiset(KeepSafetensors(entries))[f] ==
      if Extension(f.path) == Some("safetensors") then multiset(entries)[Entry(f.path, f.header)] else 0
  {
    KeepCounted(entries, f);
    CountMultiplicity(KeepSafetensors(entries), f);
    CountMultiplicity(entries, Entry(f.path, f.header));
  }

  lemma {:induction false} KeepCounted(entries: seq<DirEntry>, f: SourceFile)
    ensures Count(KeepSafetensors(entries), f) ==
      if Extension(f.path) == Some("safetensors") then Count(entries, Entry(f.path, f.header)) else 0
  {
    if entries != [] {
      var n := |entries| - 1;
      var e := entries[n];
      KeepCounted(entries[..n], f);
      var kept := KeepSafetensors(entries[..n]);
      if e.Entry? && Extension(e.name) == Some("safetensors") {
        var x := SourceFile(e.name, e.header);
        assert KeepSafetensors(entries) == kept + [x];
        assert (kept + [x])[..|kept|] == kept;
        assert x == f <==> e == Entry(f.path, f.header);
      } else {
        assert KeepSafetensors(entries) == kept;
        assert !(Extension(f.path) == Some("safetensors") && e == Entry(f.path, f.header));
      }
    }
  }

  /** Every readable entry with the extension is kept. */
  lemma KeepsEach(entries: seq<DirEntry>, i: nat)
    requires i < |entries| && entries[i].Entry? && Extension(entries[i].name) == Some("safetensors")
    ensures SourceFile(entries[i].name, entries[i].header) in KeepSafetensors(entries)
  {
    KeepCount(entries, SourceFile(entries[i].name, entries[i].header));
    assert entries[i] in multiset(entries);
  }

  // -----------------------------------------------------------------------
  // Path order
  // -----------------------------------------------------------------------

  /** Byte-wise (code point) order of file names, which is how paths in the
      same directory compare. */
  predicate NameLe(a: string, b: string)
    decreases |a|
  {
    a == [] || (b != [] && (a[0] < b[0] || (a[0] == b[0] && NameLe(a[1..], b[1..]))))
  }

  lemma {:induction false} NameLeTotal(a: string, b: string)
    ensures NameLe(a, b) || NameLe(b, a)
    decreases |a|
  {
    if a != [] && b != [] && a[0] == b[0] {
      NameLeTotal(a[1..], b[1..]);
    }
  }

  lemma {:induction false} NameLeTransitive(a: string, b: string, c: string)
    requires NameLe(a, b) && NameLe(b, c)
    ensures NameLe(a, c)
    decreases |a|
  {
    if a != [] && b != [] && c != [] && a[0] == b[0] == c[0] {
      NameLeTransitive(a[1..], b[1..], c[1..]);
    }
  }

  predicate SortedByPath(s: seq<SourceFile>) {
    forall i, j :: 0 <= i < j < |s| ==> NameLe(s[i].path, s[j].path)
  }

  function Insert(x: SourceFile, s: seq<SourceFile>): (r: seq<SourceFile>)
    ensures multiset(r) == multiset(s) + multiset{x}
    ensures |r| == |s| + 1
  {
    if s == [] then [x]
    else if NameLe(x.path, s[0].path) then [x] + s
    else
      assert s == [s[0]] + s[1..];
      [s[0]] + Insert(x, s[1..])
  }

  lemma {:induction false} InsertSorted(x: SourceFile, s: seq<SourceFile>)
    requires SortedByPath(s)
    ensures SortedByPath(Insert(x, s))
  {
    if s != [] && !NameLe(x.path, s[0].path) {
      InsertSorted(x, s[1..]);
      NameLeTotal(x.path, s[0].path);
      var r := Insert(x, s);
      var tail := Insert(x, s[1..]);
      assert r == [s[0]] + tail;
      forall j | 0 <= j < |tail| ensures NameLe(s[0].path, tail[j].path) {
        assert tail[j] in multiset(tail);
        assert tail[j] == x || tail[j] in multiset(s[1..]);
        if tail[j] != x {
          var m :| 0 <= m < |s[1..]| && s[1..][m] == tail[j];
          assert s[m + 1] == tail[j];
        }
      }
    } else if s != [] {
      var r := [x] + s;
      forall i, j | 0 <= i < j < |r| ensures NameLe(r[i].path, r[j].path) {
        if i == 0 && j > 1 {
          NameLeTransitive(x.path, s[0].path, s[j - 1].path);
        }
      }
    }
  }

  /** `Vec::sort` on the paths. */
  function SortByPath(s: seq<SourceFile>): (r: seq<SourceFile>)
    ensures multiset(r) == multiset(s) && |r| == |s|
  {
    if s == [] then []
    else
      assert s == s[..|s| - 1] + [s[|s| - 1]];
      Insert(s[|s| - 1], SortByPath(s[..|s| - 1]))
  }

  lemma {:induction false} SortByPathSorted(s: seq<SourceFile>)
    ensures SortedByPath(SortByPath(s))
  {
    if s != [] {
      SortByPathSorted(s[..|s| - 1]);
      InsertSorted(s[|s| - 1], SortByPath(s[..|s| - 1]));
    }
  }

  /** The discovery step of `run`: the safetensors entries in path order,
      or an error when there are none. */
  function Discover(entries: seq<DirEntry>): Result<seq<SourceFile>, DiscoveryError> {
    var kept := SortByPath(KeepSafetensors(entries));
    if kept == [] then Err(NoSafetensorsFiles) else Ok(kept)
  }

  /** Discovery keeps exactly the readable entries with extension
      `safetensors`, sorted by path, and fails only when there are none. */
  lemma DiscoverMeaning(entries: seq<DirEntry>)
    ensures Discover(entries).Err? <==>
      forall i :: 0 <= i < |entries| ==> !(entries[i].Entry? && Extension(entries[i].name) == Some("safetensors"))
    ensures Discover(entries).Ok? ==> SortedByPath(Discover(entries).value)
    ensures Discover(entries).Ok? ==> multiset(Discover(entries).value) == multiset(KeepSafetensors(entries))
    ensures forall f :: Discover(entries).Ok? ==>
      (multiset(Discover(entries).value)[f] ==
       if Extension(f.path) == Some("safetensors") then multiset(entries)[Entry(f.path, f.header)] else 0)
  {
    forall f ensures multiset(KeepSafetensors(entries))[f] ==
      if Extension(f.path) == Some("safetensors") then multiset(entries)[Entry(f.path, f.header)] else 0
    {
      KeepCount(entries, f);
    }
    SortByPathSorted(KeepSafetensors(entries));
    KeepAll(entries);
  }

  lemma {:induction false} KeepAll(entries: seq<DirEntry>)
    ensures KeepSafetensors(entries) == [] <==>
      forall i :: 0 <= i < |entries| ==> !(entries[i].Entry? && Extension(entries[i].name) == Some("safetensors"))
  {
    if entries != [] {
      KeepAll(entries[..|entries| - 1]);
      var n := |entries| - 1;
      assert forall i :: 0 <= i < n ==> entries[..n][i] == entries[i];
    }
  }
}
