/**
 * The library scanner (`App::scan_music_files`): keep the walked entries
 * whose extension, lower-cased, is a known audio format, then sort them by
 * display name with a stable sort.
 *
 * The directory walk itself is an input: the sequence of entries it yields,
 * in walk order. Walk errors are dropped before the loop sees them, so the
 * scan has no error path.
 */
module Library {
  import opened Text

  /** The extension of a walked path: absent, not valid UTF-8, or its text. */
  datatype Extension = NoExtension | NotUtf8 | Utf8(text: string)

  /** One entry yielded by the walk: full path, displayable file name, extension. */
  datatype Entry = Entry(path: string, fileName: string, ext: Extension)

  /** A track of the library: where it is and the name it is listed under. */
  datatype MusicFile = MusicFile(path: string, name: string)

  const MusicExtensions: seq<string> := ["mp3", "wav", "flac", "ogg", "m4a", "aac"]

  /**
   * The extension test of the walk loop: a UTF-8 extension whose lower-case
   * form is one of the six formats. Every accepted extension has three or
   * four letters, and the six formats written in lower case are accepted.
   */
  predicate IsMusicExtension(ext: Extension)
    ensures IsMusicExtension(ext) ==> ext.Utf8? && 3 <= |ext.text| <= 4
    ensures ext.Utf8? && ext.text in MusicExtensions ==> IsMusicExtension(ext)
  {
    match ext
    case Utf8(text) => LowerFixesLowerCase(text); Lower(text) in MusicExtensions
    case _ => false
  }

  function ToMusicFile(e: Entry): MusicFile
  {
    MusicFile(e.path, e.fileName)
  }

  /** Every entry as a track, in walk order. */
  function Map(walk: seq<Entry>): (r: seq<MusicFile>)
    ensures |r| == |walk| && forall i :: 0 <= i < |walk| ==> r[i] == ToMusicFile(walk[i])
  {
    seq(|walk|, i requires 0 <= i < |walk| => ToMusicFile(walk[i]))
  }

  /** The tracks the walk loop pushes, in walk order. */
  function Kept(walk: seq<Entry>): (r: seq<MusicFile>)
    ensures |r| <= |walk|
  {
    if walk == [] then []
    else
      var last := walk[|walk| - 1];
      Kept(walk[..|walk| - 1]) + (if IsMusicExtension(last.ext) then [ToMusicFile(last)] else [])
  }

  /**
   * A walk whose every entry has a music extension keeps them all, as tracks
   * in walk order; a walk with none keeps nothing.
   */
  lemma {:induction false} KeptAllOrNone(walk: seq<Entry>)
    ensures (forall i :: 0 <= i < |walk| ==> IsMusicExtension(walk[i].ext)) ==> Kept(walk) == Map(walk)
    ensures (forall i :: 0 <= i < |walk| ==> !IsMusicExtension(walk[i].ext)) ==> Kept(walk) == []
  {
    if walk != [] {
      var init := walk[..|walk| - 1];
      KeptAllOrNone(init);
      assert forall i :: 0 <= i < |init| ==> init[i] == walk[i];
      assert Map(walk) == Map(init) + [ToMusicFile(walk[|walk| - 1])];
    }
  }

  /** A track is kept exactly when some walked entry with a music extension produced it. */
  lemma {:induction false} KeptMembers(walk: seq<Entry>, f: MusicFile)
    ensures f in Kept(walk) <==>
            exists i :: 0 <= i < |walk| && IsMusicExtension(walk[i].ext) && ToMusicFile(walk[i]) == f
  {
    if walk != [] {
      var init := walk[..|walk| - 1];
      KeptMembers(init, f);
      if f in Kept(init) {
        var i :| 0 <= i < |init| && IsMusicExtension(init[i].ext) && ToMusicFile(init[i]) == f;
        assert walk[i] == init[i];
      }
      if exists i :: 0 <= i < |walk| && IsMusicExtension(walk[i].ext) && ToMusicFile(walk[i]) == f {
        var i :| 0 <= i < |walk| && IsMusicExtension(walk[i].ext) && ToMusicFile(walk[i]) == f;
        if i < |init| {
          assert init[i] == walk[i];
        }
      }
    }
  }

  predicate SortedByName(fs: seq<MusicFile>)
  {
    forall i, j :: 0 <= i < j < |fs| ==> NameLe(fs[i].name, fs[j].name)
  }

  /** Places `f` before the first track whose name is not smaller than its own. */
  function InsertByName(f: MusicFile, fs: seq<MusicFile>): (r: seq<MusicFile>)
    ensures |r| == |fs| + 1
  {
    if fs == [] || NameLe(f.name, fs[0].name) then [f] + fs
    else [fs[0]] + InsertByName(f, fs[1..])
  }

  /** `sort_by(|a, b| a.name.cmp(&b.name))`: a stable sort by display name. */
  function SortByName(fs: seq<MusicFile>): (r: seq<MusicFile>)
    ensures |r| == |fs|
  {
    if fs == [] then [] else InsertByName(fs[0], SortByName(fs[1..]))
  }

  /** The tracks among `fs` listed under `name`, in their order in `fs`. */
  function Named(fs: seq<MusicFile>, name: string): seq<MusicFile>
  {
    if fs == [] then []
    else (if fs[0].name == name then [fs[0]] else []) + Named(fs[1..], name)
  }

  lemma {:induction false} InsertPermutes(f: MusicFile, fs: seq<MusicFile>)
    ensures multiset(InsertByName(f, fs)) == multiset(fs) + multiset{f}
  {
    if fs != [] && !NameLe(f.name, fs[0].name) {
      InsertPermutes(f, fs[1..]);
      assert fs == [fs[0]] + fs[1..];
    }
  }

  lemma {:induction false} InsertSorted(f: MusicFile, fs: seq<MusicFile>)
    requires SortedByName(fs)
    ensures SortedByName(InsertByName(f, fs))
  {
    var r := InsertByName(f, fs);
    if fs == [] {
    } else if NameLe(f.name, fs[0].name) {
      forall j | 0 < j < |r| ensures NameLe(f.name, r[j].name) {
        if j > 1 {
          NameLeTransitive(f.name, fs[0].name, fs[j - 1].name);
        }
      }
    } else {
      var rest := InsertByName(f, fs[1..]);
      InsertSorted(f, fs[1..]);
      InsertPermutes(f, fs[1..]);
      NameLeTotal(f.name, fs[0].name);
      forall j | 0 <= j < |rest| ensures NameLe(fs[0].name, rest[j].name) {
        assert rest[j] in multiset(rest);
        if rest[j] != f {
          var k :| 1 <= k < |fs| && fs[k] == rest[j];
        }
      }
    }
  }

  lemma {:induction false} InsertKeepsNamedOrder(f: MusicFile, fs: seq<MusicFile>, name: string)
    ensures Named(InsertByName(f, fs), name) == Named([f] + fs, name)
  {
    if fs != [] && !NameLe(f.name, fs[0].name) {
      InsertKeepsNamedOrder(f, fs[1..], name);
      NameLeReflexive(f.name);
      assert ([f] + fs)[1..] == fs;
      assert ([fs[0]] + InsertByName(f, fs[1..]))[1..] == InsertByName(f, fs[1..]);
      assert ([f] + fs[1..])[1..] == fs[1..];
    }
  }

  /** The sort yields the input's tracks, each as often as in the input. */
  lemma {:induction false} SortByNamePermutes(fs: seq<MusicFile>)
    ensures multiset(SortByName(fs)) == multiset(fs)
  {
    if fs != [] {
      SortByNamePermutes(fs[1..]);
      InsertPermutes(fs[0], SortByName(fs[1..]));
      assert fs == [fs[0]] + fs[1..];
    }
  }

  /** The sort yields a list ordered by name. */
  lemma {:induction false} SortByNameSorted(fs: seq<MusicFile>)
    ensures SortedByName(SortByName(fs))
  {
    if fs != [] {
      SortByNameSorted(fs[1..]);
      InsertSorted(fs[0], SortByName(fs[1..]));
    }
  }

  /** Stability: tracks with equal names keep the order they had in the input. */
  lemma {:induction false} SortByNameStable(fs: seq<MusicFile>, name: string)
    ensures Named(SortByName(fs), name) == Named(fs, name)
  {
    if fs != [] {
      SortByNameStable(fs[1..], name);
      InsertKeepsNamedOrder(fs[0], SortByName(fs[1..]), name);
      assert ([fs[0]] + SortByName(fs[1..]))[1..] == SortByName(fs[1..]);
    }
  }

  lemma {:induction false} NamedMembers(fs: seq<MusicFile>, name: string, x: MusicFile)
    requires x in Named(fs, name)
    ensures x in fs && x.name == name
  {
    if fs != [] && x !in (if fs[0].name == name then [fs[0]] else []) {
      NamedMembers(fs[1..], name, x);
    }
  }

  lemma NamedHoldsHead(fs: seq<MusicFile>)
    ensures fs != [] ==> fs[0] in Named(fs, fs[0].name)
  {
  }

  /** Two name-sorted lists that agree name by name start with the same track. */
  lemma SortedNamesakesSameHead(a: seq<MusicFile>, b: seq<MusicFile>)
    requires SortedByName(a) && SortedByName(b) && a != [] && b != []
    requires forall name :: Named(a, name) == Named(b, name)
    ensures a[0] == b[0]
  {
    var n, m := a[0].name, b[0].name;
    NamedHoldsHead(a);
    NamedHoldsHead(b);
    assert b[0] in Named(a, m);
    NamedMembers(a, m, b[0]);
    assert NameLe(n, m) by {
      var k :| 0 <= k < |a| && a[k] == b[0];
      if k == 0 { NameLeReflexive(n); }
    }
    assert a[0] in Named(b, n);
    NamedMembers(b, n, a[0]);
    assert NameLe(m, n) by {
      var k :| 0 <= k < |b| && b[k] == a[0];
      if k == 0 { NameLeReflexive(m); }
    }
    NameLeAntisymmetric(n, m);
    assert Named(a, n)[0] == a[0] && Named(b, n)[0] == b[0];
  }

  /** Lists with the same first track that agree name by name also agree after it. */
  lemma NamedTailsAgree(a: seq<MusicFile>, b: seq<MusicFile>, name: string)
    requires a != [] && b != [] && a[0] == b[0]
    requires Named(a, name) == Named(b, name)
    ensures Named(a[1..], name) == Named(b[1..], name)
  {
    var head: seq<MusicFile> := if a[0].name == name then [a[0]] else [];
    assert Named(a, name) == head + Named(a[1..], name);
    assert Named(b, name) == head + Named(b[1..], name);
    assert Named(a[1..], name) == Named(a, name)[|head|..];
    assert Named(b[1..], name) == Named(b, name)[|head|..];
  }

  /**
   * Two name-sorted lists that agree, name by name, on which tracks they
   * hold and in what order, are the same list.
   */
  lemma {:induction false} SortedNamesakesDetermine(a: seq<MusicFile>, b: seq<MusicFile>)
    requires SortedByName(a) && SortedByName(b)
    requires forall name :: Named(a, name) == Named(b, name)
    ensures a == b
    decreases |a|
  {
    NamedHoldsHead(a);
    NamedHoldsHead(b);
    if a != [] && b != [] {
      SortedNamesakesSameHead(a, b);
      forall name ensures Named(a[1..], name) == Named(b[1..], name) {
        NamedTailsAgree(a, b, name);
      }
      SortedNamesakesDetermine(a[1..], b[1..]);
      assert a == [a[0]] + a[1..] && b == [b[0]] + b[1..];
    }
  }

  /**
   * `SortByName` is the stable sort by name: any name-sorted list that keeps
   * the input's order among equal names is its result.
   */
  lemma StableSortUnique(fs: seq<MusicFile>, r: seq<MusicFile>)
    requires SortedByName(r)
    requires forall name :: Named(r, name) == Named(fs, name)
    ensures r == SortByName(fs)
  {
    SortByNameSorted(fs);
    forall name ensures Named(r, name) == Named(SortByName(fs), name) {
      SortByNameStable(fs, name);
    }
    SortedNamesakesDetermine(r, SortByName(fs));
  }

  /** The library a walk produces. */
  function Scan(walk: seq<Entry>): (r: seq<MusicFile>)
    ensures SortedByName(r)
    ensures |r| == |Kept(walk)|
  {
    SortByNameSorted(Kept(walk));
    SortByName(Kept(walk))
  }

  /** Sorting a list already sorted by name leaves it as it is; so sorting twice is sorting once. */
  lemma SortByNameIdempotent(fs: seq<MusicFile>)
    ensures SortedByName(fs) ==> SortByName(fs) == fs
    ensures SortByName(SortByName(fs)) == SortByName(fs)
  {
    if SortedByName(fs) {
      StableSortUnique(fs, fs);
    }
    SortByNameSorted(fs);
    StableSortUnique(SortByName(fs), SortByName(fs));
  }

  /**
   * The scan: the walk loop pushes every entry with a music extension, then
   * the vector is sorted by name.
   */
  method ScanMusicFiles(walk: seq<Entry>) returns (files: seq<MusicFile>)
    ensures files == Scan(walk)
    ensures SortedByName(files)
    ensures multiset(files) == multiset(Kept(walk))
    ensures forall name :: Named(files, name) == Named(Kept(walk), name)
  {
    files := [];
    for i := 0 to |walk|
      invariant files == Kept(walk[..i])
    {
      var entry := walk[i];
      assert walk[..i + 1][..i] == walk[..i];
      if entry.ext.Utf8? {
        if Lower(entry.ext.text) in MusicExtensions {
          files := files + [MusicFile(entry.path, entry.fileName)];
        }
      }
    }
    assert walk[..|walk|] == walk;
    files := SortByName(files);
    SortByNameSorted(Kept(walk));
    SortByNamePermutes(Kept(walk));
    forall name ensures Named(files, name) == Named(Kept(walk), name) {
      SortByNameStable(Kept(walk), name);
    }
  }

  /** A track is in the library exactly when a walked music entry produced it. */
  lemma ScanMembers(walk: seq<Entry>, f: MusicFile)
    ensures f in Scan(walk) <==>
            exists i :: 0 <= i < |walk| && IsMusicExtension(walk[i].ext) && ToMusicFile(walk[i]) == f
  {
    SortByNamePermutes(Kept(walk));
    assert f in Scan(walk) <==> f in multiset(Scan(walk));
    KeptMembers(walk, f);
  }

  /**
   * Upper-case extensions are accepted; no extension, a non-UTF-8 one, another
   * format and the empty extension of a name ending in a dot are not.
   */
  lemma ExtensionCases()
    ensures IsMusicExtension(Utf8("MP3")) && IsMusicExtension(Utf8("Flac"))
    ensures !IsMusicExtension(NoExtension) && !IsMusicExtension(NotUtf8)
    ensures !IsMusicExtension(Utf8("txt")) && !IsMusicExtension(Utf8(""))
  {
    assert Lower("MP3") == "mp3";
    assert Lower("Flac") == "flac";
    assert Lower("txt") == "txt";
  }

  /** A walk over b.mp3, a.wav and c.txt yields a.wav then b.mp3. */
  lemma ScanExample()
    ensures Scan([Entry("m/b.mp3", "b.mp3", Utf8("mp3")),
                  Entry("m/a.wav", "a.wav", Utf8("wav")),
                  Entry("m/c.txt", "c.txt", Utf8("txt"))])
         == [MusicFile("m/a.wav", "a.wav"), MusicFile("m/b.mp3", "b.mp3")]
  {
    var b := Entry("m/b.mp3", "b.mp3", Utf8("mp3"));
    var a := Entry("m/a.wav", "a.wav", Utf8("wav"));
    var c := Entry("m/c.txt", "c.txt", Utf8("txt"));
    var walk := [b, a, c];
    assert Lower("mp3") == "mp3" && Lower("wav") == "wav";
    assert Lower("txt") == "txt";
    assert IsMusicExtension(b.ext) && IsMusicExtension(a.ext) && !IsMusicExtension(c.ext);
    assert walk[..2] == [b, a] && [b, a][..1] == [b] && [b][..0] == [];
    assert Kept([b]) == [ToMusicFile(b)];
    assert Kept([b, a]) == [ToMusicFile(b), ToMusicFile(a)];
    assert Kept(walk) == [ToMusicFile(b), ToMusicFile(a)];
    assert !NameLe("b.mp3", "a.wav");
    assert NameLe("a.wav", "b.mp3");
  }
}
