/** The file-backed artifact service (artifact/file/file.go) over a tree of files. */
module ArtifactStore {
  import opened Decimals
  import opened Events
  import opened SortedNames

  /** A file is found by the segments of its path. */
  type Path = seq<string>

  datatype Content = Payload(data: string) | Metadata(version: int, fileName: string, mimeType: string)

  type Files = map<Path, Content>

  datatype Part = Text(text: string) | Blob(data: string, mimeType: string)

  datatype Error = Invalid | NotFound | ContentMissing

  datatype Result<+T> = Ok(value: T) | Err(error: Error)

  /** The session of a key plays no part when the file is the user's. */
  datatype Key = Key(user: string, session: string, file: string)

  const META := "metadata.json"

  // ----- Names -----

  predicate Separated(s: string) { '/' in s || '\\' in s }

  predicate Dotted(s: string) { exists i :: 0 <= i < |s| - 1 && s[i] == '.' && s[i + 1] == '.' }

  predicate SafeSegment(s: string) { s != "" && !Separated(s) && !Dotted(s) }

  predicate SafeFile(s: string) { s != "" && !Separated(s) && !(".." <= s) }

  predicate Valid(k: Key) { SafeSegment(k.user) && SafeSegment(k.session) && SafeFile(k.file) }

  predicate UserScoped(file: string) { "user:" <= file }

  /** Names that are path segments as they stand; the session of the user's files is none. */
  predicate Plain(k: Key) { k.user != "." && k.file != "." && (UserScoped(k.file) || k.session != ".") }

  /** What the artifacts of a key are kept under. */
  function Slot(k: Key): Key { if UserScoped(k.file) then k.(session := "") else k }

  /** filepath.Join on segments without separators or double dots. */
  function Join(parts: seq<string>): Path {
    if parts == [] then []
    else Join(parts[..|parts| - 1]) + if parts[|parts| - 1] == "." then [] else [parts[|parts| - 1]]
  }

  function ArtifactDir(k: Key): Path {
    if UserScoped(k.file) then Join(["users", k.user, "artifacts", k.file])
    else Join(["users", k.user, "sessions", k.session, "artifacts", k.file])
  }

  // ----- Version numbers in directory names -----

  function FormatInt(v: int): string { if v < 0 then "-" + Decimal(-v) else Decimal(v) }

  function ParseDigits(s: string): Option<nat> { if Digits(s) then Some(Numeral(s)) else None }

  function ParseInt(s: string): Option<int> {
    if s != "" && (s[0] == '-' || s[0] == '+') then
      var n := ParseDigits(s[1..]);
      if n.None? then None else Some(if s[0] == '-' then 0 - n.value as int else n.value as int)
    else
      var n := ParseDigits(s);
      if n.None? then None else Some(n.value)
  }

  lemma ParseInvertsFormat(v: nat)
    ensures ParseDigits(Decimal(v)) == Some(v) && ParseInt(FormatInt(v)) == Some(v) && FormatInt(v) == Decimal(v)
  {
    NumeralOfDecimal(v);
  }

  // ----- Directories -----

  predicate Under(dir: Path, p: Path) { |dir| < |p| && p[..|dir|] == dir }

  function Entries(files: Files, dir: Path): set<string> { set p | p in files && Under(dir, p) :: p[|dir|] }

  function Subdirectories(files: Files, dir: Path): set<string> {
    set p | p in files && Under(dir, p) && |p| > |dir| + 1 :: p[|dir|]
  }

  // ----- What the files stand for -----

  lemma {:induction false} JoinPlain(parts: seq<string>)
    requires forall i :: 0 <= i < |parts| ==> parts[i] != "."
    ensures Join(parts) == parts
  {
    if parts != [] {
      JoinPlain(parts[..|parts| - 1]);
      assert parts[..|parts| - 1] + [parts[|parts| - 1]] == parts;
    }
  }

  /** The directory of a key whose names stay as they are. */
  lemma PlainDir(k: Key)
    requires Plain(k)
    ensures ArtifactDir(k) == if UserScoped(k.file) then ["users", k.user, "artifacts", k.file]
                              else ["users", k.user, "sessions", k.session, "artifacts", k.file]
  {
    JoinPlain(if UserScoped(k.file) then ["users", k.user, "artifacts", k.file]
              else ["users", k.user, "sessions", k.session, "artifacts", k.file]);
  }

  /** The two files of a version. */
  function PathOf(k: Key, v: int, name: string): Path { VersionDir(ArtifactDir(k), v) + [name] }

  function VersionDir(dir: Path, v: int): Path { dir + ["versions", FormatInt(v)] }

  function ContentName(k: Key, part: Part): string { if part.Text? then k.file + ".txt" else k.file }

  function ContentOf(part: Part): Content { Payload(if part.Text? then part.text else part.data) }

  function MetadataOf(k: Key, v: int, part: Part): Content {
    Metadata(v, k.file, if part.Text? then "text/plain" else part.mimeType)
  }

  /** A binary file named like the metadata is overwritten by it. */
  predicate HasContent(k: Key, part: Part) { ContentName(k, part) != META }

  type Store = map<Key, seq<Part>>

  predicate Nested(a: Path, b: Path) { a <= b || b <= a }

  /** The directories of the keys do not meet. */
  predicate Apart(k: Key, l: Key) { !Nested(ArtifactDir(k), ArtifactDir(l)) }

  ghost predicate WellKept(store: Store) {
    && (forall k :: k in store ==> Slot(k) == k && k.file != "." && store[k] != [])
    && forall k, l :: k in store && l in store && k != l ==> Apart(k, l)
  }

  /** The key's directory meets those of the stored artifacts only if it is its own. */
  ghost predicate Fits(store: Store, k: Key) {
    k.file != "." && forall l :: l in store && l != Slot(k) ==> Apart(k, l)
  }

  /** The file belongs to the version and holds what it should. */
  ghost predicate AccountedBy(files: Files, store: Store, p: Path, k: Key, v: nat)
    requires p in files
  {
    && k in store && v < |store[k]| && p != []
    && var name := p[|p| - 1];
    && p == PathOf(k, v, name)
    && ((name == META && files[p] == MetadataOf(k, v, store[k][v]))
        || (name == ContentName(k, store[k][v]) && name != META && files[p] == ContentOf(store[k][v])))
  }

  ghost predicate Accounted(files: Files, store: Store, p: Path)
    requires p in files
  {
    exists k, v: nat :: AccountedBy(files, store, p, k, v)
  }

  ghost predicate Present(files: Files, store: Store, k: Key, v: nat)
    requires k in store && v < |store[k]|
  {
    && PathOf(k, v, META) in files
    && (HasContent(k, store[k][v]) ==> PathOf(k, v, ContentName(k, store[k][v])) in files)
  }

  /** The files are those of the stored versions. */
  ghost predicate Represents(files: Files, store: Store) {
    WellKept(store) && AllAccounted(files, store) && AllPresent(files, store)
  }

  ghost predicate AllAccounted(files: Files, store: Store) { forall p :: p in files ==> Accounted(files, store, p) }

  ghost predicate AllPresent(files: Files, store: Store) {
    forall k, v: nat :: k in store && v < |store[k]| ==> Present(files, store, k, v)
  }

  lemma PathParts(k: Key, v: nat, name: string)
    ensures
      var p, dir := PathOf(k, v, name), ArtifactDir(k);
      && |p| == |dir| + 3 && p[..|dir|] == dir && p[|dir|] == "versions"
      && p[|p| - 1] == name && p[|p| - 2] == FormatInt(v) && ParseInt(FormatInt(v)) == Some(v)
  {
    ParseInvertsFormat(v);
  }

  /** Two directories above the same path are nested. */
  lemma BothAbove(a: Path, b: Path, p: Path)
    requires |a| <= |p| && |b| <= |p| && p[..|a|] == a && p[..|b|] == b
    ensures Nested(a, b)
  {
    if |a| <= |b| {
      assert b[..|a|] == p[..|b|][..|a|] == p[..|a|];
    } else {
      assert a[..|b|] == p[..|a|][..|b|] == p[..|b|];
    }
  }

  // ----- Versions -----

  ghost function Stored(store: Store, k: Key): seq<Part> { if k in store then store[k] else [] }

  /** A file below the directory of a key belongs to that key. */
  lemma OwnedBy(files: Files, store: Store, k: Key, p: Path) returns (v: nat)
    requires AllAccounted(files, store) && Slot(k) == k && Fits(store, k) && p in files && Under(ArtifactDir(k), p)
    ensures AccountedBy(files, store, p, k, v) && |p| == |ArtifactDir(k)| + 3 && p[|p| - 2] == FormatInt(v)
  {
    assert Accounted(files, store, p);
    var l, w: nat :| AccountedBy(files, store, p, l, w);
    PathParts(l, w, p[|p| - 1]);
    BothAbove(ArtifactDir(k), ArtifactDir(l), p);
    v := w;
  }

  lemma UnderParent(dir: Path, name: string, p: Path)
    requires Under(dir + [name], p)
    ensures Under(dir, p) && p[|dir|] == name
  {
    var longer := dir + [name];
    assert p[..|longer|][..|dir|] == p[..|dir|] && longer[..|dir|] == dir;
    assert p[..|longer|][|dir|] == p[|dir|];
  }

  lemma NumbersOnly(files: Files, store: Store, k: Key, name: string)
    requires Represents(files, store) && Slot(k) == k && Fits(store, k)
    requires name in Subdirectories(files, ArtifactDir(k) + ["versions"])
    ensures exists v: nat :: v < |Stored(store, k)| && name == FormatInt(v)
  {
    var p :| p in files && Under(ArtifactDir(k) + ["versions"], p) && p[|ArtifactDir(k)| + 1] == name;
    UnderParent(ArtifactDir(k), "versions", p);
    var v := OwnedBy(files, store, k, p);
    assert name == FormatInt(v);
  }

  lemma PathSplit(k: Key, v: nat, name: string)
    ensures PathOf(k, v, name) == ArtifactDir(k) + ["versions"] + [FormatInt(v), name]
  {
  }

  lemma SubdirectoryOf(files: Files, dir: Path, a: string, b: string)
    requires dir + [a, b] in files
    ensures a in Subdirectories(files, dir)
  {
    var p := dir + [a, b];
    assert Under(dir, p) && p[|dir|] == a;
  }

  lemma EveryNumber(files: Files, store: Store, k: Key, v: nat)
    requires Represents(files, store) && Slot(k) == k && Fits(store, k) && v < |Stored(store, k)|
    ensures FormatInt(v) in Subdirectories(files, ArtifactDir(k) + ["versions"])
  {
    assert Present(files, store, k, v);
    PathSplit(k, v, META);
    SubdirectoryOf(files, ArtifactDir(k) + ["versions"], FormatInt(v), META);
  }

  /** The numbers of the directories that have one, in ascending order. */
  ghost predicate Listing(versions: seq<int>, names: seq<string>, dirs: set<string>) {
    && |versions| == |names|
    && (forall i, j :: 0 <= i < j < |names| ==> names[i] != names[j] && versions[i] <= versions[j])
    && (forall i :: 0 <= i < |names| ==> ParseInt(names[i]) == Some(versions[i]))
    && (forall d :: d in dirs && ParseInt(d).Some? <==> d in names)
  }

  function Range(n: nat): seq<int> { seq(n, i => i) }

  lemma {:induction false} AscendingIsRange(s: seq<int>, n: nat)
    requires forall i, j :: 0 <= i < j < |s| ==> s[i] < s[j]
    requires forall x :: x in s <==> 0 <= x < n
    ensures s == Range(n)
  {
    if s != [] {
      assert s[0] in s && s[|s| - 1] in s;
    }
    if n > 0 {
      assert n - 1 in s;
      var j :| 0 <= j < |s| && s[j] == n - 1;
      var before := s[..j];
      forall x ensures x in before <==> 0 <= x < n - 1 {
        if 0 <= x < n - 1 {
          assert x in s;
        }
        if x in before {
          var i :| 0 <= i < |before| && before[i] == x;
          assert s[i] in s && s[i] < s[j];
        }
      }
      AscendingIsRange(before, n - 1);
      assert s == before + [n - 1];
    }
  }

  lemma ListingIsRange(files: Files, store: Store, k: Key, versions: seq<int>, names: seq<string>)
    requires Represents(files, store) && Slot(k) == k && Fits(store, k)
    requires Listing(versions, names, Subdirectories(files, ArtifactDir(k) + ["versions"]))
    ensures versions == Range(|Stored(store, k)|)
  {
    var n, dirs := |Stored(store, k)|, Subdirectories(files, ArtifactDir(k) + ["versions"]);
    forall i | 0 <= i < |names| ensures 0 <= versions[i] < n && names[i] == FormatInt(versions[i]) {
      assert names[i] in names;
      NumbersOnly(files, store, k, names[i]);
      var v: nat :| v < n && names[i] == FormatInt(v);
      ParseInvertsFormat(v);
    }
    forall x | 0 <= x < n ensures x in versions {
      EveryNumber(files, store, k, x);
      ParseInvertsFormat(x);
      assert FormatInt(x) in names;
      var i :| 0 <= i < |names| && names[i] == FormatInt(x);
      assert versions[i] == x;
    }
    AscendingIsRange(versions, n);
  }

  // ----- The operations on the files -----

  function Written(files: Files, dir: Path, k: Key, v: int, part: Part): Files {
    files[dir + [ContentName(k, part)] := ContentOf(part)][dir + [META] := MetadataOf(k, v, part)]
  }

  function Saved(files: Files, k: Key, v: int, part: Part): Files { Written(files, VersionDir(ArtifactDir(k), v), k, v, part) }

  lemma NewPath(files: Files, store: Store, k: Key, name: string)
    requires Represents(files, store) && Slot(k) == k && Fits(store, k)
    ensures PathOf(k, |Stored(store, k)|, name) !in files
  {
    var p := PathOf(k, |Stored(store, k)|, name);
    if p in files {
      PathParts(k, |Stored(store, k)|, name);
      var v := OwnedBy(files, store, k, p);
      ParseInvertsFormat(v);
    }
  }

  /** What was there before a change that only adds stays accounted for. */
  lemma StaysAccounted(files: Files, store: Store, after: Files, kept: Store, p: Path, k: Key, v: nat)
    requires p in files && AccountedBy(files, store, p, k, v) && p in after && after[p] == files[p]
    requires k in kept && store[k] <= kept[k]
    ensures Accounted(after, kept, p)
  {
    assert AccountedBy(after, kept, p, k, v);
  }

  lemma StillAccounted(files: Files, store: Store, after: Files, kept: Store, p: Path)
    requires p in files && Accounted(files, store, p) && p in after && after[p] == files[p]
    requires forall k :: k in store ==> k in kept && store[k] <= kept[k]
    ensures Accounted(after, kept, p)
  {
    var k, v: nat :| AccountedBy(files, store, p, k, v);
    StaysAccounted(files, store, after, kept, p, k, v);
  }

  lemma NewIsAccounted(files: Files, kept: Store, k: Key, v: nat, name: string)
    requires k in kept && v < |kept[k]| && PathOf(k, v, name) in files
    requires
      var c, part := files[PathOf(k, v, name)], kept[k][v];
      if name == META then c == MetadataOf(k, v, part) else name == ContentName(k, part) && c == ContentOf(part)
    ensures Accounted(files, kept, PathOf(k, v, name))
  {
    PathParts(k, v, name);
    assert AccountedBy(files, kept, PathOf(k, v, name), k, v);
  }

  lemma SavedContents(files: Files, k: Key, v: nat, part: Part)
    ensures
      var after := Saved(files, k, v, part);
      && PathOf(k, v, META) in after && after[PathOf(k, v, META)] == MetadataOf(k, v, part)
      && PathOf(k, v, ContentName(k, part)) in after
      && (HasContent(k, part) ==> after[PathOf(k, v, ContentName(k, part))] == ContentOf(part))
  {
    var a, b := PathOf(k, v, ContentName(k, part)), PathOf(k, v, META);
    assert a[|a| - 1] == ContentName(k, part) && b[|b| - 1] == META;
  }

  lemma StaysPresent(files: Files, store: Store, after: Files, kept: Store, k: Key, v: nat)
    requires k in store && v < |store[k]| && Present(files, store, k, v)
    requires files.Keys <= after.Keys && k in kept && store[k] <= kept[k]
    ensures Present(after, kept, k, v)
  {
  }

  lemma PresentGrows(files: Files, store: Store, after: Files, k: Key, part: Part)
    requires AllPresent(files, store) && files.Keys <= after.Keys
    requires Present(after, store[k := Stored(store, k) + [part]], k, |Stored(store, k)|)
    ensures AllPresent(after, store[k := Stored(store, k) + [part]])
  {
    var kept := store[k := Stored(store, k) + [part]];
    forall l, v: nat | l in kept && v < |kept[l]| ensures Present(after, kept, l, v) {
      if l in store && v < |store[l]| {
        assert Present(files, store, l, v);
        StaysPresent(files, store, after, kept, l, v);
      }
    }
  }

  lemma TwoAdded(files: Files, a: Path, x: Content, b: Path, y: Content)
    requires a !in files && b !in files
    ensures
      var after := files[a := x][b := y];
      && files.Keys <= after.Keys && (forall p :: p in files ==> p in after && after[p] == files[p])
      && (forall p :: p in after ==> p in files || p == a || p == b)
  {
  }

  lemma SavedIsAccounted(files: Files, kept: Store, k: Key, v: nat, part: Part)
    requires k in kept && v < |kept[k]| && kept[k][v] == part
    ensures
      var after := Saved(files, k, v, part);
      && PathOf(k, v, META) in after && Accounted(after, kept, PathOf(k, v, META))
      && PathOf(k, v, ContentName(k, part)) in after && Accounted(after, kept, PathOf(k, v, ContentName(k, part)))
      && Present(after, kept, k, v)
  {
    var after := Saved(files, k, v, part);
    SavedContents(files, k, v, part);
    NewIsAccounted(after, kept, k, v, META);
    NewIsAccounted(after, kept, k, v, ContentName(k, part));
  }

  lemma SavedAccounts(files: Files, store: Store, k: Key, part: Part, kept: Store)
    requires Represents(files, store) && Slot(k) == k && Fits(store, k) && kept == store[k := Stored(store, k) + [part]]
    ensures AllAccounted(Saved(files, k, |Stored(store, k)|, part), kept)
  {
    var n := |Stored(store, k)|;
    var a, b := PathOf(k, n, ContentName(k, part)), PathOf(k, n, META);
    NewPath(files, store, k, META);
    NewPath(files, store, k, ContentName(k, part));
    SavedIsAccounted(files, kept, k, n, part);
    TwoAdded(files, a, ContentOf(part), b, MetadataOf(k, n, part));
    var after := Saved(files, k, n, part);
    forall p | p in after ensures Accounted(after, kept, p) {
      if p in files {
        assert Accounted(files, store, p);
        StillAccounted(files, store, after, kept, p);
      }
    }
  }

  lemma SavedIsPresent(files: Files, store: Store, k: Key, part: Part)
    requires AllPresent(files, store)
    ensures AllPresent(Saved(files, k, |Stored(store, k)|, part), store[k := Stored(store, k) + [part]])
  {
    SavedIsAccounted(files, store[k := Stored(store, k) + [part]], k, |Stored(store, k)|, part);
    PresentGrows(files, store, Saved(files, k, |Stored(store, k)|, part), k, part);
  }

  lemma KeptGrows(store: Store, k: Key, parts: seq<Part>)
    requires WellKept(store) && Slot(k) == k && Fits(store, k) && parts != []
    ensures WellKept(store[k := parts])
  {
    var kept := store[k := parts];
    forall l, m | l in kept && m in kept && l != m ensures Apart(l, m) {
      if l == k {
        assert Apart(k, m);
      } else if m == k {
        assert Apart(k, l);
      } else {
        assert Apart(l, m);
      }
    }
  }

  /** A save keeps the files those of the stored versions, with one version more. */
  lemma SaveRepresents(files: Files, store: Store, k: Key, part: Part)
    requires Represents(files, store) && Slot(k) == k && Fits(store, k)
    ensures Represents(Saved(files, k, |Stored(store, k)|, part), store[k := Stored(store, k) + [part]])
  {
    KeptGrows(store, k, Stored(store, k) + [part]);
    SavedAccounts(files, store, k, part, store[k := Stored(store, k) + [part]]);
    SavedIsPresent(files, store, k, part);
  }

  function Removed(files: Files, dir: Path): Files { map p | p in files && !Under(dir, p) && p != dir :: files[p] }

  lemma RemovedAccounts(files: Files, store: Store, k: Key)
    requires AllAccounted(files, store)
    ensures AllAccounted(Removed(files, ArtifactDir(k)), store - {k})
  {
    var after, kept := Removed(files, ArtifactDir(k)), store - {k};
    forall p | p in after ensures Accounted(after, kept, p) {
      assert Accounted(files, store, p);
      var l, v: nat :| AccountedBy(files, store, p, l, v);
      PathParts(l, v, p[|p| - 1]);
      StaysAccounted(files, store, after, kept, p, l, v);
    }
  }

  lemma DeleteRepresents(files: Files, store: Store, k: Key)
    requires Represents(files, store) && Slot(k) == k && Fits(store, k)
    ensures Represents(Removed(files, ArtifactDir(k)), store - {k})
  {
    var after, kept := Removed(files, ArtifactDir(k)), store - {k};
    RemovedAccounts(files, store, k);
    forall l, v: nat | l in kept && v < |kept[l]| ensures Present(after, kept, l, v) {
      assert Present(files, store, l, v);
      Survives(k, l, v, META);
      Survives(k, l, v, ContentName(l, store[l][v]));
    }
  }

  lemma Survives(k: Key, l: Key, v: nat, name: string)
    requires Apart(k, l)
    ensures !Under(ArtifactDir(k), PathOf(l, v, name)) && PathOf(l, v, name) != ArtifactDir(k)
  {
    var p := PathOf(l, v, name);
    PathParts(l, v, name);
    if |ArtifactDir(k)| <= |p| && p[..|ArtifactDir(k)|] == ArtifactDir(k) {
      BothAbove(ArtifactDir(k), ArtifactDir(l), p);
    }
  }

  // ----- Loading -----

  /** A binary with the MIME type of texts comes back as a text. */
  function AsLoaded(part: Part): Part { if part.Blob? && part.mimeType == "text/plain" then Text(part.data) else part }

  function LoadedAt(parts: seq<Part>, k: Key, v: int): Result<Part> {
    if !(0 <= v < |parts|) then Err(NotFound)
    else if !HasContent(k, parts[v]) then Err(ContentMissing)
    else Ok(AsLoaded(parts[v]))
  }

  /** Version 0 asks for the latest. */
  function LoadResult(parts: seq<Part>, k: Key, version: int): Result<Part> {
    LoadedAt(parts, k, if version == 0 then |parts| - 1 else version)
  }

  /** Any file of a version, whichever number was asked for. */
  lemma FileOfVersion(files: Files, store: Store, k: Key, v: int, name: string)
    requires Represents(files, store) && Slot(k) == k && Fits(store, k) && PathOf(k, v, name) in files
    ensures 0 <= v < |Stored(store, k)|
    ensures
      var part, c := Stored(store, k)[v], files[PathOf(k, v, name)];
      if name == META then c == MetadataOf(k, v, part) else name == ContentName(k, part) && c == ContentOf(part)
  {
    var p := PathOf(k, v, name);
    assert p[..|ArtifactDir(k)|] == ArtifactDir(k) && p[|p| - 2] == FormatInt(v);
    var w := OwnedBy(files, store, k, p);
    SameNumber(v, w);
    AccountedSays(files, store, k, w, name);
  }

  lemma AccountedSays(files: Files, store: Store, k: Key, v: nat, name: string)
    requires PathOf(k, v, name) in files && AccountedBy(files, store, PathOf(k, v, name), k, v)
    ensures v < |Stored(store, k)|
    ensures
      var part, c := Stored(store, k)[v], files[PathOf(k, v, name)];
      if name == META then c == MetadataOf(k, v, part) else name == ContentName(k, part) && c == ContentOf(part)
  {
    assert PathOf(k, v, name)[|PathOf(k, v, name)| - 1] == name;
  }

  lemma SameNumber(v: int, w: nat)
    requires FormatInt(v) == FormatInt(w)
    ensures v == w
  {
    assert FormatInt(w)[0] != '-';
    ParseInvertsFormat(w);
    if v >= 0 {
      ParseInvertsFormat(v);
    }
  }

  lemma EntryIsFile(files: Files, store: Store, k: Key, v: int, name: string)
    requires Represents(files, store) && Slot(k) == k && Fits(store, k) && name in Entries(files, VersionDir(ArtifactDir(k), v))
    ensures PathOf(k, v, name) in files
  {
    var dir := VersionDir(ArtifactDir(k), v);
    var p :| p in files && Under(dir, p) && p[|dir|] == name;
    UnderVersion(ArtifactDir(k), v, p);
    var w := OwnedBy(files, store, k, p);
    assert p == p[..|dir|] + [p[|dir|]];
  }

  lemma UnderVersion(dir: Path, v: int, p: Path)
    requires Under(VersionDir(dir, v), p)
    ensures Under(dir, p)
  {
    assert VersionDir(dir, v)[..|dir|] == dir && p[..|dir| + 2][..|dir|] == p[..|dir|];
  }

  lemma OtherEntry(files: Files, store: Store, k: Key, v: nat, name: string)
    requires Represents(files, store) && Slot(k) == k && Fits(store, k) && v < |Stored(store, k)|
    requires name in Entries(files, VersionDir(ArtifactDir(k), v)) && name != META
    ensures name == ContentName(k, Stored(store, k)[v])
  {
    EntryIsFile(files, store, k, v, name);
    FileOfVersion(files, store, k, v, name);
  }

  lemma ContentEntry(files: Files, store: Store, k: Key, v: nat)
    requires Represents(files, store) && Slot(k) == k && Fits(store, k) && v < |Stored(store, k)|
    requires HasContent(k, Stored(store, k)[v])
    ensures ContentName(k, Stored(store, k)[v]) in Entries(files, VersionDir(ArtifactDir(k), v))
  {
    assert Present(files, store, k, v);
    EntryHere(files, VersionDir(ArtifactDir(k), v), ContentName(k, Stored(store, k)[v]));
  }

  lemma OnlyEntry(entries: set<string>, meta: string, content: string)
    requires content != meta ==> content in entries
    requires forall name :: name in entries && name != meta ==> name == content
    ensures entries - {meta} == if content != meta then {content} else {}
  {
  }

  /** The version directory holds the content, if it was not overwritten, beside the metadata. */
  lemma OtherEntries(files: Files, store: Store, k: Key, v: nat)
    requires Represents(files, store) && Slot(k) == k && Fits(store, k) && v < |Stored(store, k)|
    ensures
      var content := ContentName(k, Stored(store, k)[v]);
      Entries(files, VersionDir(ArtifactDir(k), v)) - {META} == if content != META then {content} else {}
  {
    var entries, content := Entries(files, VersionDir(ArtifactDir(k), v)), ContentName(k, Stored(store, k)[v]);
    if content != META {
      ContentEntry(files, store, k, v);
    }
    forall name | name in entries && name != META ensures name == content {
      OtherEntry(files, store, k, v, name);
    }
    OnlyEntry(entries, META, content);
  }

  lemma EntryHere(files: Files, dir: Path, name: string)
    requires dir + [name] in files
    ensures name in Entries(files, dir)
  {
    assert Under(dir, dir + [name]) && (dir + [name])[|dir|] == name;
  }

  // ----- Names -----

  function SessionDir(user: string, session: string): Path { ["users", user, "sessions", session, "artifacts"] }

  function UserDir(user: string): Path { ["users", user, "artifacts"] }

  ghost function SessionNames(store: Store, user: string, session: string): set<string> {
    set k | k in store && k.user == user && k.session == session && !UserScoped(k.file) :: k.file
  }

  ghost function UserNames(store: Store, user: string): set<string> {
    set k | k in store && k.user == user && UserScoped(k.file) :: k.file
  }

  ghost predicate PlainStore(store: Store) { forall k :: k in store ==> Plain(k) }

  lemma InSessionDir(l: Key, v: nat, x: string, user: string, session: string)
    requires Plain(l)
    ensures Under(SessionDir(user, session), PathOf(l, v, x)) <==> !UserScoped(l.file) && l.user == user && l.session == session
    ensures !UserScoped(l.file) ==> |PathOf(l, v, x)| == 9 && PathOf(l, v, x)[5] == l.file
  {
    PlainDir(l);
    var p, dir := PathOf(l, v, x), SessionDir(user, session);
    assert p[1] == l.user && dir[1] == user;
    assert p[2] == (if UserScoped(l.file) then "artifacts" else "sessions") && dir[2] == "sessions" != "artifacts";
    if Under(dir, p) {
      assert p[..5][1] == dir[1] && p[..5][2] == dir[2] && p[..5][3] == dir[3];
    }
  }

  lemma InUserDir(l: Key, v: nat, x: string, user: string)
    requires Plain(l)
    ensures Under(UserDir(user), PathOf(l, v, x)) <==> UserScoped(l.file) && l.user == user
    ensures UserScoped(l.file) ==> |PathOf(l, v, x)| == 7 && PathOf(l, v, x)[3] == l.file
  {
    PlainDir(l);
    var p, dir := PathOf(l, v, x), UserDir(user);
    assert p[1] == l.user && dir[1] == user;
    assert p[2] == (if UserScoped(l.file) then "artifacts" else "sessions") && dir[2] == "artifacts" != "sessions";
    if Under(dir, p) {
      assert p[..3][1] == dir[1] && p[..3][2] == dir[2];
    }
  }

  lemma SessionNamesListed(files: Files, store: Store, user: string, session: string)
    requires Represents(files, store) && PlainStore(store)
    ensures Subdirectories(files, SessionDir(user, session)) == SessionNames(store, user, session)
  {
    var dir := SessionDir(user, session);
    forall name | name in Subdirectories(files, dir) ensures name in SessionNames(store, user, session) {
      var p :| p in files && Under(dir, p) && |p| > |dir| + 1 && p[|dir|] == name;
      assert Accounted(files, store, p);
      var l, v: nat :| AccountedBy(files, store, p, l, v);
      InSessionDir(l, v, p[|p| - 1], user, session);
    }
    forall name | name in SessionNames(store, user, session) ensures name in Subdirectories(files, dir) {
      var l :| l in store && l.user == user && l.session == session && !UserScoped(l.file) && l.file == name;
      assert Present(files, store, l, 0);
      InSessionDir(l, 0, META, user, session);
      assert PathOf(l, 0, META)[|dir|] == name;
    }
  }

  lemma UserNamesListed(files: Files, store: Store, user: string)
    requires Represents(files, store) && PlainStore(store)
    ensures Subdirectories(files, UserDir(user)) == UserNames(store, user)
  {
    var dir := UserDir(user);
    forall name | name in Subdirectories(files, dir) ensures name in UserNames(store, user) {
      var p :| p in files && Under(dir, p) && |p| > |dir| + 1 && p[|dir|] == name;
      assert Accounted(files, store, p);
      var l, v: nat :| AccountedBy(files, store, p, l, v);
      InUserDir(l, v, p[|p| - 1], user);
    }
    forall name | name in UserNames(store, user) ensures name in Subdirectories(files, dir) {
      var l :| l in store && l.user == user && UserScoped(l.file) && l.file == name;
      assert Present(files, store, l, 0);
      InUserDir(l, 0, META, user);
      assert PathOf(l, 0, META)[|dir|] == name;
    }
  }

  // ----- The service -----

  function Decoded(data: string, mimeType: string): Part {
    if mimeType == "text/plain" then Text(data) else Blob(data, mimeType)
  }

  predicate Usable(part: Part) { part.Text? ==> part.text != "" }

  function InsertedAt<T>(s: seq<T>, i: nat, x: T): seq<T>
    requires i <= |s|
  {
    s[..i] + [x] + s[i..]
  }

  /** One more element, put at its place. */
  ghost predicate Placed<T>(s: seq<T>, i: nat, x: T, r: seq<T>) {
    && i <= |s| && |r| == |s| + 1
    && forall a {:trigger r[a]} :: 0 <= a < |r| ==> r[a] == if a < i then s[a] else if a == i then x else s[a - 1]
  }

  lemma InsertedElements<T>(s: seq<T>, i: nat, x: T)
    requires i <= |s|
    ensures Placed(s, i, x, InsertedAt(s, i, x))
    ensures forall y :: y in InsertedAt(s, i, x) <==> y in s || y == x
  {
    assert s == s[..i] + s[i..];
    assert forall y :: y in s <==> y in s[..i] || y in s[i..];
  }

  lemma ListingGrows(versions: seq<int>, names: seq<string>, v: int, name: string, dirs: set<string>, i: nat)
    requires Listing(versions, names, dirs) && ParseInt(name) == Some(v) && name !in dirs && i <= |versions|
    requires (forall j :: 0 <= j < i ==> versions[j] <= v) && (forall j :: i <= j < |versions| ==> v <= versions[j])
    ensures Listing(InsertedAt(versions, i, v), InsertedAt(names, i, name), dirs + {name})
  {
    InsertedElements(versions, i, v);
    InsertedElements(names, i, name);
    ListingWith(versions, names, v, name, dirs, i, InsertedAt(versions, i, v), InsertedAt(names, i, name));
  }

  lemma ListingWith(versions: seq<int>, names: seq<string>, v: int, name: string, dirs: set<string>, i: nat, r: seq<int>, s: seq<string>)
    requires Listing(versions, names, dirs) && ParseInt(name) == Some(v) && name !in dirs
    requires Placed(versions, i, v, r) && Placed(names, i, name, s) && forall y :: y in s <==> y in names || y == name
    requires (forall j :: 0 <= j < i ==> versions[j] <= v) && (forall j :: i <= j < |versions| ==> v <= versions[j])
    ensures Listing(r, s, dirs + {name})
  {
    assert name !in names;
    forall a, b | 0 <= a < b < |s| ensures s[a] != s[b] && r[a] <= r[b] {
      PlacedInOrder(versions, names, v, name, i, r, s, a, b);
    }
  }

  lemma PlacedInOrder(versions: seq<int>, names: seq<string>, v: int, name: string, i: nat, r: seq<int>, s: seq<string>, a: nat, b: nat)
    requires |versions| == |names| && name !in names && a < b < |s|
    requires forall a, b :: 0 <= a < b < |names| ==> names[a] != names[b] && versions[a] <= versions[b]
    requires Placed(versions, i, v, r) && Placed(names, i, name, s)
    requires (forall j :: 0 <= j < i ==> versions[j] <= v) && (forall j :: i <= j < |versions| ==> v <= versions[j])
    ensures s[a] != s[b] && r[a] <= r[b]
  {
    if a == i {
      assert r[b] == versions[b - 1] && s[b] == names[b - 1] && names[b - 1] in names;
    } else if b == i {
      assert r[a] == versions[a] && s[a] == names[a] && names[a] in names;
    } else {
      var a', b' := if a < i then a else a - 1, if b < i then b else b - 1;
      assert r[a] == versions[a'] && r[b] == versions[b'] && s[a] == names[a'] && s[b] == names[b'];
    }
  }

  lemma SlotFits(store: Store, k: Key)
    requires Fits(store, k)
    ensures Slot(Slot(k)) == Slot(k) && ArtifactDir(Slot(k)) == ArtifactDir(k) && Fits(store, Slot(k))
  {
  }

  class Service {
    var files: Files
    ghost var store: Store

    ghost predicate Kept()
      reads this
    {
      Represents(files, store)
    }

    constructor ()
      ensures Kept() && store == map[]
    {
      files, store := map[], map[];
    }

    method ListVersions(dir: Path) returns (versions: seq<int>, ghost names: seq<string>)
      ensures Listing(versions, names, Subdirectories(files, dir))
    {
      versions, names := [], [];
      var left := Subdirectories(files, dir);
      while left != {}
        invariant left <= Subdirectories(files, dir)
        invariant Listing(versions, names, Subdirectories(files, dir) - left)
        decreases left
      {
        var name :| name in left;
        ghost var done := Subdirectories(files, dir) - left;
        assert Subdirectories(files, dir) - (left - {name}) == done + {name};
        var v := ParseInt(name);
        if v.Some? {
          var i := Position(versions, v.value);
          ListingGrows(versions, names, v.value, name, done, i);
          versions, names := InsertedAt(versions, i, v.value), InsertedAt(names, i, name);
        }
        left := left - {name};
      }
      assert Subdirectories(files, dir) - left == Subdirectories(files, dir);
    }

    static method Position(versions: seq<int>, v: int) returns (i: nat)
      requires forall a, b :: 0 <= a < b < |versions| ==> versions[a] <= versions[b]
      ensures i <= |versions|
      ensures (forall j :: 0 <= j < i ==> versions[j] <= v) && (forall j :: i <= j < |versions| ==> v <= versions[j])
    {
      i := 0;
      while i < |versions| && versions[i] <= v
        invariant 0 <= i <= |versions|
        invariant forall j :: 0 <= j < i ==> versions[j] <= v
      {
        i := i + 1;
      }
    }

    /** The versions of an artifact. */
    method VersionsOf(k: Key) returns (versions: seq<int>)
      requires Kept()
      ensures Fits(store, k) ==> versions == Range(|Stored(store, Slot(k))|)
    {
      ghost var names;
      versions, names := ListVersions(ArtifactDir(k) + ["versions"]);
      if Fits(store, k) {
        SlotFits(store, k);
        ListingIsRange(files, store, Slot(k), versions, names);
      }
    }

    method Write(k: Key, v: int, part: Part)
      modifies this`files
      ensures files == Written(old(files), VersionDir(ArtifactDir(k), v), k, v, part)
    {
      var dir := VersionDir(ArtifactDir(k), v);
      files := files[dir + [ContentName(k, part)] := ContentOf(part)];
      files := files[dir + [META] := MetadataOf(k, v, part)];
    }

    method Save(k: Key, part: Part) returns (r: Result<int>)
      requires Kept()
      modifies this
      ensures !Valid(k) || !Usable(part) ==> r == Err(Invalid) && Kept() && store == old(store)
      ensures Valid(k) && Usable(part) && Fits(old(store), k) ==>
        var before := Stored(old(store), Slot(k));
        Kept() && r == Ok(|before|) && store == old(store)[Slot(k) := before + [part]]
    {
      if !Valid(k) || !Usable(part) {
        return Err(Invalid);
      }
      var versions := VersionsOf(k);
      var next := if |versions| > 0 then versions[|versions| - 1] + 1 else 0;
      ghost var was := files;
      Write(k, next, part);
      if Fits(store, k) {
        SlotFits(store, k);
        SavedIsWritten(was, k, next, part);
        SaveRepresents(was, store, Slot(k), part);
        store := store[Slot(k) := Stored(store, Slot(k)) + [part]];
      }
      r := Ok(next);
    }

    method Load(k: Key, version: int) returns (r: Result<Part>)
      requires Kept()
      ensures !Valid(k) ==> r == Err(Invalid)
      ensures Valid(k) && Fits(store, k) ==> r == LoadResult(Stored(store, Slot(k)), Slot(k), version)
    {
      if !Valid(k) {
        return Err(Invalid);
      }
      var target := Some(version);
      if version == 0 {
        target := Latest(k);
      }
      if target.None? {
        return Err(NotFound);
      }
      r := LoadVersion(k, target.value);
    }

    method Latest(k: Key) returns (latest: Option<int>)
      requires Kept()
      ensures Fits(store, k) ==>
        var n := |Stored(store, Slot(k))|;
        latest == if n == 0 then None else Some(n - 1)
    {
      var versions := VersionsOf(k);
      latest := if |versions| == 0 then None else Some(versions[|versions| - 1]);
    }

    method LoadVersion(k: Key, v: int) returns (r: Result<Part>)
      requires Kept()
      ensures Fits(store, k) ==> r == LoadedAt(Stored(store, Slot(k)), Slot(k), v)
    {
      var dir := VersionDir(ArtifactDir(k), v);
      if Fits(store, k) {
        MetadataThere(files, store, k, v);
      }
      if dir + [META] !in files || !files[dir + [META]].Metadata? {
        return Err(NotFound);
      }
      r := ReadContent(k, v, files[dir + [META]].mimeType);
    }

    method ReadContent(k: Key, v: int, mimeType: string) returns (r: Result<Part>)
      requires Kept()
      requires Fits(store, k) ==> 0 <= v < |Stored(store, Slot(k))|
      requires Fits(store, k) ==> mimeType == MetadataOf(k, v, Stored(store, Slot(k))[v]).mimeType
      ensures Fits(store, k) ==> r == LoadedAt(Stored(store, Slot(k)), Slot(k), v)
    {
      var dir := VersionDir(ArtifactDir(k), v);
      var others := Entries(files, dir) - {META};
      if Fits(store, k) {
        ContentThere(files, store, k, v);
      }
      if others == {} {
        return Err(ContentMissing);
      }
      var name :| name in others;
      r := ReadFile(dir + [name], mimeType);
    }

    method ReadFile(path: Path, mimeType: string) returns (r: Result<Part>)
      ensures path in files && files[path].Payload? ==> r == Ok(Decoded(files[path].data, mimeType))
    {
      if path !in files || !files[path].Payload? {
        return Err(ContentMissing);
      }
      r := Ok(Decoded(files[path].data, mimeType));
    }

    method Delete(k: Key) returns (r: Result<()>)
      requires Kept()
      modifies this
      ensures !Valid(k) ==> r == Err(Invalid) && Kept() && store == old(store)
      ensures Valid(k) && Fits(old(store), k) ==> r == Ok(()) && Kept() && store == old(store) - {Slot(k)}
    {
      if !Valid(k) {
        return Err(Invalid);
      }
      if Fits(store, k) {
        SlotFits(store, k);
        DeleteRepresents(files, store, Slot(k));
        store := store - {Slot(k)};
      }
      files := Removed(files, ArtifactDir(k));
      r := Ok(());
    }

    method Versions(k: Key) returns (r: Result<seq<int>>)
      requires Kept()
      ensures !Valid(k) ==> r == Err(Invalid)
      ensures Valid(k) && Fits(store, k) ==>
        var n := |Stored(store, Slot(k))|;
        r == if n == 0 then Err(NotFound) else Ok(Range(n))
    {
      if !Valid(k) {
        return Err(Invalid);
      }
      var versions := VersionsOf(k);
      r := if |versions| == 0 then Err(NotFound) else Ok(versions);
    }

    method List(user: string, session: string) returns (r: Result<seq<string>>)
      requires Kept()
      ensures !SafeSegment(user) || !SafeSegment(session) ==> r == Err(Invalid)
      ensures SafeSegment(user) && SafeSegment(session) && user != "." && session != "." && PlainStore(store) ==>
        r == Ok(Sorted(SessionNames(store, user, session) + UserNames(store, user)))
    {
      if !SafeSegment(user) || !SafeSegment(session) {
        return Err(Invalid);
      }
      var sessionDir := Join(["users", user, "sessions", session, "artifacts"]);
      var userDir := Join(["users", user, "artifacts"]);
      if user != "." && session != "." && PlainStore(store) {
        JoinPlain(SessionDir(user, session));
        JoinPlain(UserDir(user));
        SessionNamesListed(files, store, user, session);
        UserNamesListed(files, store, user);
      }
      var names := SortedKeys(Subdirectories(files, sessionDir) + Subdirectories(files, userDir));
      r := Ok(names);
    }
  }

  lemma SavedIsWritten(files: Files, k: Key, v: int, part: Part)
    ensures Written(files, VersionDir(ArtifactDir(k), v), k, v, part) == Saved(files, Slot(k), v, part)
  {
  }

  lemma MetadataThere(files: Files, store: Store, k: Key, v: int)
    requires Represents(files, store) && Fits(store, k)
    ensures
      var p := VersionDir(ArtifactDir(k), v) + [META];
      if 0 <= v < |Stored(store, Slot(k))| then p in files && files[p] == MetadataOf(k, v, Stored(store, Slot(k))[v])
      else p !in files
  {
    SlotFits(store, k);
    if 0 <= v < |Stored(store, Slot(k))| {
      assert Present(files, store, Slot(k), v);
    }
    if PathOf(Slot(k), v, META) in files {
      FileOfVersion(files, store, Slot(k), v, META);
    }
  }

  lemma ContentThere(files: Files, store: Store, k: Key, v: nat)
    requires Represents(files, store) && Fits(store, k) && v < |Stored(store, Slot(k))|
    ensures
      var part, dir := Stored(store, Slot(k))[v], VersionDir(ArtifactDir(k), v);
      if HasContent(k, part) then
        var p := dir + [ContentName(k, part)];
        && Entries(files, dir) - {META} == {ContentName(k, part)} && p in files && files[p] == ContentOf(part)
        && Decoded(files[p].data, MetadataOf(k, v, part).mimeType) == AsLoaded(part)
      else Entries(files, dir) - {META} == {}
  {
    SlotFits(store, k);
    OtherEntries(files, store, Slot(k), v);
    var part := Stored(store, Slot(k))[v];
    if HasContent(k, part) {
      assert Present(files, store, Slot(k), v);
      FileOfVersion(files, store, Slot(k), v, ContentName(k, part));
    }
  }

  // ----- What callers can rely on -----

  /** Two keys name one artifact if they agree in everything, or in all but the session for a
      file of the user's. */
  lemma SameSlotExactly(k: Key, l: Key)
    ensures Slot(k) == Slot(l) <==> k.user == l.user && k.file == l.file && ("user:" <= k.file || k.session == l.session)
  {
  }

  /** What is saved is loaded again, as the latest or by its number, and later saves make no
      difference to its number, unless it is a binary in the place of the metadata or with the
      MIME type of texts. The first version cannot be asked for once there are others. */
  lemma RoundTrip(before: seq<Part>, part: Part, later: seq<Part>, k: Key)
    ensures LoadResult(before + [part], k, 0) == Ok(part) <==> Restored(k, part)
    ensures before != [] ==> (LoadResult(before + [part] + later, k, |before|) == Ok(part) <==> Restored(k, part))
    ensures before == [] && later != [] ==>
      LoadResult([part] + later, k, 0) == LoadedAt(later, k, |later| - 1)
  {
    var all := before + [part] + later;
    assert all[|before|] == part;
    if part.Text? {
      var name := k.file + ".txt";
      assert name[|name| - 1] == 't' && META[|META| - 1] == 'n';
    }
  }

  predicate Restored(k: Key, part: Part) { part.Text? || (k.file != META && part.mimeType != "text/plain") }

  // ----- Which directories meet -----

  /** A single dot is no segment. */
  function Segment(name: string): Path { if name == "." then [] else [name] }

  lemma JoinOneMore(parts: seq<string>, name: string)
    ensures Join(parts + [name]) == Join(parts) + Segment(name)
  {
    assert (parts + [name])[..|parts|] == parts;
  }

  lemma DirOf(k: Key)
    ensures ArtifactDir(k) ==
      if UserScoped(k.file) then ["users"] + Segment(k.user) + ["artifacts"] + Segment(k.file)
      else ["users"] + Segment(k.user) + ["sessions"] + Segment(k.session) + ["artifacts"] + Segment(k.file)
  {
    var users := ["users"] + [k.user];
    JoinOneMore([], "users");
    assert [] + ["users"] == ["users"] && Join(["users"]) == ["users"];
    JoinOneMore(["users"], k.user);
    if UserScoped(k.file) {
      JoinTwo(users, "artifacts", k.file);
      assert users + ["artifacts"] + [k.file] == ["users", k.user, "artifacts", k.file];
    } else {
      var session := users + ["sessions"] + [k.session];
      JoinTwo(users, "sessions", k.session);
      JoinTwo(session, "artifacts", k.file);
      assert session + ["artifacts"] + [k.file] == ["users", k.user, "sessions", k.session, "artifacts", k.file];
    }
  }

  lemma JoinTwo(parts: seq<string>, name: string, next: string)
    requires name != "."
    ensures Join(parts + [name] + [next]) == Join(parts) + [name] + Segment(next)
  {
    JoinOneMore(parts, name);
    JoinOneMore(parts + [name], next);
  }

  /** What is left of a key with dropped names leads to the artifact of the other key. */
  predicate Overlaps(k: Key, l: Key) {
    && !UserScoped(k.file)
    && if UserScoped(l.file) then k.user == "." && k.session == "." && k.file == "." && l.user == "sessions"
       else if k.user == "." then
         l.user == "sessions" && k.session == "sessions" && l.session == "artifacts" && (k.file == "." || k.file == "artifacts")
       else
         k.user == l.user &&
         if k.session == "." then l.session == "artifacts" && (k.file == "." || k.file == "artifacts")
         else k.session == l.session && k.file == "."
  }

  lemma UserNested(k: Key, l: Key)
    requires Plain(l) && UserScoped(k.file)
    ensures Nested(ArtifactDir(k), ArtifactDir(l)) <==> Slot(k) == Slot(l)
  {
    DirOf(k);
    PlainDir(l);
    var a, b := ArtifactDir(k), ArtifactDir(l);
    if k.user == "." {
      assert a == ["users", "artifacts", k.file];
      assert b[2] == if UserScoped(l.file) then "artifacts" else "sessions";
      assert k.file[0] == 'u';
    } else {
      assert a == ["users", k.user, "artifacts", k.file];
      assert Nested(a, b) ==> a[1] == b[1] && a[2] == b[2] && a[3] == b[3];
    }
  }

  lemma SessionNested(k: Key, l: Key)
    requires Plain(l) && !UserScoped(k.file) && k.user != "."
    ensures Nested(ArtifactDir(k), ArtifactDir(l)) <==> Slot(k) == Slot(l) || Overlaps(k, l)
  {
    DirOf(k);
    PlainDir(l);
    var a, b := ArtifactDir(k), ArtifactDir(l);
    assert a[1] == k.user && a[2] == "sessions";
    if UserScoped(l.file) {
      assert b[2] == "artifacts" && !Nested(a, b);
    } else if k.session == "." {
      assert a == ["users", k.user, "sessions", "artifacts"] + Segment(k.file);
      assert Nested(a, b) ==> a[3] == b[3] && (k.file != "." ==> a[4] == b[4]);
    } else {
      assert a == ["users", k.user, "sessions", k.session, "artifacts"] + Segment(k.file);
      assert Nested(a, b) ==> a[3] == b[3] && (k.file != "." ==> a[5] == b[5]);
    }
  }

  lemma NobodyNested(k: Key, l: Key)
    requires Plain(l) && !UserScoped(k.file) && k.user == "."
    ensures Nested(ArtifactDir(k), ArtifactDir(l)) <==> Slot(k) == Slot(l) || Overlaps(k, l)
  {
    DirOf(k);
    PlainDir(l);
    var a, b := ArtifactDir(k), ArtifactDir(l);
    assert a[1] == "sessions" && b[1] == l.user;
    assert b[2] == if UserScoped(l.file) then "artifacts" else "sessions";
    if k.session == "." {
      assert a == ["users", "sessions", "artifacts"] + Segment(k.file);
      if UserScoped(l.file) {
        assert b[3] == l.file != k.file;
        assert k.file != "." ==> a[3] != b[3];
        assert Nested(a, b) ==> a[1] == b[1];
      }
    } else {
      assert a == ["users", "sessions", k.session, "artifacts"] + Segment(k.file);
      if UserScoped(l.file) {
        assert b[3] == l.file && l.file[0] == 'u';
      } else {
        assert Nested(a, b) ==> a[1] == b[1] && a[2] == b[2] && a[3] == b[3] && (k.file != "." ==> a[4] == b[4]);
      }
    }
  }

  /** The directory of any key meets that of another artifact with proper names exactly when a
      name of its own is a single dot, which is dropped, and what is left leads there. */
  lemma NestedExactly(k: Key, l: Key)
    requires Plain(l)
    ensures Nested(ArtifactDir(k), ArtifactDir(l)) <==> Slot(k) == Slot(l) || Overlaps(k, l)
  {
    if UserScoped(k.file) {
      UserNested(k, l);
    } else if k.user == "." {
      NobodyNested(k, l);
    } else {
      SessionNested(k, l);
    }
  }

  /** For example, a file of the session "." takes the place of every artifact of the session
      "artifacts", so that deleting it deletes them all. */
  lemma DotSessionNests(user: string, file: string, files: Files)
    requires SafeSegment(user) && user != "." && SafeFile(file) && file != "." && !UserScoped(file)
    ensures
      var k, l := Key(user, ".", "artifacts"), Key(user, "artifacts", file);
      && Valid(k) && Valid(l) && Slot(k) != Slot(l) && ArtifactDir(k) <= ArtifactDir(l)
      && forall p :: p in Removed(files, ArtifactDir(k)) ==> !Under(ArtifactDir(l), p)
  {
    var k, l := Key(user, ".", "artifacts"), Key(user, "artifacts", file);
    DirOf(k);
    PlainDir(l);
    var a, b := ArtifactDir(k), ArtifactDir(l);
    assert "artifacts"[0] == 'a' && !UserScoped("artifacts");
    assert b == ["users", user, "sessions", "artifacts", "artifacts", file];
    assert a == ["users"] + [user] + ["sessions"] + [] + ["artifacts"] + ["artifacts"];
    assert a == b[..5];
    RemovedBelow(files, a, b);
  }

  lemma RemovedBelow(files: Files, a: Path, b: Path)
    requires a <= b
    ensures forall p :: p in Removed(files, a) ==> !Under(b, p)
  {
    forall p | Under(b, p) ensures Under(a, p) {
      assert p[..|b|][..|a|] == p[..|a|];
    }
  }

  /** What is listed for the session "." includes the directory that holds the artifacts of the
      session "artifacts", whether or not it names an artifact. */
  lemma DotSessionLists(user: string, file: string, v: nat, name: string, files: Files)
    requires SafeSegment(user) && user != "." && SafeFile(file) && file != "." && !UserScoped(file)
    requires PathOf(Key(user, "artifacts", file), v, name) in files
    ensures "artifacts" in Subdirectories(files, Join(["users", user, "sessions", ".", "artifacts"]))
  {
    var k := Key(user, "artifacts", file);
    PlainDir(k);
    var sessions, p := ["users", user, "sessions"], PathOf(k, v, name);
    JoinOneMore(sessions + ["."], "artifacts");
    JoinOneMore(sessions, ".");
    JoinPlain(sessions);
    assert sessions + ["."] + ["artifacts"] == ["users", user, "sessions", ".", "artifacts"];
    var dir := Join(["users", user, "sessions", ".", "artifacts"]);
    assert dir == ["users", user, "sessions", "artifacts"];
    assert p == ["users", user, "sessions", "artifacts", "artifacts", file] + ["versions", FormatInt(v)] + [name];
    assert Under(dir, p) && p[|dir|] == "artifacts";
  }

  /** Among keys with proper names the service always answers as for separate artifacts. */
  lemma PlainFits(store: Store, k: Key)
    requires PlainStore(store) && WellKept(store) && Plain(k)
    ensures Fits(store, k)
  {
    forall l | l in store && l != Slot(k) ensures Apart(k, l) {
      NestedExactly(k, l);
    }
  }
}
