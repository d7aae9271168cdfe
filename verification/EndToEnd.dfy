/** From the tree in the browser to the folder on the server. */
module EndToEnd {
  import opened Sums
  import opened Limits
  import opened Naming
  import opened Candidates
  import opened Paths
  import opened Protocol
  import opened SlotsInvariant
  import opened Runs
  import opened Causes
  import opened Room
  import opened Server
  import opened Folders
  import opened Requests
  import opened Filling
  import opened Uploads
  import opened Exhaustion
  import opened Outcomes
  import opened Client

  // ---- the tree ---------------------------------------------------------------------------------

  /** A file of the tree. */
  datatype Spot = Spot(dirs: seq<Name>, name: Name, body: Bytes)

  function PathTo(x: Spot): seq<Name> { x.dirs + [x.name] }

  function ItemFor(x: Spot): Item { Item(x.name, x.body, Join(x.dirs)) }

  function ItemsFor(spots: seq<Spot>): seq<Item> {
    seq(|spots|, i requires 0 <= i < |spots| => ItemFor(spots[i]))
  }

  predicate FaithfulSpot(x: Spot) {
    Faithful(x.name) && forall i :: 0 <= i < |x.dirs| ==> Faithful(x.dirs[i])
  }

  /** No two files have the same path, and no file is where another needs a directory. */
  predicate Apart(x: Spot, y: Spot) {
    PathTo(x) != PathTo(y) && !(PathTo(x) <= y.dirs) && !(PathTo(y) <= x.dirs)
  }

  predicate ApartFrom(spots: seq<Spot>, x: Spot) {
    forall i {:trigger Apart(spots[i], x)} :: 0 <= i < |spots| ==> Apart(spots[i], x)
  }

  predicate Tree(spots: seq<Spot>) {
    && (forall i {:trigger FaithfulSpot(spots[i])} :: 0 <= i < |spots| ==> FaithfulSpot(spots[i]))
    && (forall i, j {:trigger Apart(spots[i], spots[j])} :: 0 <= i < j < |spots| ==> Apart(spots[i], spots[j]))
  }

  /** The files of the entries of a directory, in enumeration order. */
  function SpotsOf(entry: Node, dirs: seq<Name>): seq<Spot>
    decreases entry, 0
  {
    match entry
    case Leaf(name, body) => [Spot(dirs, name, body)]
    case Dir(name, children) => Spots(children, dirs + [name])
    case Other(_) => []
  }

  function Spots(entries: seq<Node>, dirs: seq<Name>): seq<Spot>
    decreases entries, 1
  {
    if entries == [] then [] else SpotsOf(entries[0], dirs) + Spots(entries[1..], dirs)
  }

  /** Names that sanitising leaves alone, different for the entries of one directory. */
  predicate NodeGood(entry: Node)
    decreases entry, 0
  {
    Faithful(entry.name) && (entry.Dir? ==> Good(entry.children))
  }

  predicate Good(entries: seq<Node>)
    decreases entries, 1
  {
    entries == []
    || (NodeGood(entries[0]) && Good(entries[1..]) && forall e :: e in entries[1..] ==> e.name != entries[0].name)
  }

  /** All of them lie below dirs, and the next name on their way is one of these. */
  ghost predicate Beneath(spots: seq<Spot>, dirs: seq<Name>, names: set<Name>) {
    forall i :: 0 <= i < |spots| ==>
      |PathTo(spots[i])| > |dirs| && dirs <= PathTo(spots[i]) && PathTo(spots[i])[|dirs|] in names
  }

  lemma {:induction false} EntryTree(entry: Node, dirs: seq<Name>)
    requires NodeGood(entry) && forall i :: 0 <= i < |dirs| ==> Faithful(dirs[i])
    ensures Tree(SpotsOf(entry, dirs)) && Beneath(SpotsOf(entry, dirs), dirs, {entry.name})
    decreases entry, 0
  {
    match entry
    case Leaf(_, _) =>
    case Other(_) =>
    case Dir(name, children) =>
      AllTree(children, dirs + [name]);
      forall i | 0 <= i < |SpotsOf(entry, dirs)|
        ensures dirs <= PathTo(SpotsOf(entry, dirs)[i]) && PathTo(SpotsOf(entry, dirs)[i])[|dirs|] == name
      {
        assert dirs + [name] <= PathTo(SpotsOf(entry, dirs)[i]);
      }
  }

  /** The files of a directory tree lie apart. */
  lemma {:induction false} AllTree(entries: seq<Node>, dirs: seq<Name>)
    requires Good(entries) && forall i :: 0 <= i < |dirs| ==> Faithful(dirs[i])
    ensures Tree(Spots(entries, dirs)) && Beneath(Spots(entries, dirs), dirs, set e | e in entries :: e.name)
    decreases entries, 1
  {
    if entries != [] {
      EntryTree(entries[0], dirs);
      AllTree(entries[1..], dirs);
      BesideEachOther(SpotsOf(entries[0], dirs), Spots(entries[1..], dirs), dirs, {entries[0].name},
                      set e | e in entries[1..] :: e.name);
    }
  }

  lemma BesideEachOther(s: seq<Spot>, t: seq<Spot>, dirs: seq<Name>, m: set<Name>, n: set<Name>)
    requires Tree(s) && Tree(t) && Beneath(s, dirs, m) && Beneath(t, dirs, n) && m !! n
    ensures Tree(s + t) && Beneath(s + t, dirs, m + n)
  {
    forall i, j | 0 <= i < |s| && 0 <= j < |t|
      ensures Apart(s[i], t[j])
    {
      assert PathTo(s[i])[|dirs|] != PathTo(t[j])[|dirs|];
      PrefixAgrees(PathTo(s[i]), t[j].dirs, |dirs|);
      PrefixAgrees(PathTo(t[j]), s[i].dirs, |dirs|);
    }
  }

  lemma PrefixAgrees(p: seq<Name>, q: seq<Name>, n: nat)
    ensures n < |p| && p <= q ==> p[n] == q[n]
  {
  }

  lemma {:induction false} EntryItems(entry: Node, dirs: seq<Name>)
    requires NodeNamed(entry) && (dirs != [] ==> dirs[0] != "")
    ensures FilesFromEntry(entry, Join(dirs)) == ItemsFor(SpotsOf(entry, dirs))
    decreases entry, 0
  {
    match entry
    case Leaf(_, _) =>
    case Other(_) =>
    case Dir(name, children) =>
      if dirs == [] {
        assert [] + [name] == [name];
      } else {
        JoinMore(dirs, name);
        JoinSome(dirs);
      }
      AllItems(children, dirs + [name]);
  }

  /** The directory reader finds these files, with these paths. */
  lemma {:induction false} AllItems(entries: seq<Node>, dirs: seq<Name>)
    requires AllNamed(entries) && (dirs != [] ==> dirs[0] != "")
    ensures FilesFromAll(entries, Join(dirs)) == ItemsFor(Spots(entries, dirs))
    decreases entries, 1
  {
    if entries != [] {
      EntryItems(entries[0], dirs);
      AllItems(entries[1..], dirs);
      ItemsJoin(SpotsOf(entries[0], dirs), Spots(entries[1..], dirs));
    }
  }

  lemma ItemsJoin(s: seq<Spot>, t: seq<Spot>)
    ensures ItemsFor(s + t) == ItemsFor(s) + ItemsFor(t)
  {
  }

  lemma {:induction false} NodeGoodNamed(entry: Node)
    requires NodeGood(entry)
    ensures NodeNamed(entry)
    decreases entry, 0
  {
    FaithfulName(entry.name);
    if entry.Dir? {
      GoodNamed(entry.children);
    }
  }

  lemma {:induction false} GoodNamed(entries: seq<Node>)
    requires Good(entries)
    ensures AllNamed(entries)
    decreases entries, 1
  {
    if entries != [] {
      NodeGoodNamed(entries[0]);
      GoodNamed(entries[1..]);
    }
  }

  // ---- what the server makes of the form --------------------------------------------------------

  function JobFor(x: Spot): Job { Job(Join(x.dirs), Part("file", x.name, x.body, Eof)) }

  function JobsFor(spots: seq<Spot>): seq<Job> {
    seq(|spots|, i requires 0 <= i < |spots| => JobFor(spots[i]))
  }

  lemma ItemsInit(spots: seq<Spot>)
    requires spots != []
    ensures var n := |spots| - 1;
            ItemsFor(spots)[..n] == ItemsFor(spots[..n]) && ItemsFor(spots)[n] == ItemFor(spots[n])
    ensures var n := |spots| - 1; JobsFor(spots) == JobsFor(spots[..n]) + [JobFor(spots[n])]
  {
  }

  lemma {:induction false} OnePart(parts: seq<Part>, p: Part)
    ensures Root(parts + [p]) == if IsRoot(p) then SafeFilename(p.body) else Root(parts)
    ensures Relative(parts + [p]) == if IsPath(p) then p.body else if IsFile(p) then "" else Relative(parts)
    ensures Jobs(parts + [p]) == if IsFile(p) then Jobs(parts) + [Job(Relative(parts), p)] else Jobs(parts)
  {
    assert (parts + [p])[..|parts|] == parts;
  }

  lemma {:induction false} OneFile(parts: seq<Part>, path: Part, file: Part)
    requires IsPath(path) && IsFile(file)
    ensures Root(parts + [path, file]) == Root(parts)
    ensures Jobs(parts + [path, file]) == Jobs(parts) + [Job(path.body, file)]
  {
    OnePart(parts, path);
    OnePart(parts + [path], file);
    assert parts + [path, file] == parts + [path] + [file];
  }

  lemma {:induction false} FormStarts(root: string)
    requires Faithful(root)
    ensures var parts := FormParts(root, []);
            parts == [Part("root", "", root, Eof)] && Root(parts) == root && Jobs(parts) == []
  {
    OnePart([], Part("root", "", root, Eof));
    assert [] + [Part("root", "", root, Eof)] == [Part("root", "", root, Eof)];
  }

  function PathPart(x: Spot): Part { Part("path", "", Join(x.dirs), Eof) }

  function FilePart(x: Spot): Part { Part("file", x.name, x.body, Eof) }

  lemma {:induction false} FormGrows(root: string, spots: seq<Spot>)
    requires root != "" && spots != []
    ensures var n := |spots| - 1;
            FormParts(root, ItemsFor(spots))
            == FormParts(root, ItemsFor(spots[..n])) + [PathPart(spots[n]), FilePart(spots[n])]
  {
    ItemsInit(spots);
    assert FileParts(root, ItemFor(spots[|spots| - 1])) == [PathPart(spots[|spots| - 1]), FilePart(spots[|spots| - 1])];
  }

  /** The form asks for the folder, and for every file at its path. */
  lemma {:induction false} FormSays(root: string, spots: seq<Spot>)
    requires Faithful(root) && forall i :: 0 <= i < |spots| ==> FaithfulSpot(spots[i])
    ensures Root(FormParts(root, ItemsFor(spots))) == root
    ensures Jobs(FormParts(root, ItemsFor(spots))) == JobsFor(spots)
    decreases |spots|
  {
    if spots == [] {
      FormStarts(root);
      assert ItemsFor(spots) == [] && JobsFor(spots) == [];
    } else {
      var n := |spots| - 1;
      FormSays(root, spots[..n]);
      FormGrows(root, spots);
      ItemsInit(spots);
      FaithfulName(spots[n].name);
      OneFile(FormParts(root, ItemsFor(spots[..n])), PathPart(spots[n]), FilePart(spots[n]));
    }
  }

  /** Everything the server limits. */
  ghost predicate Fits(c: Config, limit: nat, spots: seq<Spot>) {
    && spots != [] && (limit > 0 ==> |spots| <= limit)
    && forall i :: 0 <= i < |spots| ==> |spots[i].body| <= c.maxFileBytes && |Join(spots[i].dirs)| <= MAX_FIELD
  }

  /** A path and a file may follow when there is a root and room for one more file. */
  lemma {:induction false} FileInOrder(limit: nat, before: seq<Part>, path: Part, file: Part)
    requires InOrder(limit, before, |before|) && before != [] && IsRoot(before[0])
    requires IsPath(path) && |path.body| <= MAX_FIELD && path.end.Eof? && IsFile(file)
    requires limit > 0 ==> |Jobs(before)| < limit
    ensures InOrder(limit, before + [path, file], |before| + 2)
  {
    var parts := before + [path, file];
    PartsInOrder(limit, before, parts);
    OnePart(before, path);
    assert parts[..|before| + 1] == before + [path] && parts[0] == before[0];
    assert PartOk(limit, parts, |before|);
    assert PartOk(limit, parts, |before| + 1);
  }

  lemma RootInOrder(limit: nat, root: string)
    requires Faithful(root)
    ensures InOrder(limit, [Part("root", "", root, Eof)], 1)
  {
    FaithfulName(root);
  }

  /** Every part of the form is acceptable where it stands. */
  lemma {:induction false} FormInOrder(c: Config, limit: nat, root: string, spots: seq<Spot>)
    requires Faithful(root) && forall i :: 0 <= i < |spots| ==> FaithfulSpot(spots[i])
    requires spots != [] ==> Fits(c, limit, spots)
    ensures var parts := FormParts(root, ItemsFor(spots));
            InOrder(limit, parts, |parts|) && parts != [] && IsRoot(parts[0])
    decreases |spots|
  {
    if spots == [] {
      FormStarts(root);
      RootInOrder(limit, root);
      assert ItemsFor(spots) == [];
    } else {
      var n := |spots| - 1;
      FormInOrder(c, limit, root, spots[..n]);
      FormSays(root, spots[..n]);
      FormGrows(root, spots);
      FaithfulName(spots[n].name);
      FileInOrder(limit, FormParts(root, ItemsFor(spots[..n])), PathPart(spots[n]), FilePart(spots[n]));
    }
  }

  /** Whether a part is acceptable depends on what comes before it only. */
  lemma PartsInOrder(limit: nat, before: seq<Part>, parts: seq<Part>)
    requires before <= parts && InOrder(limit, before, |before|)
    ensures InOrder(limit, parts, |before|)
  {
    forall i | 0 <= i < |before|
      ensures PartOk(limit, parts, i)
    {
      assert PartOk(limit, before, i) && parts[..i] == before[..i];
    }
  }

  // ---- what arrives -----------------------------------------------------------------------------

  /** The inside of r is this tree: every file at its path with its content, the directories on the
      way to them, and nothing else. */
  ghost predicate Arrived(r: Path, spots: seq<Spot>, v: View) {
    && (forall i :: 0 <= i < |spots| ==>
          r + PathTo(spots[i]) in v.files && v.files[r + PathTo(spots[i])] == spots[i].body)
    && (forall p :: p in v.files ==> exists i :: 0 <= i < |spots| && p == r + PathTo(spots[i]))
    && (forall p :: p in v.dirs <==> exists i :: 0 <= i < |spots| && p in Below(r, spots[i].dirs))
  }

  lemma {:induction false} BelowIs(r: Path, local: seq<Name>, p: Path)
    requires p in Below(r, local)
    ensures r < p && p[|r|..] <= local
    decreases |local|
  {
    if p == r + local {
      assert p[|r|..] == local;
    } else {
      BelowIs(r, local[..|local| - 1], p);
    }
  }

  lemma LocalFor(x: Spot)
    requires FaithfulSpot(x)
    ensures Local(JobFor(x)) == x.dirs && RelativePath(Join(x.dirs)).Some?
    ensures forall r: Path :: Place(r, JobFor(x), 0) == r + PathTo(x)
  {
    RelativeRoundTrip(x.dirs);
    forall r: Path
      ensures Place(r, JobFor(x), 0) == r + PathTo(x)
    {
      assert r + x.dirs + [x.name] == r + (x.dirs + [x.name]);
    }
  }

  /** The path of a file of the tree is free in a folder that holds other files of the tree only. */
  lemma {:induction false} PathIsFree(r: Path, spots: seq<Spot>, v: View, x: Spot)
    requires Arrived(r, spots, v) && FaithfulSpot(x) && ApartFrom(spots, x)
    ensures !InUse(View(v.files, v.dirs + Below(r, x.dirs)), r + PathTo(x))
    ensures forall p :: p in Below(r, x.dirs) ==> p !in v.files
  {
    var q := r + PathTo(x);
    FaithfulName(x.name);
    assert q[|r|..] == PathTo(x) && q[|q| - 1] == x.name;
    if q in Below(r, x.dirs) {
      BelowIs(r, x.dirs, q);
    }
    forall i | 0 <= i < |spots|
      ensures q !in Below(r, spots[i].dirs) && q != r + PathTo(spots[i])
      ensures r + PathTo(spots[i]) !in Below(r, x.dirs)
    {
      var p := r + PathTo(spots[i]);
      assert Apart(spots[i], x);
      assert p[|r|..] == PathTo(spots[i]);
      if q in Below(r, spots[i].dirs) {
        BelowIs(r, spots[i].dirs, q);
      }
      if p in Below(r, x.dirs) {
        BelowIs(r, x.dirs, p);
      }
    }
  }

  lemma FilesMore(r: Path, spots: seq<Spot>, v: View, x: Spot, files: map<Path, Bytes>)
    requires Arrived(r, spots, v) && ApartFrom(spots, x)
    requires files == v.files[r + PathTo(x) := x.body]
    ensures forall i :: 0 <= i < |spots + [x]| ==>
              r + PathTo((spots + [x])[i]) in files && files[r + PathTo((spots + [x])[i])] == (spots + [x])[i].body
  {
    forall i | 0 <= i < |spots|
      ensures r + PathTo(spots[i]) != r + PathTo(x)
    {
      assert Apart(spots[i], x);
      assert (r + PathTo(spots[i]))[|r|..] == PathTo(spots[i]) && (r + PathTo(x))[|r|..] == PathTo(x);
    }
  }

  lemma OnlyFilesMore(r: Path, spots: seq<Spot>, v: View, x: Spot, p: Path)
    requires Arrived(r, spots, v) && (p in v.files || p == r + PathTo(x))
    ensures exists i :: 0 <= i < |spots + [x]| && p == r + PathTo((spots + [x])[i])
  {
    var more := spots + [x];
    if p in v.files {
      var i :| 0 <= i < |spots| && p == r + PathTo(spots[i]);
      assert more[i] == spots[i];
    } else {
      assert p == r + PathTo(more[|spots|]);
    }
  }

  lemma {:induction false} DirsMore(r: Path, spots: seq<Spot>, v: View, x: Spot, p: Path)
    requires Arrived(r, spots, v)
    ensures p in v.dirs + Below(r, x.dirs)
            <==> exists i :: 0 <= i < |spots + [x]| && p in Below(r, (spots + [x])[i].dirs)
  {
    var more := spots + [x];
    assert more[|spots|] == x;
    if p in v.dirs {
      var i :| 0 <= i < |spots| && p in Below(r, spots[i].dirs);
      assert more[i] == spots[i];
    }
  }

  lemma {:induction false} ArrivedMore(r: Path, spots: seq<Spot>, v: View, x: Spot, v': View)
    requires Arrived(r, spots, v) && ApartFrom(spots, x)
    requires v' == View(v.files[r + PathTo(x) := x.body], v.dirs + Below(r, x.dirs))
    ensures Arrived(r, spots + [x], v')
  {
    FilesMore(r, spots, v, x, v'.files);
    forall p | p in v'.files
      ensures exists i :: 0 <= i < |spots + [x]| && p == r + PathTo((spots + [x])[i])
    {
      OnlyFilesMore(r, spots, v, x, p);
    }
    forall p
      ensures p in v'.dirs <==> exists i :: 0 <= i < |spots + [x]| && p in Below(r, (spots + [x])[i].dirs)
    {
      DirsMore(r, spots, v, x, p);
    }
  }

  lemma {:induction false} FirstIsFree(r: Path, v: View, st: Stowed)
    requires FirstFree(r, v, st) && !InUse(Opened(r, v, st.job), Place(r, st.job, 0))
    ensures st.index == 0
  {
  }

  /** The next file of the tree keeps its name. */
  lemma ArrivesNext(r: Path, spots: seq<Spot>, v: View, x: Spot, st: Stowed)
    requires Arrived(r, spots, v) && FaithfulSpot(x) && ApartFrom(spots, x)
    requires st.job == JobFor(x) && FirstFree(r, v, st)
    ensures st.index == 0 && Arrived(r, spots + [x], Added(r, v, st))
  {
    LocalFor(x);
    PathIsFree(r, spots, v, x);
    FirstIsFree(r, v, st);
    ArrivedMore(r, spots, v, x, Added(r, v, st));
  }

  lemma ApartBefore(spots: seq<Spot>, m: nat)
    requires Tree(spots) && m < |spots|
    ensures FaithfulSpot(spots[m]) && ApartFrom(spots[..m], spots[m])
  {
  }

  lemma {:induction false} ArrivesStep(r: Path, spots: seq<Spot>, stowed: seq<Stowed>, m: nat, n: nat)
    requires Tree(spots) && m + 1 == n <= |stowed| <= |spots| && EachFirstFree(r, stowed)
    requires stowed[m].job == JobFor(spots[m]) && Arrived(r, spots[..m], Filled(r, stowed[..m]))
    ensures stowed[m].index == 0 && Arrived(r, spots[..n], Filled(r, stowed[..n]))
  {
    assert FirstFree(r, Filled(r, stowed[..m]), stowed[m]);
    ArrivesAt(r, spots, Filled(r, stowed[..m]), m, stowed[m]);
    FilledMore(r, stowed, m);
  }

  lemma ArrivesAt(r: Path, spots: seq<Spot>, v: View, m: nat, st: Stowed)
    requires Tree(spots) && m < |spots| && Arrived(r, spots[..m], v)
    requires st.job == JobFor(spots[m]) && FirstFree(r, v, st)
    ensures st.index == 0 && Arrived(r, spots[..m + 1], Added(r, v, st))
  {
    SpotsMore(spots, m);
    ApartBefore(spots, m);
    ArrivesNext(r, spots[..m], v, spots[m], st);
  }

  lemma SpotsMore(spots: seq<Spot>, m: nat)
    requires m < |spots|
    ensures spots[..m + 1] == spots[..m] + [spots[m]]
  {
  }

  predicate Carries(stowed: seq<Stowed>, spots: seq<Spot>) {
    && |stowed| <= |spots|
    && forall i {:trigger JobFor(spots[i])} :: 0 <= i < |stowed| ==> stowed[i].job == JobFor(spots[i])
  }

  /** Filling an empty folder with the files of a tree yields the tree. */
  lemma {:induction false} Arrives(r: Path, spots: seq<Spot>, stowed: seq<Stowed>, n: nat)
    requires Tree(spots) && n <= |stowed| && Carries(stowed, spots) && EachFirstFree(r, stowed)
    ensures Arrived(r, spots[..n], Filled(r, stowed[..n]))
    decreases n
  {
    if n > 0 {
      Arrives(r, spots, stowed, n - 1);
      assert stowed[n - 1].job == JobFor(spots[n - 1]);
      ArrivesStep(r, spots, stowed, n - 1, n);
    }
  }

  /** And every file keeps its name. */
  lemma ArrivesNamed(r: Path, spots: seq<Spot>, stowed: seq<Stowed>, i: nat)
    requires Tree(spots) && i < |stowed| && Carries(stowed, spots) && EachFirstFree(r, stowed)
    ensures stowed[i].index == 0 && PlaceOf(r, stowed[i]) == r + PathTo(spots[i])
  {
    Arrives(r, spots, stowed, i);
    assert stowed[i].job == JobFor(spots[i]);
    ArrivesStep(r, spots, stowed, i, i + 1);
    assert FaithfulSpot(spots[i]);
    LocalFor(spots[i]);
  }

  lemma Delivered(c: Config, h: Span, spots: seq<Spot>, d0: Disk, d: Disk, wk: Worker, w: Id, stowed: seq<Stowed>)
    requires Tree(spots) && JobsOf(stowed) == JobsFor(spots) && wk.folder.Some?
    requires Progress(c, h, d0, d, wk, w, stowed)
    ensures Base(c, wk) !in d0.dirs && Arrived(Base(c, wk), spots, Inside(d, Base(c, wk)))
    ensures Uploads.Names(wk.folder, stowed)
            == seq(|spots|, i requires 0 <= i < |spots| => [wk.folder.value] + PathTo(spots[i]))
  {
    CarriesAll(stowed, spots);
    AllArrive(Base(c, wk), spots, stowed);
    NamesArrive(Base(c, wk), wk.folder.value, spots, stowed);
  }

  lemma {:induction false} AllArrive(r: Path, spots: seq<Spot>, stowed: seq<Stowed>)
    requires Tree(spots) && |stowed| == |spots| && Carries(stowed, spots) && EachFirstFree(r, stowed)
    ensures Arrived(r, spots, Filled(r, stowed))
  {
    Arrives(r, spots, stowed, |spots|);
    assert spots[..|spots|] == spots && stowed[..|spots|] == stowed;
  }

  lemma CarriesAll(stowed: seq<Stowed>, spots: seq<Spot>)
    requires JobsOf(stowed) <= JobsFor(spots)
    ensures Carries(stowed, spots) && |stowed| == |JobsOf(stowed)|
  {
    forall i | 0 <= i < |stowed|
      ensures stowed[i].job == JobFor(spots[i])
    {
      assert JobsOf(stowed)[i] == JobsFor(spots)[i];
    }
  }

  lemma NamesArrive(r: Path, folder: Name, spots: seq<Spot>, stowed: seq<Stowed>)
    requires Tree(spots) && |stowed| == |spots| && Carries(stowed, spots) && EachFirstFree(r, stowed)
    ensures Uploads.Names(Some(folder), stowed)
            == seq(|spots|, i requires 0 <= i < |spots| => [folder] + PathTo(spots[i]))
  {
    forall i | 0 <= i < |spots|
      ensures PlaceOf([folder], stowed[i]) == [folder] + PathTo(spots[i])
    {
      ArrivesNamed(r, spots, stowed, i);
      SamePlace(r, [folder], stowed[i], PathTo(spots[i]));
    }
  }

  lemma SamePlace(r: Path, q: Path, x: Stowed, path: seq<Name>)
    requires PlaceOf(r, x) == r + path
    ensures PlaceOf(q, x) == q + path
  {
    var below := Local(x.job) + [FileCandidate(SafeFilename(x.job.part.filename), x.index)];
    assert PlaceOf(r, x) == r + below && PlaceOf(q, x) == q + below;
    assert (r + path)[|r|..] == path && (r + below)[|r|..] == below;
  }

  /** No file of a tree is in the way of another. */
  lemma {:induction false} NextNotBlocked(r: Path, spots: seq<Spot>, stowed: seq<Stowed>, n: nat)
    requires Tree(spots) && n == |stowed| < |spots| && Carries(stowed, spots) && EachFirstFree(r, stowed)
    ensures forall p :: p in Below(r, Local(JobFor(spots[n]))) ==> p !in Filled(r, stowed).files
  {
    Arrives(r, spots, stowed, n);
    assert stowed[..n] == stowed;
    ApartBefore(spots, n);
    LocalFor(spots[n]);
    PathIsFree(r, spots[..n], Filled(r, stowed), spots[n]);
  }

  /** The candidates of the next file of the tree are not all in use. */
  lemma {:induction false} NextHasName(r: Path, spots: seq<Spot>, stowed: seq<Stowed>, n: nat)
    requires Tree(spots) && n == |stowed| < |spots| && Carries(stowed, spots) && EachFirstFree(r, stowed)
    ensures !AllInUse(r, Opened(r, Filled(r, stowed), JobFor(spots[n])), JobFor(spots[n]), ATTEMPTS)
  {
    Arrives(r, spots, stowed, n);
    assert stowed[..n] == stowed;
    ApartBefore(spots, n);
    LocalFor(spots[n]);
    PathIsFree(r, spots[..n], Filled(r, stowed), spots[n]);
    assert !InUse(Opened(r, Filled(r, stowed), JobFor(spots[n])), Place(r, JobFor(spots[n]), 0));
  }

  lemma {:induction false} TreeSound(c: Config, limit: nat, spots: seq<Spot>, parts: seq<Part>)
    requires Tree(spots) && Fits(c, limit, spots) && Jobs(parts) == JobsFor(spots)
    ensures AllSound(c, Jobs(parts))
  {
    forall j | 0 <= j < |spots|
      ensures Sound(c, JobsFor(spots)[j])
    {
      ApartBefore(spots, j);
      FaithfulName(spots[j].name);
      LocalFor(spots[j]);
    }
  }

  /** The only things that keep a tree that fits the limits from arriving: a call failed, or all names
      for the folder are taken, or at some moment a quota had no room for one more of the files. */
  ghost predicate Excused(c: Config, h: Span, d: Disk, w: Id, home: Path, spots: seq<Spot>, why: Trouble) {
    || IoFailed(h, w)
    || (why == FolderExhausted && |EntriesOf(d, home)| >= 10_000)
    || (why == StoreTrouble(QuotaExceeded)
        && (Refused(c, h, w, ByFiles, 1) || exists i :: 0 <= i < |spots| && Refused(c, h, w, ByBytes, |spots[i].body|)))
  }

  /** The job at which a folder upload stops is the next file of the tree. */
  lemma {:induction false} NextJob(spots: seq<Spot>, parts: seq<Part>, stop: nat, stowed: seq<Stowed>)
    requires Jobs(parts) == JobsFor(spots) && stop < |parts| && IsFile(parts[stop])
    requires JobsOf(stowed) == Jobs(parts[..stop])
    ensures |stowed| < |spots| && JobAt(parts, stop) == JobFor(spots[|stowed|]) && Carries(stowed, spots)
  {
    JobIs(parts, stop);
    CarriesAll(stowed, spots);
  }

  lemma {:induction false} RootFaithful(root: string)
    requires Faithful(root)
    ensures root != "" && SafeFilename(root) == root && root !in {"", ".."} && Ordinary(root) && '/' !in root
  {
    FaithfulName(root);
  }

  lemma {:induction false} FolderNames(c: Config, h: Span, s: State, home: Path, root: string)
    requires Starts(c, h.start) && Exec(c, h.start, h.to) == Some(s) && Faithful(root)
    requires TriedFolders(c, h, home, SafeFilename(root), ATTEMPTS)
    ensures |EntriesOf(s.disk, home)| >= 10_000
  {
    RootFaithful(root);
    TriedFoldersTaken(c, h, s, home, root, ATTEMPTS);
    FoldersExhausted(s.disk, home, root);
  }

  /** What stopped the upload of a tree excuses it. */
  lemma {:induction false} TroubleExcused(c: Config, h: Span, s: State, wk: Worker, w: Id, root: string,
                                          spots: seq<Spot>,
                                          stowed: seq<Stowed>, t: Trouble)
    requires Starts(c, h.start) && Exec(c, h.start, h.to) == Some(s) && Faithful(root) && root != ""
    requires Tree(spots) && |stowed| < |spots| && Carries(stowed, spots) && EachFirstFree(Base(c, wk), stowed)
    requires Sound(c, JobFor(spots[|stowed|]))
    requires Explained(c, h, wk, w, root, stowed, JobFor(spots[|stowed|]), t)
    ensures Excused(c, h, s.disk, w, Home(c, wk), spots, t)
  {
    match t
    case FolderInvalid => RootFaithful(root);
    case FolderExhausted => FolderNames(c, h, s, Home(c, wk), root);
    case PathBlocked => NextNotBlocked(Base(c, wk), spots, stowed, |stowed|);
    case StoreTrouble(failure) => StoreExcused(c, h, s.disk, wk, w, root, spots, stowed, failure);
    case _ =>
  }

  lemma {:induction false} StoreExcused(c: Config, h: Span, d: Disk, wk: Worker, w: Id, root: string, spots: seq<Spot>,
                                        stowed: seq<Stowed>, failure: Failure)
    requires root != "" && Tree(spots) && |stowed| < |spots| && Carries(stowed, spots)
    requires EachFirstFree(Base(c, wk), stowed) && Sound(c, JobFor(spots[|stowed|]))
    requires Explained(c, h, wk, w, root, stowed, JobFor(spots[|stowed|]), StoreTrouble(failure))
    ensures Excused(c, h, d, w, Home(c, wk), spots, StoreTrouble(failure))
  {
    NextHasName(Base(c, wk), spots, stowed, |stowed|);
    assert Demand(c, JobFor(spots[|stowed|]).part.body) == |spots[|stowed|].body|;
  }

  lemma {:induction false} TreeExcused(c: Config, h: Span, limit: nat, root: string, spots: seq<Spot>, parts: seq<Part>,
                                       s1: State, s: State, w: Id, response: Response, recorded: seq<nat>, a: Account)
    requires Faithful(root) && Tree(spots) && Fits(c, limit, spots)
    requires Jobs(parts) == JobsFor(spots) && Root(parts) == root && Acceptable(limit, parts, Eof)
    requires Served(c, h, limit, parts, Eof, s1, s, w, response, recorded, a) && a.why.Some?
    ensures Excused(c, h, s.disk, w, Home(c, s.workers[w]), spots, a.why.value)
  {
    if !a.why.value.HomeTrouble? {
      var wk := s.workers[w];
      NextJob(spots, parts, a.stop, a.stowed);
      TreeSound(c, limit, spots, parts);
      RootFixed(limit, parts, a.stop, |parts|);
      assert parts[..|parts|] == parts && Jobs(parts)[|a.stowed|] == JobFor(spots[|a.stowed|]);
      TreeFolder(c, h, wk, w, root, a.stowed, JobAt(parts, a.stop), a.why.value, spots);
      TroubleExcused(c, h, s, wk, w, root, spots, a.stowed, a.why.value);
    }
  }

  /** Without a folder nothing has been stored, and that is in order everywhere. */
  lemma {:induction false} TreeFolder(c: Config, h: Span, wk: Worker, w: Id, root: string, stowed: seq<Stowed>,
                                      job: Job,
                                      t: Trouble, spots: seq<Spot>)
    requires Explained(c, h, wk, w, root, stowed, job, t)
    requires wk.folder.Some? ==> EachFirstFree(Base(c, wk), stowed)
    requires stowed != [] ==> wk.folder.Some?
    ensures EachFirstFree(Base(c, wk), stowed)
  {
  }

  /** A folder upload that fits the limits. Unless it is excused it is answered with 201; and then the
      new folder, named root or the first "root (k)" that could be had, holds exactly the tree. */
  lemma {:induction false} FolderArrives(c: Config, h: Span, limit: nat, root: string, spots: seq<Spot>, s1: State,
                                         s: State, w: Id, response: Response, recorded: seq<nat>, a: Account)
    requires Faithful(root) && Tree(spots) && Fits(c, limit, spots)
    requires Served(c, h, limit, FormParts(root, ItemsFor(spots)), Eof, s1, s, w, response, recorded, a)
    ensures response.Created? <==> a.why.None?
    ensures a.why.Some? ==> Excused(c, h, s.disk, w, Home(c, s.workers[w]), spots, a.why.value)
    ensures response.Created? ==>
              var wk := s.workers[w];
              && wk.folder.Some? && Named(c, h, wk, root) && Base(c, wk) !in s1.disk.dirs
              && Arrived(Base(c, wk), spots, Inside(s.disk, Base(c, wk)))
              && response.files == seq(|spots|, i requires 0 <= i < |spots| => [wk.folder.value] + PathTo(spots[i]))
  {
    var parts := FormParts(root, ItemsFor(spots));
    FormSays(root, spots);
    FormInOrder(c, limit, root, spots);
    CreatedExactlyWhen(limit, parts, Eof, a.stop, a.why, response);
    if response.Created? {
      assert parts[..|parts|] == parts;
      assert |JobsOf(a.stowed)| == |a.stowed|;
      FaithfulName(root);
      Delivered(c, h, spots, s1.disk, s.disk, s.workers[w], w, a.stowed);
    } else {
      TreeExcused(c, h, limit, root, spots, parts, s1, s, w, response, recorded, a);
    }
  }

  /** No call fails, the folder has a name left, and the quotas have room: the tree arrives. */
  lemma {:induction false} TreeArrives(c: Config, h: Span, limit: nat, root: string, spots: seq<Spot>, s1: State,
                                       s: State, w: Id, response: Response, recorded: seq<nat>, a: Account)
    requires Faithful(root) && Tree(spots) && Fits(c, limit, spots)
    requires Served(c, h, limit, FormParts(root, ItemsFor(spots)), Eof, s1, s, w, response, recorded, a)
    requires !IoFailed(h, w) && |EntriesOf(s.disk, Home(c, s.workers[w]))| < 10_000
    requires HasRoom(c, h, w, ByFiles, JobsFor(spots)) && HasRoom(c, h, w, ByBytes, JobsFor(spots))
    ensures response.Created?
  {
    FormSays(root, spots);
    FolderArrives(c, h, limit, root, spots, s1, s, w, response, recorded, a);
    NoQuotaTrouble(c, h, limit, FormParts(root, ItemsFor(spots)), Eof, s1, s, w, response, recorded, a);
  }

  /** With no other request of the identity at work, it arrives if and only if the ledgers leave room
      for it when it begins. */
  lemma {:induction false} TreeArrivesIffFits(c: Config, h: Span, limit: nat, root: string, spots: seq<Spot>, s1: State,
                                              s: State, w: Id, response: Response, recorded: seq<nat>, a: Account)
    requires Faithful(root) && Tree(spots) && Fits(c, limit, spots)
    requires Served(c, h, limit, FormParts(root, ItemsFor(spots)), Eof, s1, s, w, response, recorded, a)
    requires !IoFailed(h, w) && |EntriesOf(s.disk, Home(c, s.workers[w]))| < 10_000 && Alone(c, h, w)
    ensures response.Created? <==>
              QuotaFits(c, s1, w, ByFiles, JobsFor(spots)) && QuotaFits(c, s1, w, ByBytes, JobsFor(spots))
  {
    var parts := FormParts(root, ItemsFor(spots));
    FormSays(root, spots);
    if response.Created? {
      StoredIsPrefix(c, h, limit, parts, Eof, s1.disk, s.disk, s.workers[w], w, response, recorded, a);
      StoredMeansFits(c, h, s1, s, w, ByFiles, Base(c, s.workers[w]), a.stowed);
      StoredMeansFits(c, h, s1, s, w, ByBytes, Base(c, s.workers[w]), a.stowed);
    } else if QuotaFits(c, s1, w, ByFiles, JobsFor(spots)) && QuotaFits(c, s1, w, ByBytes, JobsFor(spots)) {
      FitsMeansRoom(c, h, s1, s, w, ByFiles, JobsFor(spots));
      FitsMeansRoom(c, h, s1, s, w, ByBytes, JobsFor(spots));
      TreeArrives(c, h, limit, root, spots, s1, s, w, response, recorded, a);
    }
  }

  /** Dropping a folder on the page, while any number of other uploads run. */
  method UploadTree(s: Server, w: Id, user: User, limit: nat, root: string, children: seq<Node>)
    returns (response: Response, ghost a: Account, ghost h: Span)
    requires s.Valid() && w !in s.workers && Admits(s.c, s.workers, user.subject)
    requires Faithful(root) && Good(children) && Fits(s.c, limit, Spots(children, []))
    modifies s, s.quota, s.slots
    ensures s.Valid() && w in s.workers && s.workers[w].user == user
    ensures h == s.Since(old(s.trace) + [Act(w, Event.Begin(user))]) && h.from <= h.to
    ensures response.Created? <==> a.why.None?
    ensures a.why.Some? ==> Excused(s.c, h, s.disk, w, [s.c.home(user)], Spots(children, []), a.why.value)
    ensures && !IoFailed(h, w) && |EntriesOf(s.disk, [s.c.home(user)])| < 10_000
            && HasRoom(s.c, h, w, ByFiles, JobsFor(Spots(children, [])))
            && HasRoom(s.c, h, w, ByBytes, JobsFor(Spots(children, []))) ==>
              response.Created?
    ensures response.Created? ==>
              && s.workers[w].folder.Some? && Named(s.c, h, s.workers[w], root)
              && var r := [s.c.home(user), s.workers[w].folder.value];
              && r !in old(s.disk.dirs) && Arrived(r, Spots(children, []), Inside(s.disk, r))
  {
    ghost var s1 := Admitted(s.c, s.start, s.trace, s.Now(), w, user);
    var body := Send(root, FilesFromDirectory(children));
    FormOfTree(root, children);
    var recorded;
    response, recorded, a := Upload(s, w, user, limit, Multipart(body, Eof));
    h := s.Since(old(s.trace) + [Act(w, Event.Begin(user))]);
    AllTree(children, []);
    FolderArrives(s.c, h, limit, root, Spots(children, []), s1, s.Now(), w, response, recorded, a);
    if !IoFailed(h, w) && |EntriesOf(s.disk, [s.c.home(user)])| < 10_000
       && HasRoom(s.c, h, w, ByFiles, JobsFor(Spots(children, [])))
       && HasRoom(s.c, h, w, ByBytes, JobsFor(Spots(children, []))) {
      TreeArrives(s.c, h, limit, root, Spots(children, []), s1, s.Now(), w, response, recorded, a);
    }
  }

  lemma {:induction false} FormOfTree(root: string, children: seq<Node>)
    requires Good(children)
    ensures FormParts(root, FilesFromDirectory(children)) == FormParts(root, ItemsFor(Spots(children, [])))
  {
    GoodNamed(children);
    AllItems(children, []);
  }

  // ---- one file -----------------------------------------------------------------------------------

  /** The form of a single file says so: no folder, and the file. */
  lemma {:induction false} SingleForm(limit: nat, item: Item)
    requires item.name != ""
    ensures var parts := FormParts("", [item]);
            && parts == [Part("file", item.name, item.body, Eof)] && Root(parts) == ""
            && Jobs(parts) == [Job("", Part("file", item.name, item.body, Eof))] && InOrder(limit, parts, 1)
  {
    var file := Part("file", item.name, item.body, Eof);
    assert [item][..0] == [] && FormParts("", [item]) == [] + [file] == [file];
    OnePart([], file);
    assert [file][..0] == [];
  }

  /** The file is in the user's own directory, whole, under the first candidate of its sanitised name that
      could be had, and the answer says which. */
  ghost predicate FileStored(c: Config, h: Span, d0: Disk, d: Disk, w: Id, home: Path, item: Item, response: Response) {
    exists k: nat ::
      && k < 10_000 && response == Created([[FileCandidate(SafeFilename(item.name), k)]])
      && var p := home + [FileCandidate(SafeFilename(item.name), k)];
      && p !in d0.settled && p in d.settled && d.settled[p] == Settled(d.settled[p].ino, item.body, Some(w))
      && TriedFiles(c, h, home, SafeFilename(item.name), k)
  }

  /** What a single file's trouble can be. */
  ghost predicate FileExcused(c: Config, h: Span, d: Disk, w: Id, home: Path, item: Item, why: Trouble) {
    || IoFailed(h, w)
    || (why == StoreTrouble(TooManyNames) && |EntriesOf(d, home)| >= 9_999)
    || (why == StoreTrouble(QuotaExceeded)
        && (Refused(c, h, w, ByFiles, 1) || Refused(c, h, w, ByBytes, |item.body|)))
  }

  lemma {:induction false} SingleStored(c: Config, h: Span, d0: Disk, d: Disk, wk: Worker, w: Id, item: Item,
                                        stowed: seq<Stowed>, response: Response)
    requires Progress(c, h, d0, d, wk, w, stowed) && wk.folder.None?
    requires JobsOf(stowed) == [Job("", Part("file", item.name, item.body, Eof))]
    requires response == Created(Uploads.Names(wk.folder, stowed))
    ensures FileStored(c, h, d0, d, w, Home(c, wk), item, response)
  {
    assert |stowed| == |JobsOf(stowed)| == 1;
    var x := stowed[0];
    assert JobsOf(stowed)[0] == x.job && IsStored(c, h, d0, d, w, Base(c, wk), x);
    var name := FileCandidate(SafeFilename(item.name), x.index);
    assert Local(x.job) == [] && Home(c, wk) + [] == Home(c, wk);
    assert PlaceOf([], x) == [name] && PlaceOf(Base(c, wk), x) == Home(c, wk) + [name];
    assert Uploads.Names(wk.folder, stowed) == [[name]];
  }

  /** A single file within the limit that has a name. Unless it is excused it is answered with 201. */
  lemma {:induction false} FileArrives(c: Config, h: Span, limit: nat, item: Item, s1: State, s: State, w: Id,
                                       response: Response, recorded: seq<nat>, a: Account)
    requires SafeFilename(item.name) != "" && item.name != "" && |item.body| <= c.maxFileBytes
    requires Served(c, h, limit, FormParts("", [item]), Eof, s1, s, w, response, recorded, a)
    ensures response.Created? <==> a.why.None?
    ensures a.why.Some? ==> FileExcused(c, h, s.disk, w, Home(c, s.workers[w]), item, a.why.value)
    ensures response.Created? ==> FileStored(c, h, s1.disk, s.disk, w, Home(c, s.workers[w]), item, response)
  {
    var (parts, wk) := (FormParts("", [item]), s.workers[w]);
    SingleForm(limit, item);
    CreatedExactlyWhen(limit, parts, Eof, a.stop, a.why, response);
    assert parts[..1] == parts && parts[..0] == [];
    if response.Created? {
      SingleStored(c, h, s1.disk, s.disk, wk, w, item, a.stowed, response);
    } else if !a.why.value.HomeTrouble? {
      SingleExcused(c, h, s, wk, w, item, a.stowed, a.why.value);
    }
  }

  lemma {:induction false} SingleExcused(c: Config, h: Span, s: State, wk: Worker, w: Id, item: Item,
                                         stowed: seq<Stowed>, t: Trouble)
    requires Starts(c, h.start) && Exec(c, h.start, h.to) == Some(s) && wk.folder.None?
    requires SafeFilename(item.name) != "" && |item.body| <= c.maxFileBytes
    requires Explained(c, h, wk, w, "", stowed, Job("", Part("file", item.name, item.body, Eof)), t)
    ensures FileExcused(c, h, s.disk, w, Home(c, wk), item, t)
  {
    var job := Job("", Part("file", item.name, item.body, Eof));
    assert Filling.Dir(Base(c, wk), job) == Home(c, wk);
    if t == StoreTrouble(TooManyNames) && |EntriesOf(s.disk, Home(c, wk))| < 9_999 {
      NotOutOfNames(c, h, s, Home(c, wk), item.name);
    }
  }

  lemma {:induction false} SingleRoom(c: Config, h: Span, w: Id, job: Job)
    requires |job.part.body| <= c.maxFileBytes && LeavesRoom(c, h, w, ByFiles, 1)
    requires |job.part.body| > 0 ==> LeavesRoom(c, h, w, ByBytes, |job.part.body|)
    ensures HasRoom(c, h, w, ByFiles, [job]) && HasRoom(c, h, w, ByBytes, [job])
  {
    assert [job] == [] + [job];
    NeedMore(c, ByFiles, [], job);
    NeedMore(c, ByBytes, [], job);
  }

  /** No call fails, names are left in the directory, and the quotas have room: the file arrives. */
  lemma {:induction false} FileArrivesWithRoom(c: Config, h: Span, limit: nat, item: Item, s1: State, s: State, w: Id,
                                               response: Response, recorded: seq<nat>, a: Account)
    requires SafeFilename(item.name) != "" && item.name != "" && |item.body| <= c.maxFileBytes
    requires Served(c, h, limit, FormParts("", [item]), Eof, s1, s, w, response, recorded, a)
    requires !IoFailed(h, w) && |EntriesOf(s.disk, Home(c, s.workers[w]))| < 9_999
    requires LeavesRoom(c, h, w, ByFiles, 1) && (|item.body| > 0 ==> LeavesRoom(c, h, w, ByBytes, |item.body|))
    ensures response.Created?
  {
    SingleForm(limit, item);
    FileArrives(c, h, limit, item, s1, s, w, response, recorded, a);
    SingleRoom(c, h, w, Job("", Part("file", item.name, item.body, Eof)));
    NoQuotaTrouble(c, h, limit, FormParts("", [item]), Eof, s1, s, w, response, recorded, a);
  }

  /** Picking or dropping one file on the page, while any number of other uploads run. */
  method UploadFile(s: Server, w: Id, user: User, limit: nat, item: Item)
    returns (response: Response, ghost a: Account, ghost h: Span)
    requires s.Valid() && w !in s.workers && Admits(s.c, s.workers, user.subject)
    requires SafeFilename(item.name) != "" && item.name != "" && |item.body| <= s.c.maxFileBytes
    modifies s, s.quota, s.slots
    ensures s.Valid() && w in s.workers && s.workers[w].user == user
    ensures h == s.Since(old(s.trace) + [Act(w, Event.Begin(user))]) && h.from <= h.to
    ensures response.Created? <==> a.why.None?
    ensures a.why.Some? ==> FileExcused(s.c, h, s.disk, w, [s.c.home(user)], item, a.why.value)
    ensures && !IoFailed(h, w) && |EntriesOf(s.disk, [s.c.home(user)])| < 9_999
            && LeavesRoom(s.c, h, w, ByFiles, 1)
            && (|item.body| > 0 ==> LeavesRoom(s.c, h, w, ByBytes, |item.body|)) ==>
              response.Created?
    ensures response.Created? ==> FileStored(s.c, h, old(s.disk), s.disk, w, [s.c.home(user)], item, response)
  {
    ghost var s1 := Admitted(s.c, s.start, s.trace, s.Now(), w, user);
    var body := Send("", [item]);
    var recorded;
    response, recorded, a := Upload(s, w, user, limit, Multipart(body, Eof));
    h := s.Since(old(s.trace) + [Act(w, Event.Begin(user))]);
    FileArrives(s.c, h, limit, item, s1, s.Now(), w, response, recorded, a);
    if !IoFailed(h, w) && |EntriesOf(s.disk, [s.c.home(user)])| < 9_999 && LeavesRoom(s.c, h, w, ByFiles, 1)
       && (|item.body| > 0 ==> LeavesRoom(s.c, h, w, ByBytes, |item.body|)) {
      FileArrivesWithRoom(s.c, h, limit, item, s1, s.Now(), w, response, recorded, a);
    }
  }
}
