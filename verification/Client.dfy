/** The browser's side: how files and directory trees become the parts of an upload
    (internal/dumpbox/assets/app.js:28-84 and 127-134). */
module Client {
  import opened Paths
  import opened Protocol
  import opened Server

  /** A file of a file picker; relativePath is its webkitRelativePath. */
  datatype File = File(name: string, body: Bytes, relativePath: string)

  /** A file to send, with the path of its directory below the root. */
  datatype Item = Item(name: string, body: Bytes, path: string)

  /** What becomes one upload: a file, or a folder with its files. */
  datatype Entry = Loose(item: Item) | Folder(root: string, items: seq<Item>)

  /** path.split("/").filter(Boolean) */
  function Segments(path: string): seq<string> { NonEmpty(Split(path)) }

  function NonEmpty(s: seq<string>): seq<string> {
    if s == [] then [] else (if s[0] == "" then [] else [s[0]]) + NonEmpty(s[1..])
  }

  predicate InFolder(f: File) { |Segments(f.relativePath)| >= 2 }

  function RootOf(f: File): string
    requires InFolder(f)
  {
    Segments(f.relativePath)[0]
  }

  predicate Under(f: File, root: string) { InFolder(f) && RootOf(f) == root }

  function ItemOf(f: File): Item {
    var parts := Segments(f.relativePath);
    Item(f.name, f.body, if |parts| < 2 then "" else Join(parts[1..|parts| - 1]))
  }

  lemma {:induction false} NoneEmpty(s: seq<string>)
    requires forall i :: 0 <= i < |s| ==> s[i] != ""
    ensures NonEmpty(s) == s
    decreases |s|
  {
    if s != [] {
      NoneEmpty(s[1..]);
      assert [s[0]] + s[1..] == s;
    }
  }

  /** A file picked in a folder goes below the first element of its path, at the elements between the
      first and the last. */
  lemma {:induction false} PickedInFolder(f: File, root: string, dirs: seq<string>, last: string)
    requires forall i :: 0 <= i < |[root] + dirs + [last]| ==>
               ([root] + dirs + [last])[i] != "" && '/' !in ([root] + dirs + [last])[i]
    requires f.relativePath == Join([root] + dirs + [last])
    ensures InFolder(f) && RootOf(f) == root && ItemOf(f) == Item(f.name, f.body, Join(dirs))
  {
    var segments := [root] + dirs + [last];
    SplitJoin(segments);
    NoneEmpty(segments);
    assert segments[1..|segments| - 1] == dirs;
  }

  /** A file picked on its own is in no folder. */
  lemma {:induction false} PickedAlone(f: File)
    requires '/' !in f.relativePath
    ensures !InFolder(f) && ItemOf(f) == Item(f.name, f.body, "")
  {
    SplitSegment(f.relativePath, "");
    assert [f.relativePath][1..] == [];
  }

  // ---- grouping, as a reader would define it ----------------------------------------------------

  /** The files of one root, in input order. */
  function ItemsUnder(files: seq<File>, root: string): seq<Item> {
    if files == [] then []
    else if Under(files[0], root) then [ItemOf(files[0])] + ItemsUnder(files[1..], root)
    else ItemsUnder(files[1..], root)
  }

  function Outside(files: seq<File>, root: string): (rest: seq<File>)
    ensures |rest| <= |files|
  {
    if files == [] then []
    else if Under(files[0], root) then Outside(files[1..], root)
    else [files[0]] + Outside(files[1..], root)
  }

  /** Each root at the place of its first file, with all of its files in input order. */
  function Grouped(files: seq<File>): seq<Entry>
    decreases |files|
  {
    if files == [] then []
    else if !InFolder(files[0]) then [Loose(ItemOf(files[0]))] + Grouped(files[1..])
    else
      var root := RootOf(files[0]);
      [Folder(root, [ItemOf(files[0])] + ItemsUnder(files[1..], root))] + Grouped(Outside(files[1..], root))
  }

  function ItemsIn(entries: seq<Entry>): seq<Item> {
    if entries == [] then []
    else (match entries[0] case Loose(item) => [item] case Folder(_, items) => items) + ItemsIn(entries[1..])
  }

  function Items(files: seq<File>): seq<Item> {
    if files == [] then [] else [ItemOf(files[0])] + Items(files[1..])
  }

  lemma {:induction false} ItemsSplit(files: seq<File>, root: string)
    ensures multiset(Items(files)) == multiset(ItemsUnder(files, root)) + multiset(Items(Outside(files, root)))
    decreases |files|
  {
    if files != [] {
      ItemsSplit(files[1..], root);
      if !Under(files[0], root) {
        assert Outside(files, root)[1..] == Outside(files[1..], root);
      }
    }
  }

  /** Grouping keeps every file exactly once. */
  lemma {:induction false} GroupingKeepsAll(files: seq<File>)
    ensures multiset(ItemsIn(Grouped(files))) == multiset(Items(files))
    decreases |files|
  {
    if files != [] {
      if !InFolder(files[0]) {
        GroupingKeepsAll(files[1..]);
        assert Grouped(files)[1..] == Grouped(files[1..]);
      } else {
        var root := RootOf(files[0]);
        var rest := Outside(files[1..], root);
        ItemsSplit(files[1..], root);
        GroupingKeepsAll(rest);
        assert Grouped(files)[1..] == Grouped(rest);
      }
    }
  }

  lemma {:induction false} OutsideOther(files: seq<File>, root: string, other: string)
    ensures ItemsUnder(Outside(files, root), root) == []
    ensures other != root ==> ItemsUnder(Outside(files, root), other) == ItemsUnder(files, other)
    decreases |files|
  {
    if files != [] {
      OutsideOther(files[1..], root, other);
      if !Under(files[0], root) {
        assert Outside(files, root)[1..] == Outside(files[1..], root);
      }
    }
  }

  /** A folder holds exactly the files of its root, in the order they came in; no root comes twice. */
  lemma {:induction false} GroupingIsStable(files: seq<File>, i: nat)
    requires i < |Grouped(files)| && Grouped(files)[i].Folder?
    ensures Grouped(files)[i].items == ItemsUnder(files, Grouped(files)[i].root) != []
    ensures forall j :: 0 <= j < |Grouped(files)| && j != i && Grouped(files)[j].Folder? ==>
              Grouped(files)[j].root != Grouped(files)[i].root
    decreases |files|
  {
    var all := Grouped(files);
    if !InFolder(files[0]) {
      GroupingIsStable(files[1..], i - 1);
    } else {
      var root := RootOf(files[0]);
      var rest := Outside(files[1..], root);
      forall j: nat | 0 < j < |all| && all[j].Folder?
        ensures all[j].root != root && all[j].items == ItemsUnder(files, all[j].root) != []
      {
        GroupingIsStable(rest, j - 1);
        OutsideOther(files[1..], root, all[j].root);
      }
      if i > 0 {
        GroupingIsStable(rest, i - 1);
      }
    }
  }

  // ---- the loop of entriesFromFiles -------------------------------------------------------------

  /** One more file: at the end of its folder's files, or a new entry at the end. */
  function Insert(entries: seq<Entry>, f: File): seq<Entry> {
    if !InFolder(f) then entries + [Loose(ItemOf(f))] else InsertItem(entries, RootOf(f), ItemOf(f))
  }

  function InsertItem(entries: seq<Entry>, root: string, item: Item): seq<Entry> {
    if entries == [] then [Folder(root, [item])]
    else if entries[0].Folder? && entries[0].root == root then [Folder(root, entries[0].items + [item])] + entries[1..]
    else [entries[0]] + InsertItem(entries[1..], root, item)
  }

  lemma {:induction false} UnderMore(files: seq<File>, f: File, root: string)
    ensures ItemsUnder(files + [f], root) == ItemsUnder(files, root) + if Under(f, root) then [ItemOf(f)] else []
    ensures Outside(files + [f], root) == Outside(files, root) + if Under(f, root) then [] else [f]
    decreases |files|
  {
    if files == [] {
      assert files + [f] == [f];
    } else {
      UnderMore(files[1..], f, root);
      assert (files + [f])[1..] == files[1..] + [f];
    }
  }

  lemma InsertBehind(e: Entry, rest: seq<Entry>, f: File)
    requires !(InFolder(f) && e.Folder? && e.root == RootOf(f))
    ensures Insert([e] + rest, f) == [e] + Insert(rest, f)
  {
    assert ([e] + rest)[1..] == rest;
    assert [e] + rest + [Loose(ItemOf(f))] == [e] + (rest + [Loose(ItemOf(f))]);
  }

  lemma InsertFirst(root: string, items: seq<Item>, rest: seq<Entry>, f: File)
    requires Under(f, root)
    ensures Insert([Folder(root, items)] + rest, f) == [Folder(root, items + [ItemOf(f)])] + rest
  {
    assert ([Folder(root, items)] + rest)[1..] == rest;
  }

  /** Taking the files one by one, in order, groups them as the definition does. */
  lemma {:induction false} GroupedMore(files: seq<File>, f: File)
    ensures Grouped(files + [f]) == Insert(Grouped(files), f)
    decreases |files|, 1
  {
    if files == [] {
      var none: seq<File> := [];
      assert files + [f] == [f] && [f][1..] == none && Grouped(none) == [];
      assert ItemsUnder(none, if InFolder(f) then RootOf(f) else "") == [] && [ItemOf(f)] + [] == [ItemOf(f)];
    } else {
      assert (files + [f])[1..] == files[1..] + [f] && (files + [f])[0] == files[0];
      if !InFolder(files[0]) {
        GroupedMore(files[1..], f);
        InsertBehind(Loose(ItemOf(files[0])), Grouped(files[1..]), f);
      } else {
        GroupedFolder(files, f, RootOf(files[0]));
      }
    }
  }

  lemma {:induction false} GroupedFolder(files: seq<File>, f: File, root: string)
    requires files != [] && Under(files[0], root)
    ensures Grouped(files + [f]) == Insert(Grouped(files), f)
    decreases |files|, 0
  {
    assert (files + [f])[1..] == files[1..] + [f] && (files + [f])[0] == files[0];
    UnderMore(files[1..], f, root);
    var (rest, first) := (Outside(files[1..], root), [ItemOf(files[0])]);
    var items := ItemsUnder(files[1..], root);
    if Under(f, root) {
      assert rest + [] == rest && first + (items + [ItemOf(f)]) == first + items + [ItemOf(f)];
      InsertFirst(root, first + items, Grouped(rest), f);
    } else {
      assert items + [] == items;
      GroupedMore(rest, f);
      InsertBehind(Folder(root, first + items), Grouped(rest), f);
    }
  }

  lemma {:induction false} InsertAt(entries: seq<Entry>, k: nat, root: string, item: Item)
    requires k <= |entries| && forall i :: 0 <= i < k ==> !(entries[i].Folder? && entries[i].root == root)
    requires k < |entries| ==> entries[k].Folder? && entries[k].root == root
    ensures InsertItem(entries, root, item)
            == if k < |entries| then entries[k := Folder(root, entries[k].items + [item])]
              else entries + [Folder(root, [item])]
    decreases k
  {
    if k > 0 {
      InsertAt(entries[1..], k - 1, root, item);
    } else if entries != [] {
      assert entries[0 := Folder(root, entries[0].items + [item])]
             == [Folder(root, entries[0].items + [item])] + entries[1..];
    }
  }

  /** A folder under construction: one object, reached both from the list and from the map. */
  class Group {
    const root: string
    var items: seq<Item>

    constructor (root: string, item: Item)
      ensures this.root == root && items == [item]
    {
      this.root, items := root, [item];
    }
  }

  datatype Row = Single(item: Item) | Shared(group: Group)

  function GroupsOf(rows: seq<Row>): set<Group> {
    set r | r in rows && r.Shared? :: r.group
  }

  function Value(rows: seq<Row>): (entries: seq<Entry>)
    reads GroupsOf(rows)
  {
    seq(|rows|, i requires 0 <= i < |rows| reads GroupsOf(rows) =>
      match rows[i] case Single(item) => Loose(item) case Shared(g) => Folder(g.root, g.items))
  }

  /** The map knows exactly the folders in the list, each once. */
  ghost predicate Indexed(rows: seq<Row>, folders: map<string, Group>) {
    && (forall i :: 0 <= i < |rows| && rows[i].Shared? ==>
          rows[i].group.root in folders && folders[rows[i].group.root] == rows[i].group)
    && (forall i, j :: 0 <= i < j < |rows| && rows[i].Shared? && rows[j].Shared? ==> rows[i].group != rows[j].group)
    && (forall root :: root in folders ==> folders[root].root == root && Shared(folders[root]) in rows)
  }

  lemma GroupedNext(files: seq<File>, n: nat)
    requires n < |files|
    ensures Grouped(files[..n + 1]) == Insert(Grouped(files[..n]), files[n])
  {
    GroupedMore(files[..n], files[n]);
    assert files[..n + 1] == files[..n] + [files[n]];
  }

  lemma SingleRow(rows: seq<Row>, folders: map<string, Group>, item: Item)
    requires Indexed(rows, folders)
    ensures Indexed(rows + [Single(item)], folders) && Value(rows + [Single(item)]) == Value(rows) + [Loose(item)]
    ensures GroupsOf(rows + [Single(item)]) == GroupsOf(rows)
  {
  }

  /** entriesFromFiles. */
  method EntriesFromFiles(files: seq<File>) returns (rows: seq<Row>)
    ensures forall g :: g in GroupsOf(rows) ==> fresh(g)
    ensures Value(rows) == Grouped(files)
  {
    rows := [];
    var folders: map<string, Group> := map[];
    var n := 0;
    while n < |files|
      invariant 0 <= n <= |files|
      invariant forall g :: g in GroupsOf(rows) ==> fresh(g)
      invariant Indexed(rows, folders) && Value(rows) == Grouped(files[..n])
    {
      GroupedNext(files, n);
      folders, rows := AddFile(folders, rows, files[n]);
      n := n + 1;
    }
    assert files[..n] == files;
  }

  method AddFile(folders: map<string, Group>, rows: seq<Row>, file: File)
    returns (folders': map<string, Group>, rows': seq<Row>)
    requires Indexed(rows, folders)
    modifies GroupsOf(rows)
    ensures Indexed(rows', folders') && Value(rows') == Insert(old(Value(rows)), file)
    ensures forall g :: g in GroupsOf(rows') ==> g in GroupsOf(rows) || fresh(g)
  {
    var parts := Segments(file.relativePath);
    if |parts| < 2 {
      SingleRow(rows, folders, ItemOf(file));
      folders', rows' := folders, rows + [Single(ItemOf(file))];
    } else {
      folders', rows' := AddToFolder(folders, rows, parts[0], ItemOf(file));
    }
  }

  method AddToFolder(folders: map<string, Group>, rows: seq<Row>, root: string, item: Item)
    returns (folders': map<string, Group>, rows': seq<Row>)
    requires Indexed(rows, folders)
    modifies GroupsOf(rows)
    ensures Indexed(rows', folders') && Value(rows') == InsertItem(old(Value(rows)), root, item)
    ensures forall g :: g in GroupsOf(rows') ==> g in GroupsOf(rows) || fresh(g)
  {
    folders', rows' := folders, rows;
    if root in folders {
      var folder := folders[root];
      ghost var k :| 0 <= k < |rows| && rows[k] == Shared(folder);
      InsertAt(Value(rows), k, root, item);
      folder.items := folder.items + [item];
    } else {
      InsertAt(Value(rows), |rows|, root, item);
      var folder := new Group(root, item);
      folders', rows' := folders[root := folder], rows + [Shared(folder)];
    }
  }

  // ---- reading directories --------------------------------------------------------------------

  /** What a browser lets a page enumerate: names come in some fixed order. */
  datatype Node = Leaf(name: string, body: Bytes) | Dir(name: string, children: seq<Node>) | Other(name: string)

  /** filesFromEntry: path is the path of the directory the entry lies in. */
  function FilesFromEntry(entry: Node, path: string): seq<Item>
    decreases entry, 0
  {
    match entry
    case Leaf(name, body) => [Item(name, body, path)]
    case Dir(name, children) => FilesFromAll(children, if path != "" then path + "/" + name else name)
    case Other(_) => []
  }

  /** Promise.all over the children, and the concatenation of what they yield. */
  function FilesFromAll(entries: seq<Node>, path: string): seq<Item>
    decreases entries, 1
  {
    if entries == [] then [] else FilesFromEntry(entries[0], path) + FilesFromAll(entries[1..], path)
  }

  function FilesFromDirectory(children: seq<Node>): seq<Item> { FilesFromAll(children, "") }

  /** The same tree as a folder picker shows it: every file with its path from the root on. */
  function PickedEntry(entry: Node, prefix: string): seq<File>
    decreases entry, 0
  {
    match entry
    case Leaf(name, body) => [File(name, body, prefix + "/" + name)]
    case Dir(name, children) => Picked(children, prefix + "/" + name)
    case Other(_) => []
  }

  function Picked(entries: seq<Node>, prefix: string): seq<File>
    decreases entries, 1
  {
    if entries == [] then [] else PickedEntry(entries[0], prefix) + Picked(entries[1..], prefix)
  }

  predicate NodeNamed(entry: Node)
    decreases entry, 0
  {
    && entry.name != "" && '/' !in entry.name && (entry.Dir? ==> AllNamed(entry.children))
  }

  predicate AllNamed(entries: seq<Node>)
    decreases entries, 1
  {
    entries == [] || (NodeNamed(entries[0]) && AllNamed(entries[1..]))
  }

  /** Directory names joined by slashes, none of them empty. */
  predicate Names(segments: seq<string>) {
    forall i :: 0 <= i < |segments| ==> segments[i] != "" && '/' !in segments[i]
  }

  lemma {:induction false} NonEmptyAll(segments: seq<string>)
    requires Names(segments)
    ensures NonEmpty(segments) == segments
    decreases |segments|
  {
    if segments != [] {
      NonEmptyAll(segments[1..]);
    }
  }

  lemma {:induction false} JoinMore(segments: seq<string>, name: string)
    requires segments != []
    ensures Join(segments + [name]) == Join(segments) + "/" + name
    decreases |segments|
  {
    if |segments| > 1 {
      JoinMore(segments[1..], name);
      assert (segments + [name])[1..] == segments[1..] + [name];
      assert segments[0] + "/" + (Join(segments[1..]) + "/" + name)
             == segments[0] + "/" + Join(segments[1..]) + "/" + name;
    } else {
      assert (segments + [name])[1..] == [name];
    }
  }

  /** One file as the picker shows it is, after splitting, the file as the directory reader finds it. */
  lemma {:induction false} SameFile(root: string, dirs: seq<string>, name: string, body: Bytes)
    requires Names([root] + dirs + [name])
    ensures var f := File(name, body, Join([root] + dirs) + "/" + name);
            Under(f, root) && ItemOf(f) == Item(name, body, Join(dirs))
  {
    var all := [root] + dirs + [name];
    JoinMore([root] + dirs, name);
    SplitJoin(all);
    NonEmptyAll(all);
    assert all[1..|all| - 1] == dirs;
  }

  /** All files lie under the root, and their items are these. */
  ghost predicate Shows(files: seq<File>, root: string, items: seq<Item>) {
    && |files| == |items|
    && forall i :: 0 <= i < |files| ==> Under(files[i], root) && ItemOf(files[i]) == items[i]
  }

  lemma {:induction false} EntryShows(entry: Node, root: string, dirs: seq<string>)
    requires NodeNamed(entry) && Names([root] + dirs)
    ensures Shows(PickedEntry(entry, Join([root] + dirs)), root, FilesFromEntry(entry, Join(dirs)))
    decreases entry, 0
  {
    match entry
    case Leaf(name, body) => SameFile(root, dirs, name, body);
    case Dir(name, children) =>
      JoinMore([root] + dirs, name);
      assert [root] + dirs + [name] == [root] + (dirs + [name]);
      if dirs == [] {
        assert [] + [name] == [name];
      } else {
        JoinMore(dirs, name);
        JoinSome(dirs);
      }
      AllShow(children, root, dirs + [name]);
    case Other(_) =>
  }

  lemma {:induction false} JoinSome(segments: seq<string>)
    requires segments != [] && segments[0] != ""
    ensures Join(segments) != ""
  {
  }

  lemma {:induction false} AllShow(entries: seq<Node>, root: string, dirs: seq<string>)
    requires AllNamed(entries) && Names([root] + dirs)
    ensures Shows(Picked(entries, Join([root] + dirs)), root, FilesFromAll(entries, Join(dirs)))
    decreases entries, 1
  {
    if entries != [] {
      EntryShows(entries[0], root, dirs);
      AllShow(entries[1..], root, dirs);
    }
  }

  lemma {:induction false} OneRoot(files: seq<File>, root: string, items: seq<Item>)
    requires Shows(files, root, items)
    ensures ItemsUnder(files, root) == items && Outside(files, root) == []
    decreases |files|
  {
    if files != [] {
      assert Under(files[0], root);
      OneRoot(files[1..], root, items[1..]);
    }
  }

  /** Both readers agree: picking a folder and dropping it give the same upload, as long as there is
      a file in it. */
  lemma {:induction false} ReadersAgree(root: string, children: seq<Node>)
    requires root != "" && '/' !in root && AllNamed(children)
    ensures FilesFromDirectory(children) != [] ==>
              Grouped(Picked(children, root)) == [Folder(root, FilesFromDirectory(children))]
    ensures FilesFromDirectory(children) == [] ==> Grouped(Picked(children, root)) == []
  {
    var (files, items) := (Picked(children, root), FilesFromDirectory(children));
    assert [root] + [] == [root];
    AllShow(children, root, []);
    OneRoot(files, root, items);
    if files != [] {
      assert Under(files[0], root);
    }
  }

  // ---- sending ----------------------------------------------------------------------------------

  /** The parts of one file in a form: its path, if there is a root, and the file. */
  function FileParts(root: string, item: Item): seq<Part> {
    (if root != "" then [Part("path", "", item.path, Eof)] else []) + [Part("file", item.name, item.body, Eof)]
  }

  function FormParts(root: string, items: seq<Item>): seq<Part> {
    if items == [] then (if root != "" then [Part("root", "", root, Eof)] else [])
    else FormParts(root, items[..|items| - 1]) + FileParts(root, items[|items| - 1])
  }

  /** send: the form, filled by appending. */
  method Send(root: string, files: seq<Item>) returns (body: seq<Part>)
    ensures body == FormParts(root, files)
  {
    body := [];
    if root != "" {
      body := body + [Part("root", "", root, Eof)];
    }
    var n := 0;
    while n < |files|
      invariant 0 <= n <= |files| && body == FormParts(root, files[..n])
    {
      assert files[..n + 1][..n] == files[..n];
      if root != "" {
        body := body + [Part("path", "", files[n].path, Eof)];
      }
      body := body + [Part("file", files[n].name, files[n].body, Eof)];
      n := n + 1;
    }
    assert files[..n] == files;
  }

  // ---- the file picker ----------------------------------------------------------------------------

  /** upload(file, root) with a number for the root: zero counts as no root, and any other number as one, so
      that the file itself is taken for the list of files and the form cannot be filled. */
  datatype Started = Sent(form: seq<Part>) | Threw

  method UploadNumbered(f: File, root: nat) returns (started: Started)
    ensures started == if root == 0 then Sent([Part("file", f.name, f.body, Eof)]) else Threw
  {
    if root != 0 {
      return Threw;
    }
    var item := Item(f.name, f.body, "");
    var form := Send("", [item]);
    assert [item][..0] == [] && FormParts("", [item]) == [] + [Part("file", f.name, f.body, Eof)];
    started := Sent(form);
  }

  /** uploadAll: forEach hands every file over together with its position, and stops at the first that
      throws. So of several files picked at once the first is sent, and no other: all of them are sent
      if and only if there is at most one. */
  method UploadAll(files: seq<File>) returns (forms: seq<seq<Part>>)
    ensures files == [] ==> forms == []
    ensures files != [] ==> forms == [[Part("file", files[0].name, files[0].body, Eof)]]
    ensures |forms| == |files| <==> |files| <= 1
  {
    forms := [];
    var i := 0;
    while i < |files|
      invariant i <= |files| && i <= 1
      invariant forms == if i == 0 then [] else [[Part("file", files[0].name, files[0].body, Eof)]]
    {
      var started := UploadNumbered(files[i], i);
      if started.Threw? {
        return;
      }
      forms := forms + [started.form];
      i := i + 1;
    }
  }
}
