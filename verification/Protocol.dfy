/** The upload store as a transition system: any number of upload requests, each a worker
    with a program counter, interleaving at the granularity of one mutex-protected method
    or one file system call (internal/dumpbox/server.go:271-545). Every call may fail. */
module Protocol {
  import opened Sums
  import opened Limits
  import opened Naming

  type Bytes = string          // a Go []byte: each char stands for one byte
  type Name = string           // one path segment
  type Path = seq<Name>        // relative to the data directory; the first segment is a user directory
  type Ino = nat
  type Id = nat

  datatype User = User(subject: Subject, username: string)

  /** key is quotaKey, home is userDirectory, keyOf is quotaKeyFromDirectory. */
  datatype Config = Config(
    maxBytes: nat, maxFiles: nat, maxFileBytes: nat, perUser: nat, total: nat,
    key: Subject -> Key, home: User -> Name, keyOf: Name -> Option<Key>)
  {
    ghost predicate Valid() {
      && 1 <= perUser <= total
      && forall u: User :: keyOf(home(u)) == Some(key(u.subject))
    }
  }

  /** The temporary file of a worker: part is what the client sends, whole says that the client
      sends it to its end, reserved is the code's counter of charged and written bytes. */
  datatype Temp = Temp(dir: Path, at: Path, ino: Ino, part: Bytes, whole: bool, reserved: nat)

  datatype Phase =
    | Ready                              // between two parts
    | Reserved(dir: Path)                // file slot taken
    | Busy(t: Temp, stage: Stage)        // a temporary name is on disk
    | Cleared(dir: Path)                 // unwinding: temporary file gone; file slot still taken
    | Done                               // upload slot released

  datatype Stage =
    | Writing                            // in the copy loop
    | Charged(chunk: nat)                // chunk charged, not yet written
    | Refund(rest: nat)                  // short write: the rest is still charged
    | Publishing                         // synced and closed; looking for a free name
    | Linked(name: Name)                 // published under t.dir + [name]
    | Failing                            // unwinding: t.reserved bytes still charged
    | Uncharged                          // unwinding: bytes released

  datatype Worker = Worker(user: User, folder: Option<Name>, phase: Phase)

  /** A name that will never be removed again: a file found at startup (who is None) or published. */
  datatype Settled = Settled(ino: Ino, data: Bytes, who: Option<Id>)

  datatype Books = Books(bytes: Ledger, files: Ledger, slots: Slots)

  /** born, settled, temps and owner are history: no step decides anything by them. */
  datatype Inode = Inode(data: Bytes, born: Path)

  datatype Disk = Disk(
    names: map<Path, Ino>, inodes: map<Ino, Inode>, dirs: set<Path>,
    settled: map<Path, Settled>,         // what startup found and what was published
    temps: map<Path, Id>,                // temporary names and the workers that made them
    owner: map<Path, Id>)                // folders made by createUniqueDirectory
  {
    predicate Exists(p: Path) { p in names || p in dirs }
  }

  datatype State = State(books: Books, disk: Disk, workers: map<Id, Worker>)

  /** What os.CreateTemp makes of the pattern ".upload-*": a random decimal number for the star. */
  predicate TempLike(n: Name) {
    ".upload-" <= n && |n| > 8 && forall i :: 8 <= i < |n| ==> '0' <= n[i] <= '9'
  }

  function Base(c: Config, w: Worker): Path {
    match w.folder
    case None => [c.home(w.user)]
    case Some(f) => [c.home(w.user), f]
  }

  /** The directories a request stores files in: the user's own, or those in its folder. */
  predicate InDir(c: Config, w: Worker, dir: Path) {
    Base(c, w) <= dir && (w.folder.None? ==> dir == Base(c, w))
  }

  function Key(c: Config, w: Worker): Key { c.key(w.user.subject) }

  datatype Call = Chmod | Sync | Close | Hardlink

  datatype Event =
    | Begin(user: User)
    | EnsureHome
    | MakeFolder(name: Name)
    | MakeDir(dir: Path)
    | DirFails                           // os.Mkdir or os.MkdirAll fails
    | ReserveFile(dir: Path)
    | CreateTemp(base: Name, ino: Ino, part: Bytes, whole: bool)
    | TempFails
    | Charge(chunk: nat)
    | Write(n: nat, ok: bool)
    | ReturnRest
    | EndOfPart
    | CallFails(call: Call)              // a call on the temporary file returns an error
    | GiveUp                             // the source breaks, or no name is free
    | Link(name: Name)
    | ReleaseBytes
    | RemoveTemp
    | ReleaseFile
    | End

  /** What one step of worker w does; None when the step cannot be taken. The ledgers are behind
      a mutex and the disk is behind system calls, so a step touches one of them, and it touches
      no worker but the one that takes it. */
  function Apply(c: Config, s: State, w: Id, e: Event): Option<State>
  {
    if e.Begin? then
      if w in s.workers then None
      else
        match Occupy(s.books.slots, c.perUser, c.total, e.user.subject)
        case None => None
        case Some(slots) =>
          Some(State(s.books.(slots := slots), s.disk, s.workers[w := Worker(e.user, None, Ready)]))
    else if w !in s.workers then None
    else if OnBooks(e) then
      match BooksStep(c, s.books, s.workers[w], e)
      case None => None
      case Some((books, phase)) => Some(State(books, s.disk, s.workers[w := s.workers[w].(phase := phase)]))
    else
      match DiskStep(c, s.disk, w, s.workers[w], e)
      case None => None
      case Some((disk, worker)) => Some(State(s.books, disk, s.workers[w := worker]))
  }

  predicate OnBooks(e: Event) {
    || e.ReserveFile? || e.TempFails? || e.Charge? || e.ReturnRest? || e.EndOfPart? || e.CallFails? || e.GiveUp?
    || e.ReleaseBytes? || e.ReleaseFile? || e.End?
  }

  /** Steps on the ledgers, and steps that change nothing but where the worker is. */
  function BooksStep(c: Config, b: Books, wk: Worker, e: Event): Option<(Books, Phase)>
  {
    match wk.phase
    case Ready =>
      (match e
       case ReserveFile(dir) =>
         if !InDir(c, wk, dir) then None
         else
           (match Reserve(b.files, c.maxFiles, Key(c, wk), 1)
            case None => Some((b, Ready))
            case Some(files) => Some((b.(files := files), Reserved(dir))))
       case End => Some((b.(slots := Vacate(b.slots, wk.user.subject)), Done))
       case _ => None)
    case Reserved(dir) => if e.TempFails? then Some((b, Cleared(dir))) else None
    case Cleared(_) =>
      if e.ReleaseFile? then Some((b.(files := Release(b.files, c.maxFiles, Key(c, wk), 1)), Ready)) else None
    case Done => None
    case Busy(t, stage) =>
      match BusyBooksStep(c, b.bytes, Key(c, wk), t, stage, e)
      case None => None
      case Some((bytes, next)) => Some((b.(bytes := bytes), Busy(t, next)))
  }

  /** The copy loop with its quota writer, and the unwinding of a failed upload. */
  function BusyBooksStep(c: Config, bytes: Ledger, k: Key, t: Temp, stage: Stage, e: Event): Option<(Ledger, Stage)>
  {
    match stage
    case Writing =>
      (match e
       case Charge(n) =>
         if n == 0 || t.reserved + n > |t.part| || (c.maxFileBytes > 0 && t.reserved + n > c.maxFileBytes + 1) then None
         else
           (match Reserve(bytes, c.maxBytes, k, n)
            case None => Some((bytes, Failing))
            case Some(charged) => Some((charged, Charged(n))))
       case EndOfPart =>
         if c.maxFileBytes > 0 && t.reserved == c.maxFileBytes + 1 then Some((bytes, Failing))
         else if t.whole && t.reserved == |t.part| then Some((bytes, Publishing))
         else None
       case CallFails(call) => if call.Chmod? && t.reserved == 0 then Some((bytes, Failing)) else None
       case GiveUp => Some((bytes, Failing))
       case _ => None)
    case Refund(rest) =>
      if e.ReturnRest? then Some((Release(bytes, c.maxBytes, k, rest), Failing)) else None
    case Publishing =>
      if e.GiveUp? || (e.CallFails? && !e.call.Chmod?) then Some((bytes, Failing)) else None
    case Failing =>
      if e.ReleaseBytes? then
        Some((if t.reserved > 0 then Release(bytes, c.maxBytes, k, t.reserved) else bytes, Uncharged))
      else None
    case _ => None
  }

  /** Steps on the disk. */
  function DiskStep(c: Config, d: Disk, w: Id, wk: Worker, e: Event): Option<(Disk, Worker)>
  {
    match wk.phase
    case Ready => DirStep(c, d, w, wk, e)
    case Reserved(dir) =>
      (match e
       case CreateTemp(base, ino, part, whole) =>
         if dir !in d.dirs || !Plain(base) || !TempLike(base) || d.Exists(dir + [base]) || ino in d.inodes then None
         else Some((d.(names := d.names[dir + [base] := ino], inodes := d.inodes[ino := Inode([], dir + [base])],
                     temps := d.temps[dir + [base] := w]),
                    wk.(phase := Busy(Temp(dir, dir + [base], ino, part, whole, 0), Writing))))
       case _ => None)
    case Busy(t, stage) =>
      (match BusyDiskStep(d, w, t, stage, e)
       case None => None
       case Some((disk, phase)) => Some((disk, wk.(phase := phase))))
    case _ => None
  }

  /** Steps that make directories. */
  function DirStep(c: Config, d: Disk, w: Id, wk: Worker, e: Event): Option<(Disk, Worker)>
  {
    var home := [c.home(wk.user)];
    match e
    case DirFails => Some((d, wk))
    case EnsureHome => if home in d.names then None else Some((d.(dirs := d.dirs + {home}), wk))
    case MakeFolder(name) =>
      var dir := home + [name];
      if wk.folder.Some? || home !in d.dirs then None
      else if !Plain(name) || d.Exists(dir) then Some((d, wk))
      else Some((d.(dirs := d.dirs + {dir}, owner := d.owner[dir := w]), wk.(folder := Some(name))))
    case MakeDir(dir) =>
      if wk.folder.None? || !(Base(c, wk) < dir) || dir[..|dir| - 1] !in d.dirs || !Plain(dir[|dir| - 1]) then None
      else if d.Exists(dir) then Some((d, wk))
      else Some((d.(dirs := d.dirs + {dir}), wk))
    case _ => None
  }

  function BusyDiskStep(d: Disk, w: Id, t: Temp, stage: Stage, e: Event): Option<(Disk, Phase)>
  {
    match stage
    case Charged(chunk) =>
      (match e
       case Write(n, ok) =>
         if n > chunk || t.reserved + n > |t.part| then None
         else
           var more := t.(reserved := t.reserved + n);
           Some((d.(inodes := d.inodes[t.ino := Inode(t.part[..more.reserved], t.at)]),
                 Busy(more, if n < chunk then Refund(chunk - n) else if ok then Writing else Failing)))
       case _ => None)
    case Publishing =>
      (match e
       case Link(name) =>
         var p := t.dir + [name];
         if !Plain(name) || d.Exists(p) then Some((d, Busy(t, stage)))
         else Some((d.(names := d.names[p := t.ino], settled := d.settled[p := Settled(t.ino, t.part, Some(w))]),
                    Busy(t, Linked(name))))
       case _ => None)
    case Uncharged =>
      if e.RemoveTemp? then
        Some((d.(names := d.names - {t.at}, temps := d.temps - {t.at}, inodes := d.inodes - {t.ino}), Cleared(t.dir)))
      else None
    case Linked(_) =>
      if e.RemoveTemp? then Some((d.(names := d.names - {t.at}, temps := d.temps - {t.at}), Ready)) else None
    case _ => None
  }

  datatype Act = Act(who: Id, e: Event)

  /** A run: any interleaving of any workers' steps. */
  function Exec(c: Config, s: State, run: seq<Act>): Option<State>
  {
    if run == [] then Some(s)
    else
      match Exec(c, s, run[..|run| - 1])
      case None => None
      case Some(mid) => Apply(c, mid, run[|run| - 1].who, run[|run| - 1].e)
  }

  /** A server that has just started over some directory tree: everything in it is settled, and
      the ledgers hold what the startup walk counted. */
  ghost predicate Starts(c: Config, s: State)
  {
    var d := s.disk;
    && c.Valid()
    && s.workers == map[] && d.owner == map[] && d.temps == map[] && s.books.slots == Slots(map[], 0)
    && d.settled.Keys == d.names.Keys
    && (forall p :: p in d.names ==>
          d.names[p] in d.inodes && d.settled[p] == Settled(d.names[p], d.inodes[d.names[p]].data, None))
    && d.inodes.Keys == (set p | p in d.names :: d.names[p])
    && TreeShaped(d)
    && (forall m, k :: Get(Book(s.books, m), k) == Usage(c, d, m, k))
  }

  /** Every entry lies in an existing directory. */
  ghost predicate TreeShaped(d: Disk)
  {
    && (forall p :: d.Exists(p) ==> 1 <= |p|)
    && (forall p, n :: d.Exists(p) && 1 <= n < |p| ==> p[..n] in d.dirs)
    && (forall p :: p in d.names ==> p !in d.dirs)
  }

  // ---- the two measures -------------------------------------------------------------------

  /** The two quotas differ only in what a file weighs: its length, or one. */
  datatype Measure = ByBytes | ByFiles

  function Weigh(m: Measure, size: nat): nat { if m.ByBytes? then size else 1 }

  function Book(b: Books, m: Measure): Ledger { if m.ByBytes? then b.bytes else b.files }

  function Cap(c: Config, m: Measure): nat { if m.ByBytes? then c.maxBytes else c.maxFiles }

  function KeyAt(c: Config, p: Path): Option<Key> { if |p| < 2 then None else c.keyOf(p[0]) }

  /** What a startup walk would count now: one entry for every name below k's directories. */
  ghost function Usage(c: Config, d: Disk, m: Measure, k: Key): int {
    Sum(d.names.Keys, NameWeight(c, d, m, k))
  }

  ghost function NameWeight(c: Config, d: Disk, m: Measure, k: Key): Path -> int {
    p =>
      if p in d.names && d.names[p] in d.inodes && KeyAt(c, p) == Some(k) then Weigh(m, |d.inodes[d.names[p]].data|)
      else 0
  }
}
