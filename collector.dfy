/**
 * The file-system collector (plaso/engine/collector.py): a walk over a
 * directory tree that puts the path specification of every file it
 * accepts on the process queue, suppresses unchanged files by an
 * inode-keyed fingerprint table, and signals the end of input once.
 *
 * File entries, file systems and the searcher are abstract input values;
 * the process queue and the storage queue are objects the collectors
 * append to.
 */
module Collector {
  import opened Common

  /** A comparable path specification. */
  type PathSpec = string

  /** The dfvfs errors the collectors catch; the only ones a directory listing raises. */
  type DfvfsError = x: Exc | x == AccessError || x == BackEndError witness AccessError

  /** What a queue carries: a path specification, or the end-of-input marker. */
  datatype QueueItem = PathSpecItem(spec: PathSpec) | EndOfInput

  /** An append-only queue (the process queue, or the storage queue). */
  class Queue {
    var items: seq<QueueItem>

    constructor ()
      ensures items == []
    {
      items := [];
    }

    method Push(item: QueueItem)
      modifies this
      ensures items == old(items) + [item]
    {
      items := items + [item];
    }
  }

  // ---------------------------------------------------------------------
  // File entries

  datatype Kind = Directory | RegularFile | OtherKind

  /** The stat attributes the fingerprint reads; None for an absent attribute. */
  datatype Stat = Stat(
    atime: Option<int>, atimeNano: Option<int>,
    crtime: Option<int>, crtimeNano: Option<int>,
    mtime: Option<int>, mtimeNano: Option<int>,
    ctime: Option<int>, ctimeNano: Option<int>)

  /**
   * A file entry.  isAllocated and isLink are the answers of IsAllocated() and
   * IsLink(), None when the call raises BackEndError.  Enumerating the
   * children delivers children and then, when listingFault is set, raises
   * that exception (AccessError or BackEndError).
   */
  datatype Entry = Entry(
    name: string, pathSpec: PathSpec, isTsk: bool, isRoot: bool,
    isAllocated: Option<bool>, isLink: Option<bool>, kind: Kind,
    inode: Option<int>, stat: Stat,
    children: seq<Entry>, listingFault: Option<DfvfsError>)

  /** The md5 fingerprint of the eight time values, abstracted as the values themselves. */
  datatype Fingerprint = Fingerprint(
    atime: int, atimeNano: int, crtime: int, crtimeNano: int,
    mtime: int, mtimeNano: int, ctime: int, ctimeNano: int)

  /** getattr(stat_object, name, 0). */
  function OrZero(x: Option<int>): int
  {
    if x.Some? then x.value else 0
  }

  /** _CalculateNTFSTimeHash. */
  function TimeHash(s: Stat): Fingerprint
  {
    Fingerprint(OrZero(s.atime), OrZero(s.atimeNano), OrZero(s.crtime), OrZero(s.crtimeNano),
                OrZero(s.mtime), OrZero(s.mtimeNano), OrZero(s.ctime), OrZero(s.ctimeNano))
  }

  /** The fingerprints of two stats agree exactly when their eight time values (absent read as 0) agree. */
  lemma TimeHashTimesOnly(s: Stat, t: Stat)
    ensures TimeHash(s) == TimeHash(t) <==>
      && OrZero(s.atime) == OrZero(t.atime) && OrZero(s.atimeNano) == OrZero(t.atimeNano)
      && OrZero(s.crtime) == OrZero(t.crtime) && OrZero(s.crtimeNano) == OrZero(t.crtimeNano)
      && OrZero(s.mtime) == OrZero(t.mtime) && OrZero(s.mtimeNano) == OrZero(t.mtimeNano)
      && OrZero(s.ctime) == OrZero(t.ctime) && OrZero(s.ctimeNano) == OrZero(t.ctimeNano)
  {
  }

  /** getattr(path_spec, 'inode', 0). */
  function InodeOf(e: Entry): int
  {
    if e.inode.Some? then e.inode.value else 0
  }

  /** not IsAllocated() or IsLink(), where a BackEndError from either call also skips. */
  predicate SkippedByCheck(e: Entry)
  {
    e.isAllocated != Some(true) || (e.isAllocated == Some(true) && e.isLink != Some(false))
  }

  /** The virtual TSK $OrphanFiles directory, skipped only directly under the root. */
  predicate OrphanFiles(parent: Entry, e: Entry)
  {
    e.isTsk && parent.isRoot && e.name == "$OrphanFiles"
  }

  // ---------------------------------------------------------------------
  // The walk, as a specification over an abstract state

  /** What the collectors change: the fingerprint table and the two queues. */
  datatype State = State(hashlist: map<int, seq<Fingerprint>>, queue: seq<QueueItem>, storage: seq<QueueItem>)

  datatype Config = Config(duplicateFileCheck: bool, collectDirectoryMetadata: bool)

  /** Is this fingerprint already listed for its inode? */
  predicate Listed(hashlist: map<int, seq<Fingerprint>>, inode: int, h: Fingerprint)
  {
    inode in hashlist && h in hashlist[inode]
  }

  /** hashlist.setdefault(inode, []).append(h) */
  function AppendHash(hashlist: map<int, seq<Fingerprint>>, inode: int, h: Fingerprint): map<int, seq<Fingerprint>>
  {
    hashlist[inode := (if inode in hashlist then hashlist[inode] else []) + [h]]
  }

  /**
   * One iteration of the first loop of _ProcessDirectory: the new state and
   * the sub-directories to walk later ([] or [child]).
   */
  function ScanChild(parent: Entry, cfg: Config, child: Entry, st: State): (r: (State, seq<Entry>))
    ensures r.1 == [] || r.1 == [child]
  {
    if SkippedByCheck(child) || OrphanFiles(parent, child) then (st, [])
    else if child.kind == Directory then
      var storage := if cfg.collectDirectoryMetadata then st.storage + [PathSpecItem(parent.pathSpec)] else st.storage;
      (st.(storage := storage), [child])
    else if child.kind == RegularFile then
      if cfg.duplicateFileCheck then
        var h := TimeHash(child.stat);
        var inode := InodeOf(child);
        if Listed(st.hashlist, inode, h) then (st, [])
        else (st.(hashlist := AppendHash(st.hashlist, inode, h), queue := st.queue + [PathSpecItem(child.pathSpec)]), [])
      else (st.(queue := st.queue + [PathSpecItem(child.pathSpec)]), [])
    else (st, [])
  }

  /** The first loop over the children from position i on: files produced, sub-directories collected. */
  function ScanChildren(parent: Entry, cfg: Config, i: nat, st: State): (r: (State, seq<Entry>))
    requires i <= |parent.children|
    ensures forall d :: d in r.1 ==> d in parent.children[i..]
    decreases |parent.children| - i
  {
    if i == |parent.children| then (st, [])
    else
      var (st1, d) := ScanChild(parent, cfg, parent.children[i], st);
      var (st2, ds) := ScanChildren(parent, cfg, i + 1, st1);
      (st2, d + ds)
  }

  /**
   * _ProcessDirectory: the first loop, then each sub-directory in turn.  A
   * listing fault ends the first loop with that exception, before any
   * sub-directory is walked; a fault inside a sub-directory is caught there.
   */
  function Walk(e: Entry, cfg: Config, st: State): (r: (State, Option<DfvfsError>))
    decreases e, 1, 0
  {
    var (st1, subs) := ScanChildren(e, cfg, 0, st);
    if e.listingFault.Some? then (st1, e.listingFault)
    else (WalkAll(e, subs, cfg, st1), None)
  }

  /** The second loop of _ProcessDirectory over the collected sub-directories. */
  function WalkAll(parent: Entry, subs: seq<Entry>, cfg: Config, st: State): State
    requires forall d :: d in subs ==> d in parent.children
    decreases parent, 0, |subs|
  {
    if subs == [] then st
    else
      assert subs[0] in parent.children;
      WalkAll(parent, subs[1..], cfg, Walk(subs[0], cfg, st).0)
  }

  // ---------------------------------------------------------------------
  // Properties of the walk

  /** The fingerprint table only grows: every list is extended, none shrinks or disappears. */
  ghost predicate Grows(a: map<int, seq<Fingerprint>>, b: map<int, seq<Fingerprint>>)
  {
    forall inode :: inode in a ==> inode in b && a[inode] <= b[inode]
  }

  /** The queues only grow too. */
  ghost predicate Extends(a: State, b: State)
  {
    Grows(a.hashlist, b.hashlist) && a.queue <= b.queue && a.storage <= b.storage
  }

  lemma ExtendsTrans(a: State, b: State, c: State)
    requires Extends(a, b) && Extends(b, c)
    ensures Extends(a, c)
  {
    forall inode | inode in a.hashlist
      ensures inode in c.hashlist && a.hashlist[inode] <= c.hashlist[inode]
    {
      assert b.hashlist[inode] <= c.hashlist[inode];
    }
  }

  lemma ScanChildExtends(parent: Entry, cfg: Config, child: Entry, st: State)
    ensures Extends(st, ScanChild(parent, cfg, child, st).0)
  {
  }

  lemma {:induction false} ScanChildrenExtends(parent: Entry, cfg: Config, i: nat, st: State)
    requires i <= |parent.children|
    ensures Extends(st, ScanChildren(parent, cfg, i, st).0)
    decreases |parent.children| - i
  {
    if i < |parent.children| {
      var st1 := ScanChild(parent, cfg, parent.children[i], st).0;
      ScanChildExtends(parent, cfg, parent.children[i], st);
      ScanChildrenExtends(parent, cfg, i + 1, st1);
      ExtendsTrans(st, st1, ScanChildren(parent, cfg, i + 1, st1).0);
    }
  }

  /** The fingerprint table and both queues only grow over a whole walk. */
  lemma {:induction false} WalkExtends(e: Entry, cfg: Config, st: State)
    ensures Extends(st, Walk(e, cfg, st).0)
    decreases e, 1, 0
  {
    ScanChildrenExtends(e, cfg, 0, st);
    var (st1, subs) := ScanChildren(e, cfg, 0, st);
    if e.listingFault.None? {
      WalkAllExtends(e, subs, cfg, st1);
      ExtendsTrans(st, st1, WalkAll(e, subs, cfg, st1));
    }
  }

  lemma {:induction false} WalkAllExtends(parent: Entry, subs: seq<Entry>, cfg: Config, st: State)
    requires forall d :: d in subs ==> d in parent.children
    ensures Extends(st, WalkAll(parent, subs, cfg, st))
    decreases parent, 0, |subs|
  {
    if subs != [] {
      assert subs[0] in parent.children;
      var st1 := Walk(subs[0], cfg, st).0;
      WalkExtends(subs[0], cfg, st);
      WalkAllExtends(parent, subs[1..], cfg, st1);
      ExtendsTrans(st, st1, WalkAll(parent, subs[1..], cfg, st1));
    }
  }

  /** A skipped child (failed check, link, or root-level $OrphanFiles) changes nothing and is not descended into. */
  lemma SkippedChildIgnored(parent: Entry, cfg: Config, child: Entry, st: State)
    requires SkippedByCheck(child) || OrphanFiles(parent, child)
    ensures ScanChild(parent, cfg, child, st) == (st, [])
  {
  }

  /** $OrphanFiles below the root is an ordinary directory: it is walked. */
  lemma OrphanFilesDeeperWalked(parent: Entry, cfg: Config, child: Entry, st: State)
    requires !parent.isRoot && !SkippedByCheck(child) && child.kind == Directory
    ensures ScanChild(parent, cfg, child, st).1 == [child]
  {
  }

  /**
   * With duplicate checking on, an accepted file is produced exactly when
   * its fingerprint is not yet listed for its inode; afterwards it is
   * listed.  Without duplicate checking it is always produced.
   */
  lemma DuplicateSuppression(parent: Entry, cfg: Config, child: Entry, st: State)
    requires !SkippedByCheck(child) && !OrphanFiles(parent, child) && child.kind == RegularFile
    ensures var st1 := ScanChild(parent, cfg, child, st).0;
      var h := TimeHash(child.stat);
      && (cfg.duplicateFileCheck ==>
            (st1.queue == st.queue + [PathSpecItem(child.pathSpec)] <==> !Listed(st.hashlist, InodeOf(child), h))
            && (st1.queue == st.queue <==> Listed(st.hashlist, InodeOf(child), h))
            && Listed(st1.hashlist, InodeOf(child), h))
      && (!cfg.duplicateFileCheck ==> st1.queue == st.queue + [PathSpecItem(child.pathSpec)] && st1.hashlist == st.hashlist)
  {
    var h := TimeHash(child.stat);
    var inode := InodeOf(child);
    if cfg.duplicateFileCheck && !Listed(st.hashlist, inode, h) {
      var m := AppendHash(st.hashlist, inode, h);
      assert m[inode][|m[inode]| - 1] == h;
    }
  }

  /**
   * Every file of a directory is produced in the first loop, before any
   * sub-directory is walked: the queue after the walk starts with the queue
   * after the first loop.
   */
  lemma FilesBeforeSubdirectories(e: Entry, cfg: Config, st: State)
    ensures ScanChildren(e, cfg, 0, st).0.queue <= Walk(e, cfg, st).0.queue
  {
    var (st1, subs) := ScanChildren(e, cfg, 0, st);
    if e.listingFault.None? {
      WalkAllExtends(e, subs, cfg, st1);
    }
  }

  /**
   * The first loop never puts the end-of-input marker on the queue and
   * adds one path specification per accepted file.
   */
  lemma {:induction false} ScanChildrenProducesSpecs(parent: Entry, cfg: Config, i: nat, st: State)
    requires i <= |parent.children|
    ensures var st1 := ScanChildren(parent, cfg, i, st).0;
      st.queue <= st1.queue && forall k :: |st.queue| <= k < |st1.queue| ==> st1.queue[k].PathSpecItem?
    decreases |parent.children| - i
  {
    if i < |parent.children| {
      var st1 := ScanChild(parent, cfg, parent.children[i], st).0;
      ScanChildrenProducesSpecs(parent, cfg, i + 1, st1);
    }
  }

  /** A walk only ever adds path specifications to the process queue. */
  ghost predicate OnlySpecsAdded(a: State, b: State)
  {
    a.queue <= b.queue && forall k :: |a.queue| <= k < |b.queue| ==> b.queue[k].PathSpecItem?
  }

  lemma {:induction false} WalkOnlySpecs(e: Entry, cfg: Config, st: State)
    ensures OnlySpecsAdded(st, Walk(e, cfg, st).0)
    decreases e, 1, 0
  {
    ScanChildrenProducesSpecs(e, cfg, 0, st);
    var (st1, subs) := ScanChildren(e, cfg, 0, st);
    if e.listingFault.None? {
      WalkAllOnlySpecs(e, subs, cfg, st1);
    }
  }

  lemma {:induction false} WalkAllOnlySpecs(parent: Entry, subs: seq<Entry>, cfg: Config, st: State)
    requires forall d :: d in subs ==> d in parent.children
    ensures OnlySpecsAdded(st, WalkAll(parent, subs, cfg, st))
    decreases parent, 0, |subs|
  {
    if subs != [] {
      assert subs[0] in parent.children;
      var st1 := Walk(subs[0], cfg, st).0;
      WalkOnlySpecs(subs[0], cfg, st);
      WalkAllOnlySpecs(parent, subs[1..], cfg, st1);
    }
  }

  /** A fault in one sub-directory does not stop its later siblings: they are walked from the state it left. */
  lemma FaultySiblingContinues(parent: Entry, subs: seq<Entry>, cfg: Config, st: State)
    requires forall d :: d in subs ==> d in parent.children
    requires subs != [] && subs[0].listingFault.Some?
    ensures WalkAll(parent, subs, cfg, st) ==
            WalkAll(parent, subs[1..], cfg, ScanChildren(subs[0], cfg, 0, st).0)
  {
  }

  // ---------------------------------------------------------------------
  // FileSystemCollector

  /** A file system: its root entry, and what the searcher finds for the find specifications. */
  datatype FileSystem = FileSystem(root: Entry, matches: seq<PathSpec>)

  /** Specification of FileSystemCollector.Collect. */
  function CollectFs(fs: FileSystem, findSpecs: bool, cfg: Config, st: State): (State, Option<DfvfsError>)
  {
    if findSpecs then (st.(queue := st.queue + SpecItems(fs.matches)), None)
    else Walk(fs.root, cfg, st)
  }

  function SpecItems(specs: seq<PathSpec>): (r: seq<QueueItem>)
    ensures |r| == |specs| && forall k :: 0 <= k < |specs| ==> r[k] == PathSpecItem(specs[k])
  {
    if specs == [] then [] else [PathSpecItem(specs[0])] + SpecItems(specs[1..])
  }

  /** With find specifications, exactly the searcher's matches are produced, in its order, and no walk is made. */
  lemma FindSpecsProduceMatches(fs: FileSystem, cfg: Config, st: State)
    ensures CollectFs(fs, true, cfg, st).0.queue == st.queue + SpecItems(fs.matches)
    ensures CollectFs(fs, true, cfg, st).0.hashlist == st.hashlist
    ensures CollectFs(fs, true, cfg, st).1.None?
  {
  }

  class FileSystemCollector {
    const queue: Queue
    const storage: Queue
    var duplicateFileCheck: bool
    var hashlist: map<int, seq<Fingerprint>>
    var collectDirectoryMetadata: bool

    ghost predicate Valid()
      reads this
    {
      queue != storage
    }

    /** The abstract state the walk specification speaks about. */
    ghost function Current(): State
      reads this, queue, storage
    {
      State(hashlist, queue.items, storage.items)
    }

    function Cfg(): Config
      reads this
    {
      Config(duplicateFileCheck, collectDirectoryMetadata)
    }

    constructor (processQueue: Queue, storageQueue: Queue)
      requires processQueue != storageQueue
      ensures Valid() && queue == processQueue && storage == storageQueue
      ensures !duplicateFileCheck && hashlist == map[] && collectDirectoryMetadata
    {
      queue := processQueue;
      storage := storageQueue;
      duplicateFileCheck := false;
      hashlist := map[];
      collectDirectoryMetadata := true;
    }

    /** One iteration of the first loop of _ProcessDirectory. */
    method ProcessChild(parent: Entry, child: Entry) returns (subs: seq<Entry>)
      requires Valid()
      modifies this`hashlist, queue, storage
      ensures (Current(), subs) == ScanChild(parent, old(Cfg()), child, old(Current()))
    {
      if SkippedByCheck(child) {
        return [];
      }
      if child.isTsk && parent.isRoot && child.name == "$OrphanFiles" {
        return [];
      }
      if child.kind == Directory {
        if collectDirectoryMetadata {
          storage.Push(PathSpecItem(parent.pathSpec));
        }
        return [child];
      } else if child.kind == RegularFile {
        if duplicateFileCheck {
          var hashValue := TimeHash(child.stat);
          var inode := InodeOf(child);
          if inode in hashlist && hashValue in hashlist[inode] {
            return [];
          }
          hashlist := AppendHash(hashlist, inode, hashValue);
        }
        queue.Push(PathSpecItem(child.pathSpec));
      }
      return [];
    }

    /** The first loop of _ProcessDirectory: produce files, collect sub-directories. */
    method ScanDirectory(e: Entry) returns (subDirectories: seq<Entry>)
      requires Valid()
      modifies this`hashlist, queue, storage
      ensures (Current(), subDirectories) == ScanChildren(e, old(Cfg()), 0, old(Current()))
    {
      ghost var cfg := Cfg();
      ghost var st0 := Current();
      subDirectories := [];
      var i := 0;
      assert ScanChildren(e, cfg, 0, st0).1 == subDirectories + ScanChildren(e, cfg, i, Current()).1;
      while i < |e.children|
        invariant 0 <= i <= |e.children| && Cfg() == cfg
        invariant ScanChildren(e, cfg, 0, st0).0 == ScanChildren(e, cfg, i, Current()).0
        invariant ScanChildren(e, cfg, 0, st0).1 == subDirectories + ScanChildren(e, cfg, i, Current()).1
      {
        ghost var before := Current();
        var found := ProcessChild(e, e.children[i]);
        ghost var rest := ScanChildren(e, cfg, i + 1, Current());
        assert ScanChildren(e, cfg, i, before) == (rest.0, found + rest.1);
        assert subDirectories + (found + rest.1) == (subDirectories + found) + rest.1;
        subDirectories := subDirectories + found;
        i := i + 1;
      }
      assert subDirectories + [] == subDirectories;
    }

    /** The second loop of _ProcessDirectory: walk each sub-directory, catching its faults. */
    method ProcessSubdirectories(e: Entry, subDirectories: seq<Entry>)
      requires Valid()
      requires forall d :: d in subDirectories ==> d in e.children
      modifies this`hashlist, queue, storage
      ensures Current() == WalkAll(e, subDirectories, old(Cfg()), old(Current()))
      decreases e, 0
    {
      ghost var cfg := Cfg();
      var j := 0;
      while j < |subDirectories|
        invariant 0 <= j <= |subDirectories| && Cfg() == cfg
        invariant WalkAll(e, subDirectories, cfg, old(Current())) ==
                  WalkAll(e, subDirectories[j..], cfg, Current())
      {
        assert subDirectories[j..][1..] == subDirectories[j + 1..];
        assert subDirectories[j] in e.children;
        var ignored := ProcessDirectory(subDirectories[j]);
        j := j + 1;
      }
    }

    /** _ProcessDirectory: files first, then each sub-directory; a listing fault propagates. */
    method ProcessDirectory(e: Entry) returns (fault: Option<DfvfsError>)
      requires Valid()
      modifies this`hashlist, queue, storage
      ensures (Current(), fault) == Walk(e, old(Cfg()), old(Current()))
      decreases e, 1
    {
      var subDirectories := ScanDirectory(e);
      assert e.children[0..] == e.children;
      if e.listingFault.Some? {
        return e.listingFault;
      }
      ProcessSubdirectories(e, subDirectories);
      return None;
    }

    /** FileSystemCollector.Collect: the searcher's matches, or the walk from the root. */
    method Collect(fs: FileSystem, findSpecs: bool) returns (fault: Option<DfvfsError>)
      requires Valid()
      modifies this`hashlist, queue, storage
      ensures (Current(), fault) == CollectFs(fs, findSpecs, old(Cfg()), old(Current()))
    {
      if findSpecs {
        var k := 0;
        while k < |fs.matches|
          invariant 0 <= k <= |fs.matches|
          invariant queue.items == old(queue.items) + SpecItems(fs.matches[..k])
          invariant hashlist == old(hashlist) && storage.items == old(storage.items)
        {
          assert fs.matches[..k + 1] == fs.matches[..k] + [fs.matches[k]];
          SpecItemsConcat(fs.matches[..k], [fs.matches[k]]);
          queue.Push(PathSpecItem(fs.matches[k]));
          k := k + 1;
        }
        assert fs.matches[..k] == fs.matches;
        return None;
      }
      fault := ProcessDirectory(fs.root);
    }
  }

  lemma {:induction false} SpecItemsConcat(a: seq<PathSpec>, b: seq<PathSpec>)
    ensures SpecItems(a + b) == SpecItems(a) + SpecItems(b)
  {
    if a != [] {
      assert (a + b)[1..] == a[1..] + b;
      SpecItemsConcat(a[1..], b);
    }
  }

  // ---------------------------------------------------------------------
  // Collector: the source, storage media images and volume shadow snapshots

  datatype SourceType = SourceDirectory | SourceFile | SourceDevice | SourceOther

  /**
   * What the resolver finds for a source path specification.  entry is None
   * when OpenFileEntry finds nothing.  An OS source is a file or a directory
   * tree (osFileSystem); any other source is a volume whose TSK file system
   * is image (None when opening it raises IOError) and whose VSS stores are
   * stores, by the 0-based store index of dfvfs; opening a store that is not
   * in the map raises IOError, which nothing catches.
   */
  datatype Source = Source(
    entry: Option<SourceType>, isOs: bool, spec: PathSpec,
    osFileSystem: FileSystem, image: Option<FileSystem>, stores: map<int, FileSystem>)

  /** How a run over the VSS stores ends. */
  datatype VssEnd =
    | AllStores             // every store was collected
    | Stopped               // a store's collection raised a caught dfvfs error
    | Raised(exc: Exc)      // a store could not be opened: the exception propagates

  /** Is this outcome a propagating exception? */
  function Propagated(e: VssEnd): Option<Exc>
  {
    if e.Raised? then Some(e.exc) else None
  }

  /**
   * Specification of _ProcessVSS: the stores numbered from 1, visited in the
   * given order; a caught error ends the whole run.
   */
  function VssRun(storeNumbers: seq<int>, stores: map<int, FileSystem>, findSpecs: bool, cfg: Config, st: State): (State, VssEnd)
  {
    if storeNumbers == [] then (st, AllStores)
    else if storeNumbers[0] - 1 !in stores then (st, Raised(IOError))
    else
      var (st1, fault) := CollectFs(stores[storeNumbers[0] - 1], findSpecs, cfg, st);
      if fault.Some? then (st1, Stopped)
      else VssRun(storeNumbers[1..], stores, findSpecs, cfg, st1)
  }

  /**
   * A run over a + b is the run over a when that one stopped or raised, and
   * otherwise the run over b from where a left off.
   */
  lemma {:induction false} VssRunConcat(a: seq<int>, b: seq<int>, stores: map<int, FileSystem>, findSpecs: bool, cfg: Config, st: State)
    ensures var ra := VssRun(a, stores, findSpecs, cfg, st);
      VssRun(a + b, stores, findSpecs, cfg, st) ==
        (if ra.1 == AllStores then VssRun(b, stores, findSpecs, cfg, ra.0) else ra)
  {
    if a == [] {
      assert a + b == b;
    } else {
      assert (a + b)[0] == a[0] && (a + b)[1..] == a[1..] + b;
      if a[0] - 1 in stores {
        var (st1, fault) := CollectFs(stores[a[0] - 1], findSpecs, cfg, st);
        if fault.None? {
          VssRunConcat(a[1..], b, stores, findSpecs, cfg, st1);
        }
      }
    }
  }

  /** Specification of _ProcessImage: the volume's own file system, then its VSS stores. */
  function ImageRun(src: Source, vssStores: seq<int>, findSpecs: bool, cfg: Config, st: State): (State, Option<Exc>)
  {
    if src.image.None? then (st, None)
    else
      var (st1, fault) := CollectFs(src.image.value, findSpecs, cfg, st);
      if fault.Some? || vssStores == [] then (st1, None)
      else
        var (st2, end) := VssRun(vssStores, src.stores, findSpecs, cfg, st1);
        (st2, Propagated(end))
  }

  /**
   * Specification of Collector.Collect: the new state and the exception it
   * raises, if any.  On normal completion the end of input is signalled.
   */
  function CollectSource(src: Source, findSpecs: bool, vssStores: seq<int>, cfg: Config, st: State): (State, Option<Exc>)
  {
    if src.entry.None? then (st.(queue := st.queue + [EndOfInput]), None)
    else if src.entry.value == SourceOther then (st, Some(CollectorError))
    else
      var (st1, raised) :=
        if src.isOs then
          if src.entry.value == SourceFile then (st.(queue := st.queue + [PathSpecItem(src.spec)]), None)
          else (CollectFs(src.osFileSystem, findSpecs, cfg, st).0, None)
        else ImageRun(src, vssStores, findSpecs, cfg, st);
      if raised.Some? then (st1, raised)
      else (st1.(queue := st1.queue + [EndOfInput]), None)
  }

  lemma VssRunOnlySpecs(storeNumbers: seq<int>, stores: map<int, FileSystem>, findSpecs: bool, cfg: Config, st: State)
    ensures OnlySpecsAdded(st, VssRun(storeNumbers, stores, findSpecs, cfg, st).0)
    decreases |storeNumbers|
  {
    if storeNumbers != [] && storeNumbers[0] - 1 in stores {
      var (st1, fault) := CollectFs(stores[storeNumbers[0] - 1], findSpecs, cfg, st);
      CollectFsOnlySpecs(stores[storeNumbers[0] - 1], findSpecs, cfg, st);
      if fault.None? {
        VssRunOnlySpecs(storeNumbers[1..], stores, findSpecs, cfg, st1);
      }
    }
  }

  lemma CollectFsOnlySpecs(fs: FileSystem, findSpecs: bool, cfg: Config, st: State)
    ensures OnlySpecsAdded(st, CollectFs(fs, findSpecs, cfg, st).0)
  {
    if !findSpecs {
      WalkOnlySpecs(fs.root, cfg, st);
    }
  }

  /**
   * The end-of-input marker is put on the queue exactly once, last, when
   * Collect returns normally, and never when it raises; everything else it
   * adds is a path specification.
   */
  lemma EndOfInputOnce(src: Source, findSpecs: bool, vssStores: seq<int>, cfg: Config, st: State)
    ensures var (st1, raised) := CollectSource(src, findSpecs, vssStores, cfg, st);
      && st.queue <= st1.queue
      && (raised.None? ==> |st1.queue| > |st.queue| && st1.queue[|st1.queue| - 1] == EndOfInput)
      && forall k :: |st.queue| <= k < |st1.queue| && (raised.Some? || k < |st1.queue| - 1) ==>
           st1.queue[k].PathSpecItem?
  {
    if src.entry.Some? && src.entry.value != SourceOther {
      if src.isOs {
        if src.entry.value != SourceFile {
          CollectFsOnlySpecs(src.osFileSystem, findSpecs, cfg, st);
        }
      } else if src.image.Some? {
        var (st1, fault) := CollectFs(src.image.value, findSpecs, cfg, st);
        CollectFsOnlySpecs(src.image.value, findSpecs, cfg, st);
        if fault.None? && vssStores != [] {
          VssRunOnlySpecs(vssStores, src.stores, findSpecs, cfg, st1);
        }
      }
    }
  }

  /** A source that cannot be found yields only the end-of-input marker. */
  lemma MissingSourceSignalsEnd(src: Source, findSpecs: bool, vssStores: seq<int>, cfg: Config, st: State)
    requires src.entry.None?
    ensures CollectSource(src, findSpecs, vssStores, cfg, st) == (st.(queue := st.queue + [EndOfInput]), None)
  {
  }

  /** A source that is no directory, file or device raises CollectorError and changes nothing. */
  lemma UnsupportedSourceRaises(src: Source, findSpecs: bool, vssStores: seq<int>, cfg: Config, st: State)
    requires src.entry == Some(SourceOther)
    ensures CollectSource(src, findSpecs, vssStores, cfg, st) == (st, Some(CollectorError))
  {
  }

  /** Without VSS stores, an image source is its file system's collection followed by the end-of-input marker. */
  lemma ImageWithoutVss(src: Source, findSpecs: bool, cfg: Config, st: State)
    requires src.entry.Some? && src.entry.value != SourceOther && !src.isOs && src.image.Some?
    ensures var st1 := CollectFs(src.image.value, findSpecs, cfg, st).0;
      CollectSource(src, findSpecs, [], cfg, st) == (st1.(queue := st1.queue + [EndOfInput]), None)
  {
  }

  class Collector {
    const queue: Queue
    const fsCollector: FileSystemCollector
    var filterFindSpecs: bool
    var vssStores: seq<int>

    ghost predicate Valid()
      reads this, fsCollector
    {
      fsCollector.Valid() && fsCollector.queue == queue
    }

    ghost function Current(): State
      reads this, fsCollector, fsCollector.queue, fsCollector.storage
    {
      fsCollector.Current()
    }

    constructor (processQueue: Queue, storageQueue: Queue)
      requires processQueue != storageQueue
      ensures Valid() && queue == processQueue && fresh(fsCollector)
      ensures fsCollector.storage == storageQueue
      ensures !fsCollector.duplicateFileCheck && fsCollector.hashlist == map[] && fsCollector.collectDirectoryMetadata
      ensures !filterFindSpecs && vssStores == []
    {
      queue := processQueue;
      fsCollector := new FileSystemCollector(processQueue, storageQueue);
      filterFindSpecs := false;
      vssStores := [];
    }

    /** SetFilter: whether a non-empty list of find specifications is set. */
    method SetFilter(findSpecs: bool)
      modifies this`filterFindSpecs
      ensures filterFindSpecs == findSpecs
    {
      filterFindSpecs := findSpecs;
    }

    /** SetVssInformation: the store numbers to collect, 1 being the first store. */
    method SetVssInformation(stores: seq<int>)
      modifies this`vssStores
      ensures vssStores == stores
    {
      vssStores := stores;
    }

    /** _ProcessVSS. */
    method ProcessVss(src: Source, findSpecs: bool) returns (raised: Option<Exc>)
      requires Valid()
      modifies fsCollector`hashlist, queue, fsCollector.storage
      ensures var r := VssRun(vssStores, src.stores, findSpecs, old(fsCollector.Cfg()), old(Current()));
        Current() == r.0 && raised == Propagated(r.1)
    {
      ghost var cfg := fsCollector.Cfg();
      var storeRange := vssStores;
      var j := 0;
      while j < |storeRange|
        invariant 0 <= j <= |storeRange| && fsCollector.Cfg() == cfg
        invariant VssRun(storeRange, src.stores, findSpecs, cfg, old(Current())) ==
                  VssRun(storeRange[j..], src.stores, findSpecs, cfg, Current())
      {
        assert storeRange[j..][0] == storeRange[j] && storeRange[j..][1..] == storeRange[j + 1..];
        var storeIndex := storeRange[j] - 1;
        if storeIndex !in src.stores {
          return Some(IOError);
        }
        var fault := fsCollector.Collect(src.stores[storeIndex], findSpecs);
        if fault.Some? {
          return None;
        }
        j := j + 1;
      }
      return None;
    }

    /** _ProcessImage. */
    method ProcessImage(src: Source, findSpecs: bool) returns (raised: Option<Exc>)
      requires Valid()
      modifies fsCollector`hashlist, queue, fsCollector.storage
      ensures (Current(), raised) == ImageRun(src, vssStores, findSpecs, old(fsCollector.Cfg()), old(Current()))
    {
      if src.image.None? {
        return None;
      }
      var fault := fsCollector.Collect(src.image.value, findSpecs);
      if fault.Some? {
        return None;
      }
      if vssStores != [] {
        raised := ProcessVss(src, findSpecs);
      } else {
        raised := None;
      }
    }

    /** Collector.Collect. */
    method Collect(src: Source) returns (raised: Option<Exc>)
      requires Valid()
      modifies fsCollector`hashlist, queue, fsCollector.storage
      ensures (Current(), raised) == CollectSource(src, filterFindSpecs, vssStores, old(fsCollector.Cfg()), old(Current()))
    {
      if src.entry.None? {
        queue.Push(EndOfInput);
        return None;
      }
      if src.entry.value == SourceOther {
        return Some(CollectorError);
      }
      if src.isOs {
        if src.entry.value == SourceFile {
          queue.Push(PathSpecItem(src.spec));
        } else {
          var ignored := fsCollector.Collect(src.osFileSystem, filterFindSpecs);
        }
      } else {
        raised := ProcessImage(src, filterFindSpecs);
        if raised.Some? {
          return raised;
        }
      }
      queue.Push(EndOfInput);
      return None;
    }
  }
}
