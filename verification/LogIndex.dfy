/** What an index keeps of a set of logs, within its bounds. Its methods are the
    steps that hold its lock; the readers of several files run between them. */
module LogIndex {
  import opened Options
  import opened Conversation

  /** What is kept of a file; the ID stands for the entry's identity, which a reader
      that is still at work holds on to after the entry is forgotten. */
  datatype Entry = Entry(id: nat, size: nat, used: nat, pass: nat)

  /** The sizes of the files in paths. */
  ghost function SizesOf(files: map<string, Entry>, paths: set<string>): (n: nat)
    requires paths <= files.Keys
  {
    if paths == {} then 0
    else
      var p :| p in paths;
      files[p].size + SizesOf(files, paths - {p})
  }

  ghost function Sizes(files: map<string, Entry>): nat {
    SizesOf(files, files.Keys)
  }

  /** The order of the sum makes no difference. */
  lemma {:induction false} SizesWithout(files: map<string, Entry>, paths: set<string>, p: string)
    requires p in paths && paths <= files.Keys
    ensures SizesOf(files, paths) == files[p].size + SizesOf(files, paths - {p})
    decreases |paths|
  {
    var q :| q in paths && SizesOf(files, paths) == files[q].size + SizesOf(files, paths - {q});
    if q != p {
      SizesWithout(files, paths - {q}, p);
      SizesWithout(files, paths - {p}, q);
      assert paths - {q} - {p} == paths - {p} - {q};
    }
  }

  lemma {:induction false} SizesSame(files: map<string, Entry>, other: map<string, Entry>, paths: set<string>)
    requires paths <= files.Keys && paths <= other.Keys && forall p :: p in paths ==> files[p].size == other[p].size
    ensures SizesOf(files, paths) == SizesOf(other, paths)
    decreases |paths|
  {
    if paths != {} {
      var p :| p in paths;
      SizesWithout(files, paths, p);
      SizesWithout(other, paths, p);
      SizesSame(files, other, paths - {p});
    }
  }

  /** The sizes once path has an entry of the given size. */
  lemma SizesSet(files: map<string, Entry>, path: string, e: Entry)
    ensures Sizes(files[path := e]) == Sizes(files) - (if path in files then files[path].size else 0) + e.size
  {
    var next := files[path := e];
    SizesWithout(next, next.Keys, path);
    var rest := files.Keys - {path};
    assert next.Keys - {path} == rest;
    SizesSame(files, next, rest);
    if path in files {
      SizesWithout(files, files.Keys, path);
    } else {
      assert files.Keys == rest;
    }
  }

  lemma SizesForgotten(files: map<string, Entry>, path: string)
    requires path in files
    ensures Sizes(files - {path}) == Sizes(files) - files[path].size
  {
    SizesWithout(files, files.Keys, path);
    assert (files - {path}).Keys == files.Keys - {path};
    SizesSame(files, files - {path}, files.Keys - {path});
  }

  /** The files no pass read. */
  function Loose(files: map<string, Entry>): set<string> {
    set p | p in files && files[p].pass == 0
  }

  /** The entries are told apart by their IDs and by when they were used. */
  ghost predicate EntriesOk(files: map<string, Entry>, clock: nat, passes: nat, nextId: nat) {
    && (forall p :: p in files ==> files[p].used <= clock && files[p].pass <= passes && files[p].id < nextId)
    && (forall p, q :: p in files && q in files && p != q ==>
      files[p].used != files[q].used && files[p].id != files[q].id)
  }

  /** What settling the file at path keeps of files, with the bounds given: the files
      some pass read, path's own, and of the others those used last. */
  ghost predicate Evicted(files: map<string, Entry>, kept: map<string, Entry>, path: string, maxFiles: int,
      maxBytes: int) {
    && kept.Keys <= files.Keys && path in kept
    && (forall p :: p in kept ==> kept[p] == files[p])
    && (forall p :: p in files && p !in kept ==> files[p].pass == 0 && p != path)
    && (forall p, q :: p in files && p !in kept && q in kept && q != path && kept[q].pass == 0 ==>
      files[p].used < kept[q].used)
    && (forall p :: p in files && p !in kept ==> Over(Before(files, kept, files[p].used), maxFiles, maxBytes))
  }

  /** The files there were before that last used at time was forgotten. */
  ghost function Before(files: map<string, Entry>, kept: map<string, Entry>, time: nat): map<string, Entry> {
    map p | p in files && (p in kept || files[p].used >= time) :: files[p]
  }

  ghost predicate Over(files: map<string, Entry>, maxFiles: int, maxBytes: int) {
    |files| > maxFiles || Sizes(files) > maxBytes
  }

  /** The bounds hold, or there is nothing left that they may forget. */
  ghost predicate Bounded(kept: map<string, Entry>, path: string, maxFiles: int, maxBytes: int) {
    !Over(kept, maxFiles, maxBytes) || forall p :: p in kept && p != path ==> kept[p].pass > 0
  }

  /** oldest is the file read longest ago of those in paths no pass read, but for path. */
  ghost predicate LeastUsed(files: map<string, Entry>, paths: set<string>, path: string, oldest: string) {
    && oldest in files && oldest in paths && oldest != path && files[oldest].pass == 0
    && forall p :: p in files && p in paths && p != path && files[p].pass == 0 ==> files[oldest].used <= files[p].used
  }

  class LogIndex {
    const maxFiles: int
    const maxBytes: int
    var files: map<string, Entry>
    var bytes: int
    var clock: nat
    var passes: nat
    var loose: int
    /** The ID of the next entry. */
    var nextId: nat

    ghost predicate Valid()
      reads this
    {
      EntriesOk(files, clock, passes, nextId) && bytes == Sizes(files) && loose == |Loose(files)|
    }

    constructor (maxFiles: int, maxBytes: int)
      ensures Valid() && files == map[] && this.maxFiles == maxFiles && this.maxBytes == maxBytes
    {
      this.maxFiles, this.maxBytes := maxFiles, maxBytes;
      files, bytes, clock, passes, loose, nextId := map[], 0, 0, 0, 0, 0;
    }

    /** Starts a pass over the files, and returns its number. */
    method Pass() returns (n: nat)
      requires Valid()
      modifies this`passes
      ensures Valid() && passes == n == old(passes) + 1
    {
      passes := passes + 1;
      n := passes;
    }

    /** The entry of path, new if there is none, read by the pass numbered pass if it isn't 0. */
    method EntryOf(path: string, pass: nat) returns (id: nat)
      requires Valid() && pass <= passes
      modifies this
      ensures Valid() && passes == old(passes) && clock == old(clock) + 1
      ensures path in files && files[path].id == id && files[path].used == clock
      ensures files[path].pass == if path in old(files) && old(files)[path].pass > pass then old(files)[path].pass
        else pass
      ensures files == old(files)[path := files[path]]
      ensures if path in old(files) then id == old(files)[path].id && files[path].size == old(files)[path].size
              else id == old(nextId) && files[path].size == 0
    {
      hide EntriesOk, Sizes, Loose;
      var e;
      if path in files {
        e := files[path];
      } else {
        e := Entry(nextId, 0, 0, 0);
        nextId := nextId + 1;
        loose := loose + 1;
      }
      id := e.id;
      clock := clock + 1;
      e := e.(used := clock);
      if pass > e.pass {
        if e.pass == 0 {
          loose := loose - 1;
        }
        e := e.(pass := pass);
      }
      SizesSet(files, path, e);
      LooseSet(files, path, e);
      UsedNow(files, path, e, clock - 1, passes, old(nextId), nextId);
      files := files[path := e];
    }

    /** Forgets path. */
    method Forget(path: string)
      requires Valid() && path in files
      modifies this`files, this`bytes, this`loose
      ensures Valid() && files == old(files) - {path}
    {
      SizesForgotten(files, path);
      var e := files[path];
      LooseForgotten(files, path);
      files := files - {path};
      bytes := bytes - e.size;
      if e.pass == 0 {
        loose := loose - 1;
      }
    }

    /** Of the files no pass read, but for path, that read longest ago. */
    method Oldest(path: string) returns (oldest: Option<string>)
      requires Valid()
      ensures oldest.None? ==> forall p :: p in files && p != path ==> files[p].pass > 0
      ensures oldest.Some? ==> LeastUsed(files, files.Keys, path, oldest.value)
    {
      oldest := None;
      var todo := files.Keys;
      while todo != {}
        invariant todo <= files.Keys
        invariant oldest.None? ==> forall p :: p in files && p !in todo && p != path ==> files[p].pass > 0
        invariant oldest.Some? ==> LeastUsed(files, files.Keys - todo, path, oldest.value)
      {
        var p :| p in todo;
        todo := todo - {p};
        if p != path && files[p].pass == 0 && (oldest == None || files[p].used < files[oldest.value].used) {
          oldest := Some(p);
        }
      }
    }

    /** Forgets the files read longest ago while the index holds too much, of those no pass read. */
    method Evict(path: string)
      requires Valid() && path in files
      modifies this`files, this`bytes, this`loose
      ensures Valid() && Evicted(old(files), files, path, maxFiles, maxBytes)
      ensures Bounded(files, path, maxFiles, maxBytes)
    {
      ghost var all := files;
      while loose > 0 && |files| > 1 && (|files| > maxFiles || bytes > maxBytes)
        invariant Valid() && Evicted(all, files, path, maxFiles, maxBytes)
        decreases |files|
      {
        var oldest := Oldest(path);
        if oldest.None? {
          return;
        }
        EvictOne(all, files, path, oldest.value, maxFiles, maxBytes);
        Forget(oldest.value);
      }
      NothingLoose(files, path);
    }

    /** Accounts for what reading the entry id of path took, or forgets it when that
        failed; an entry forgotten while it was read doesn't count. */
    method Settle(path: string, id: nat, size: nat, failed: bool)
      requires Valid()
      modifies this`files, this`bytes, this`loose
      ensures Valid()
      ensures var was := old(files);
        if path !in was || was[path].id != id then files == was
        else if failed then files == was - {path}
        else
          && Evicted(was[path := was[path].(size := size)], files, path, maxFiles, maxBytes)
          && Bounded(files, path, maxFiles, maxBytes)
    {
      if path !in files || files[path].id != id {
        return;
      }
      if failed {
        Forget(path);
        return;
      }
      var e := files[path];
      SizesSet(files, path, e.(size := size));
      LooseSet(files, path, e.(size := size));
      bytes := bytes + size - e.size;
      files := files[path := e.(size := size)];
      Evict(path);
    }

    /** Ends the pass numbered n: forgets the files that neither it nor a pass started since read. */
    method EndPass(n: nat)
      requires Valid()
      modifies this`files, this`bytes, this`loose
      ensures Valid() && forall p :: p in files <==> p in old(files) && old(files)[p].pass >= n
      ensures forall p :: p in files ==> files[p] == old(files)[p]
    {
      hide Valid, EntriesOk;
      ghost var all := files;
      var todo := files.Keys;
      while todo != {}
        invariant Valid() && todo <= files.Keys
        invariant forall p :: p in files <==> p in all && (p in todo || all[p].pass >= n)
        invariant forall p :: p in files ==> files[p] == all[p]
      {
        var p :| p in todo;
        todo := todo - {p};
        if files[p].pass < n {
          Forget(p);
        }
      }
    }
  }

  lemma LooseSet(files: map<string, Entry>, path: string, e: Entry)
    ensures |Loose(files[path := e])| == |Loose(files)|
      - (if path in files && files[path].pass == 0 then 1 else 0) + (if e.pass == 0 then 1 else 0)
  {
    var rest := Loose(files) - {path};
    assert Loose(files[path := e]) == if e.pass == 0 then rest + {path} else rest;
    assert path in Loose(files) <==> path in files && files[path].pass == 0;
  }

  lemma LooseForgotten(files: map<string, Entry>, path: string)
    requires path in files
    ensures |Loose(files - {path})| == |Loose(files)| - if files[path].pass == 0 then 1 else 0
  {
    assert Loose(files - {path}) == Loose(files) - {path};
  }

  /** The entry used now is told apart from all others. */
  lemma UsedNow(files: map<string, Entry>, path: string, e: Entry, clock: nat, passes: nat, id: nat, nextId: nat)
    requires EntriesOk(files, clock, passes, id) && e.used == clock + 1
    requires e.pass <= passes || (path in files && e.pass == files[path].pass)
    requires if path in files then e.id == files[path].id && nextId == id else e.id == id && nextId == id + 1
    ensures EntriesOk(files[path := e], clock + 1, passes, nextId)
  {
  }

  lemma EvictOne(files: map<string, Entry>, kept: map<string, Entry>, path: string, oldest: string, maxFiles: int,
      maxBytes: int)
    requires Evicted(files, kept, path, maxFiles, maxBytes) && Over(kept, maxFiles, maxBytes)
    requires LeastUsed(kept, kept.Keys, path, oldest)
    requires forall p, q :: p in files && q in files && p != q ==> files[p].used != files[q].used
    ensures Evicted(files, kept - {oldest}, path, maxFiles, maxBytes)
  {
    hide Over;
    var next := kept - {oldest};
    forall p | p in files && p !in next ensures Over(Before(files, next, files[p].used), maxFiles, maxBytes) {
      if p == oldest {
        BeforeOldest(files, kept, path, oldest);
      } else {
        BeforeOthers(files, kept, oldest, files[p].used);
      }
    }
  }

  lemma BeforeOldest(files: map<string, Entry>, kept: map<string, Entry>, path: string, oldest: string)
    requires kept.Keys <= files.Keys && (forall p :: p in kept ==> kept[p] == files[p])
    requires LeastUsed(kept, kept.Keys, path, oldest)
    requires forall p, q :: p in files && p !in kept && q in kept && q != path && kept[q].pass == 0 ==>
      files[p].used < kept[q].used
    ensures Before(files, kept - {oldest}, files[oldest].used) == kept
  {
    var before := Before(files, kept - {oldest}, files[oldest].used);
    assert forall p :: p in before <==> p in kept;
  }

  lemma BeforeOthers(files: map<string, Entry>, kept: map<string, Entry>, oldest: string, time: nat)
    requires oldest in kept && oldest in files && time <= files[oldest].used
    ensures Before(files, kept - {oldest}, time) == Before(files, kept, time)
  {
    assert forall p :: p in Before(files, kept - {oldest}, time) <==> p in Before(files, kept, time);
  }

  lemma NothingLoose(files: map<string, Entry>, path: string)
    requires path in files
    ensures |Loose(files)| == 0 || |files| <= 1 ==> forall p :: p in files && p != path ==> files[p].pass > 0
  {
    if |Loose(files)| == 0 {
      assert forall p :: p in files ==> p !in Loose(files);
    } else if |files| <= 1 {
      assert |files.Keys - {path}| == 0;
    }
  }
}
