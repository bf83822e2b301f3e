/**
 * The data root as the program has it: directories changed in place, the cached sizes of two of
 * them, collision-safe quarantine, and the safe and the forced deletion of raw data.
 */
module Storage {
  import opened Models
  import opened Naming
  import opened Totals
  import opened StoreSpec
  import opened ControlStore
  import opened Protocol
  import Recovery

  /** Distinct names in a directory are no more than its entries. */
  lemma {:induction false} ProbesBounded(target: string, n: nat, names: set<string>)
    requires forall k: nat :: k < n ==> Candidate(target, k) in names
    ensures n <= |names|
  {
    if n > 0 {
      var last := Candidate(target, n - 1);
      forall k: nat | k < n - 1 ensures Candidate(target, k) in names - {last} {
        if Candidate(target, k) == last {
          CandidateInjective(target, k, n - 1);
        }
      }
      ProbesBounded(target, n - 1, names - {last});
    }
  }

  /** There is always a free name. */
  lemma FreshName(names: set<string>) returns (name: string)
    ensures name !in names
  {
    if forall k: nat :: k < |names| + 1 ==> Candidate("", k) in names {
      ProbesBounded("", |names| + 1, names);
    }
    var k: nat :| k < |names| + 1 && Candidate("", k) !in names;
    name := Candidate("", k);
  }

  /** The first name not taken among the label, `label.001`, `label.002`, ... */
  ghost predicate FirstFree(names: set<string>, label_: string, name: string) {
    exists n: nat ::
      name == Candidate(label_, n) && name !in names && forall k: nat :: k < n ==> Candidate(label_, k) in names
  }

  /**
   * The measurement set has gone to quarantine: its bytes are there under the first free name for the
   * label, and every other file is as before.
   */
  ghost predicate SetAsideAs(fs: Fs, fs': Fs, oid: nat, label_: string) {
    exists name: string ::
      && FirstFree(fs.quarantine.Keys, label_, name) && oid in fs.live
      && fs' == Fs(fs.live - {oid}, fs.trash, fs.quarantine[name := fs.live[oid]], fs.products, fs.qStamp + 1, fs.tStamp)
  }

  class DataRoot {
    var live: map<nat, nat>
    var trash: map<nat, nat>
    var quarantine: map<string, nat>
    var products: map<string, nat>
    var qStamp: nat
    var tStamp: nat
    var cache: Option<CacheEntry>

    /** How often a file operation has failed, or the executing process died beside one. */
    ghost var mishaps: nat

    ghost function Value(): Fs
      reads this
    {
      Fs(live, trash, quarantine, products, qStamp, tStamp)
    }

    constructor ()
      ensures Value() == Fs(map[], map[], map[], map[], 0, 0) && cache == None && mishaps == 0
    {
      live, trash, quarantine, products := map[], map[], map[], map[];
      qStamp, tStamp := 0, 0;
      cache := None;
      mishaps := 0;
    }

    /** The environment decides whether the next operation fails, or the process dies. */
    method Mishap() returns (b: bool)
      modifies this`mishaps
      ensures mishaps == old(mishaps) + if b then 1 else 0
    {
      b := false;
      if * {
        b := true;
        mishaps := mishaps + 1;
      }
    }

    /** The bytes of a directory whose entries are known by the size of the tree below each: every entry met once. */
    static method SumEntries<K(==)>(entries: map<K, nat>) returns (total: nat)
      ensures total == Total(entries)
    {
      total := 0;
      var rest := entries;
      while rest != map[]
        invariant total + Total(rest) == Total(entries)
        decreases |rest|
      {
        var child :| child in rest;
        TotalSplit(rest, child);
        assert |rest - {child}| < |rest| by {
          assert (rest - {child}).Keys == rest.Keys - {child};
        }
        total := total + rest[child];
        rest := rest - {child};
      }
    }

    /** Cached sizes of quarantine and trash; a walk only when forced or when a stamp moved. */
    method AuxiliaryChargedStorage(force: bool) returns (q: nat, t: nat)
      modifies this`cache
      ensures var hit :=
          !force && old(cache).Some? && old(cache).value.qStamp == qStamp && old(cache).value.tStamp == tStamp;
        && (hit ==> q == old(cache).value.quarantine && t == old(cache).value.trash && cache == old(cache))
        && (!hit ==> q == Total(quarantine) && t == Total(trash) && cache == Some(CacheEntry(qStamp, tStamp, q, t)))
    {
      var q0, t0 := qStamp, tStamp;
      if !force && cache.Some? && cache.value.qStamp == q0 && cache.value.tStamp == t0 {
        return cache.value.quarantine, cache.value.trash;
      }
      q := SumEntries(quarantine);
      t := SumEntries(trash);
      cache := Some(CacheEntry(q0, t0, q, t));
    }

    /**
     * The first free name among the label, `label.001`, `label.002`, ...; the search ends within one
     * probe more than there are entries.
     */
    method UniqueQuarantineTarget(label_: string) returns (name: string, n: nat)
      ensures name == Candidate(label_, n) && name !in quarantine
      ensures forall k: nat :: k < n ==> Candidate(label_, k) in quarantine
      ensures n <= |quarantine|
    {
      if label_ !in quarantine {
        return label_, 0;
      }
      n := 1;
      name := Candidate(label_, n);
      while name in quarantine
        invariant n >= 1 && name == Candidate(label_, n)
        invariant forall k: nat :: k < n ==> Candidate(label_, k) in quarantine
        decreases |quarantine| - n
      {
        ProbesBounded(label_, n + 1, quarantine.Keys);
        n := n + 1;
        name := Candidate(label_, n);
      }
      ProbesBounded(label_, n, quarantine.Keys);
    }

    /** Moves a measurement set into quarantine without replacing anything there; the rename itself may fail. */
    method QuarantinePath(oid: nat, label_: string) returns (r: Result<string>)
      modifies this
      ensures r.Ok? ==>
        && oid in old(live) && r.value !in old(quarantine)
        && FirstFree(old(quarantine).Keys, label_, r.value)
        && Value() == MoveToQuarantine(old(Value()), oid, r.value) && cache == None
        && SetAsideAs(old(Value()), Value(), oid, label_)
      ensures r.Err? ==> Value() == old(Value()) && cache == old(cache)
      ensures r == Err(FileVanished) <==> oid !in old(live)
      ensures mishaps == old(mishaps) + if r.Err? && oid in old(live) then 1 else 0
      ensures forall k :: k in old(quarantine) ==> k in quarantine && quarantine[k] == old(quarantine)[k]
    {
      if oid !in live {
        return Err(FileVanished);
      }
      var name, n := UniqueQuarantineTarget(label_);
      assert FirstFree(quarantine.Keys, label_, name);
      var failed := Mishap();
      if failed {
        return Err(Interrupted);
      }
      quarantine := quarantine[name := live[oid]];
      live := live - {oid};
      qStamp := qStamp + 1;
      cache := None;
      return Ok(name);
    }

    /** Removes a tree in trash; a failing removal leaves part of it. */
    method RemoveTrashTree(oid: nat) returns (left: Option<nat>)
      requires oid in trash
      modifies this
      ensures left.Some? ==> left.value <= old(trash)[oid]
      ensures mishaps == old(mishaps) + if left.Some? then 1 else 0
      ensures Value() == DeleteFs(old(Value()), Proc(false, false, oid, Deleting, Remove), left) && cache == old(cache)
    {
      var some: nat :| some <= trash[oid];
      var failed := Mishap();
      if failed {
        trash := trash[oid := some];
        left := Some(some);
      } else {
        trash := trash - {oid};
        tStamp := tStamp + 1;
        left := None;
      }
    }

    method RemoveLiveTree(oid: nat) returns (left: Option<nat>)
      requires oid in live
      modifies this
      ensures left.Some? ==> left.value <= old(live)[oid]
      ensures mishaps == old(mishaps) + if left.Some? then 1 else 0
      ensures Value() == DeleteFs(old(Value()), Proc(true, false, oid, Deleting, RemoveLive), left) && cache == old(cache)
    {
      var some: nat :| some <= live[oid];
      var failed := Mishap();
      if failed {
        live := live[oid := some];
        left := Some(some);
      } else {
        live := live - {oid};
        left := None;
      }
    }

    /** Removes a product directory; a failing removal leaves something of it. */
    method RemoveProducts(dir: string) returns (left: Option<nat>)
      modifies this`products, this`mishaps
      ensures dir !in old(products) ==> left.None?
      ensures mishaps == old(mishaps) + if left.Some? then 1 else 0
      ensures products == if dir in old(products) then Trim(old(products), dir, left) else old(products)
    {
      left := None;
      if dir in products {
        var failed := Mishap();
        if failed {
          var some: nat :| true;
          left := Some(some);
          products := products[dir := some];
        } else {
          products := products - {dir};
        }
      }
    }
  }

  /** The files after a safe deletion that nobody disturbs: renamed if live, then removed. */
  function RenamedFs(fs: Fs, oid: nat): Fs {
    DeleteFs(fs, Proc(false, false, oid, Deleting, Rename), None)
  }

  function FinishFs(fs: Fs, oid: nat): Fs {
    DeleteFs(RenamedFs(fs, oid), Proc(false, false, oid, Deleting, Remove), None)
  }

  function DropFs(fs: Fs, oid: nat): Fs {
    var live := DeleteFs(fs, Proc(true, false, oid, Deleting, RemoveLive), None);
    DeleteFs(live, Proc(true, false, oid, Deleting, Remove), None)
  }

  /** Files of other observations, quarantine and products are untouched. */
  predicate OnlyFilesOf(fs: Fs, fs': Fs, oid: nat) {
    && fs'.live - {oid} == fs.live - {oid} && fs'.trash - {oid} == fs.trash - {oid}
    && fs'.quarantine == fs.quarantine && fs'.products == fs.products && fs'.qStamp == fs.qStamp
  }

  /**
   * The files of a safe deletion that stopped: untouched, in trash with something left, or gone with
   * the row not yet changed.
   */
  predicate StoppedFs(fs: Fs, fs': Fs, oid: nat) {
    || fs' == fs
    || fs' == FinishFs(fs, oid)
    || (oid in fs'.trash && fs'.trash[oid] <= Bytes(RenamedFs(fs, oid).trash, oid) && oid in RenamedFs(fs, oid).trash
        && fs' == RenamedFs(fs, oid).(trash := RenamedFs(fs, oid).trash[oid := fs'.trash[oid]]))
  }

  lemma FinishedFilesGone(fs: Fs, oid: nat)
    requires !Recovery.Wedged(fs, oid)
    ensures oid !in FinishFs(fs, oid).live && oid !in FinishFs(fs, oid).trash && OnlyFilesOf(fs, FinishFs(fs, oid), oid)
  {
    assert fs.trash[oid := Bytes(fs.live, oid)] - {oid} == fs.trash - {oid};
  }

  lemma StoppedOnlyFilesOf(fs: Fs, fs': Fs, oid: nat)
    requires !Recovery.Wedged(fs, oid) && StoppedFs(fs, fs', oid)
    ensures OnlyFilesOf(fs, fs', oid)
  {
    FinishedFilesGone(fs, oid);
    if fs' != fs && fs' != FinishFs(fs, oid) {
      var renamed := RenamedFs(fs, oid);
      assert renamed.trash[oid := fs'.trash[oid]] - {oid} == renamed.trash - {oid};
      assert renamed.trash - {oid} == fs.trash - {oid};
    }
  }

  /** The file part of a safe deletion: rename if live, then remove; any of it may fail, and the process may die after it. */
  method MoveAndErase(root: DataRoot, oid: nat) returns (r: Result<()>)
    requires !Recovery.Wedged(root.Value(), oid)
    modifies root
    ensures r.Ok? ==> root.Value() == FinishFs(old(root.Value()), oid)
    ensures r.Ok? ==> root.cache == if oid in old(root.live) || oid in old(root.trash) then None else old(root.cache)
    ensures r.Err? ==> r.error.Interrupted? && StoppedFs(old(root.Value()), root.Value(), oid)
    ensures root.mishaps == old(root.mishaps) + if r.Err? then 1 else 0
  {
    if oid in root.live {
      var failed := root.Mishap();
      if failed {
        return Err(Interrupted);
      }
      root.trash := root.trash[oid := root.live[oid]];
      root.live := root.live - {oid};
      root.tStamp := root.tStamp + 1;
      root.cache := None;
    }
    assert root.Value() == RenamedFs(old(root.Value()), oid);
    if oid in root.trash {
      var left := root.RemoveTrashTree(oid);
      if left.Some? {
        return Err(Interrupted);
      }
      root.cache := None;
    }
    var died := root.Mishap();
    return if died then Err(Interrupted) else Ok(());
  }

  /**
   * Completes a deletion. It succeeds only from DELETING and never when both copies exist; when it
   * succeeds neither copy is left; when it fails the row is as before and no other entity was touched.
   */
  method FinishObservationDeletion(store: Store, root: DataRoot, oid: nat) returns (r: Result<()>)
    modifies store, root
    ensures r.Ok? ==>
      && IsObs(old(store.Value()), oid, Deleting) && !Recovery.Wedged(old(root.Value()), oid)
      && Ran(old(store.Value()), MoveObs(oid, Deleting, Deleted, Some(0), Some(0)), store.Value(), r)
      && root.Value() == FinishFs(old(root.Value()), oid)
      && oid !in root.live && oid !in root.trash && OnlyFilesOf(old(root.Value()), root.Value(), oid)
      && root.cache == (if oid in old(root.live) || oid in old(root.trash) then None else old(root.cache))
    ensures r.Err? ==> store.Value() == old(store.Value()) && OnlyFilesOf(old(root.Value()), root.Value(), oid)
    ensures r == Err(Interrupted) ==>
      IsObs(old(store.Value()), oid, Deleting) && StoppedFs(old(root.Value()), root.Value(), oid)
    ensures root.mishaps == old(root.mishaps) + if r == Err(Interrupted) then 1 else 0
    ensures r == Err(NoSuchRow) <==> oid >= |old(store.obs)|
    ensures r == Err(NotDeleting) <==> oid < |old(store.obs)| && !IsObs(old(store.Value()), oid, Deleting)
    ensures r == Err(BothCopies) <==> IsObs(old(store.Value()), oid, Deleting) && Recovery.Wedged(old(root.Value()), oid)
    ensures r.Err? && !r.error.Interrupted? ==> root.Value() == old(root.Value())
    ensures r.Err? ==> r.error.NoSuchRow? || r.error.NotDeleting? || r.error.BothCopies? || r.error.Interrupted?
  {
    if oid >= |store.obs| {
      return Err(NoSuchRow);
    }
    if !store.obs[oid].state.Deleting? {
      return Err(NotDeleting);
    }
    if oid in root.live && oid in root.trash {
      return Err(BothCopies);
    }
    r := MoveAndErase(root, oid);
    if r.Ok? {
      FinishedFilesGone(old(root.Value()), oid);
      r := store.TransitionObservation(oid, Deleting, Deleted, Some(0), Some(0));
    } else {
      StoppedOnlyFilesOf(old(root.Value()), root.Value(), oid);
    }
  }

  /** Removes the live and then the trash copy, whichever exist; the first failure stops it. */
  method EraseBoth(root: DataRoot, oid: nat) returns (erased: bool)
    modifies root
    ensures erased ==> root.Value() == DropFs(old(root.Value()), oid) && root.cache == None
    ensures erased ==> oid !in root.live && oid !in root.trash
    ensures OnlyFilesOf(old(root.Value()), root.Value(), oid)
    ensures root.mishaps == old(root.mishaps) + if erased then 0 else 1
  {
    if oid in root.live {
      var left := root.RemoveLiveTree(oid);
      if left.Some? {
        return false;
      }
    }
    if oid in root.trash {
      var left := root.RemoveTrashTree(oid);
      if left.Some? {
        return false;
      }
    }
    root.cache := None;
    return true;
  }

  /** The operator's forced drop of a wedged or inconsistent observation: both copies go, whatever there is. */
  method ForceDropObservationData(store: Store, root: DataRoot, oid: nat) returns (r: Result<()>)
    modifies store, root
    ensures r.Ok? ==>
      && (IsObs(old(store.Value()), oid, Deleting) || IsObs(old(store.Value()), oid, Inconsistent))
      && Ran(old(store.Value()), MoveObs(oid, old(store.obs)[oid].state, Deleted, Some(0), Some(0)), store.Value(), r)
      && root.Value() == DropFs(old(root.Value()), oid)
      && oid !in root.live && oid !in root.trash && OnlyFilesOf(old(root.Value()), root.Value(), oid) && root.cache == None
    ensures r.Err? ==> store.Value() == old(store.Value()) && OnlyFilesOf(old(root.Value()), root.Value(), oid)
    ensures root.mishaps == old(root.mishaps) + if r == Err(Interrupted) then 1 else 0
    ensures r.Err? ==> r.error.NoSuchRow? || r.error.NotDeleting? || r.error.Interrupted?
    ensures r == Err(NoSuchRow) <==> oid >= |old(store.obs)|
    ensures r == Err(NotDeleting) <==>
      oid < |old(store.obs)| && !IsObs(old(store.Value()), oid, Deleting) && !IsObs(old(store.Value()), oid, Inconsistent)
  {
    if oid >= |store.obs| {
      return Err(NoSuchRow);
    }
    var seen := store.obs[oid].state;
    if !seen.Deleting? && !seen.Inconsistent? {
      return Err(NotDeleting);
    }
    var erased := EraseBoth(root, oid);
    if !erased {
      return Err(Interrupted);
    }
    r := store.TransitionObservation(oid, seen, Deleted, Some(0), Some(0));
  }
}
