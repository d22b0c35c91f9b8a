/** The retention sweep of app/services/cleanup.py: video files older than the
    retention interval are deleted from the downloads directory, the records of
    their jobs are marked `cleaned_up`, and expired records are swept from the
    store.

    The directory is a map from entry name to its stat, and the order in which
    the directory lists its entries is a parameter. Files whose `stat` or
    `unlink` raises are named by the parameter `faults`: the error is logged
    and the loop goes on with the next entry. */
module Cleanup {
  import opened Common
  import opened Storage

  const CleanupIntervalHours: int := 5

  /** The retention interval, in seconds. */
  const CleanupIntervalSeconds: int := CleanupIntervalHours * 3600

  /** What `stat` tells about a directory entry. */
  datatype FileStat = FileStat(isFile: bool, mtime: int, size: nat)

  type Directory = map<string, FileStat>

  /** Files modified strictly before this instant are deleted. */
  function Cutoff(now: int): int {
    now - CleanupIntervalSeconds
  }

  /** The entry is a regular file, older than the cutoff, and can be deleted. */
  predicate Stale(fs: Directory, name: string, cutoff: int, faults: set<string>) {
    name in fs && fs[name].isFile && name !in faults && fs[name].mtime < cutoff
  }

  /** The entries of `listing` the sweep deletes, in listing order. */
  function StaleFiles(fs: Directory, listing: seq<string>, cutoff: int, faults: set<string>): (gone: seq<string>)
    ensures forall n :: n in gone <==> n in listing && Stale(fs, n, cutoff, faults)
    ensures |gone| <= |listing|
  {
    if listing == [] then []
    else
      var last := listing[|listing| - 1];
      var init := StaleFiles(fs, listing[..|listing| - 1], cutoff, faults);
      assert forall n :: n in listing <==> n in listing[..|listing| - 1] || n == last;
      if Stale(fs, last, cutoff, faults) then init + [last] else init
  }

  /** Total size of the named entries. */
  function SizeSum(fs: Directory, names: seq<string>): nat {
    if names == [] then 0
    else
      var last := names[|names| - 1];
      SizeSum(fs, names[..|names| - 1]) + (if last in fs then fs[last].size else 0)
  }

  // ------------------------------------------------------ the record updates

  const CleanedUpUpdate: Record := map[
    "status" := VStr("cleaned_up"),
    "message" := VStr("File automatically deleted after 5 hours"),
    "download_url" := VNone]

  /** The task id a file name belongs to: the text before its first `_`, and
      none when the name has no `_`. */
  function TaskIdOf(filename: string): (r: Option<string>)
    ensures r.Some? <==> '_' in filename
    ensures r.Some? ==> '_' !in r.value && StartsWith(filename, r.value + "_")
  {
    var k := IndexOf(filename, '_');
    if k == |filename| then None
    else
      assert filename[..k + 1] == filename[..k] + "_";
      assert forall j :: 0 <= j < k ==> filename[..k][j] == filename[j];
      Some(Split(filename, '_')[0])
  }

  /** The store after `_cleanup_download_status(filename)`: the record of the
      file's task, when there is one and it is not empty, gets the
      `cleaned_up` fields merged in. */
  function CleanedUp(m: map<string, Record>, filename: string): (r: map<string, Record>)
    ensures r.Keys == m.Keys
  {
    match TaskIdOf(filename)
    case None => m
    case Some(id) => if id in m && m[id] != map[] then Merged(m, id, CleanedUpUpdate) else m
  }

  /** The store after `_cleanup_download_status` for each name in turn. */
  function CleanedUpAll(m: map<string, Record>, names: seq<string>): (r: map<string, Record>)
    ensures r.Keys == m.Keys
  {
    if names == [] then m else CleanedUp(CleanedUpAll(m, names[..|names| - 1]), names[|names| - 1])
  }

  /** `_cleanup_download_status`. */
  method CleanupDownloadStatus(store: DownloadStorage, filename: string)
    modifies store
    ensures store.storage == CleanedUp(old(store.storage), filename)
  {
    if '_' in filename {
      var potentialTaskId := Split(filename, '_')[0];
      var statusData := store.GetStatus(potentialTaskId);
      if statusData.Some? && statusData.value != map[] {
        store.UpdateStatus(potentialTaskId, CleanedUpUpdate);
      }
    }
  }

  // ------------------------------------------------------------- the sweeps

  /** The counters `cleanup_old_files` logs. */
  datatype CleanupReport = CleanupReport(deletedCount: nat, totalSizeFreed: nat)

  /** `cleanup_old_files` at instant `now`. `listing` is what iterating the
      downloads directory yields, None when the directory cannot be listed
      (the error is re-raised). The new directory is returned. */
  method CleanupOldFiles(store: DownloadStorage, fs: Directory, listing: Option<seq<string>>, now: int, faults: set<string>)
    returns (r: Result<CleanupReport, string>, fsAfter: Directory)
    requires listing.Some? ==> Distinct(listing.value)
    modifies store
    ensures listing.None? ==> r.Err? && fsAfter == fs && store.storage == old(store.storage)
    ensures listing.Some? ==>
              var gone := StaleFiles(fs, listing.value, Cutoff(now), faults);
              && r == Ok(CleanupReport(|gone|, SizeSum(fs, gone)))
              && fsAfter == Without(fs, gone)
              && store.storage == CleanedUpAll(old(store.storage), gone)
  {
    if listing.None? {
      return Err("FileNotFoundError: downloads directory"), fs;
    }
    var deletedCount, totalSizeFreed;
    deletedCount, totalSizeFreed, fsAfter := SweepListing(store, fs, listing.value, Cutoff(now), faults);
    r := Ok(CleanupReport(deletedCount, totalSizeFreed));
  }

  /** The loop of `cleanup_old_files` over the listed entries, in listing order. */
  method SweepListing(store: DownloadStorage, fs: Directory, names: seq<string>, cutoffTime: int, faults: set<string>)
    returns (deletedCount: nat, totalSizeFreed: nat, fsAfter: Directory)
    requires Distinct(names)
    modifies store
    ensures SweptPrefix(fs, names, cutoffTime, faults, deletedCount, totalSizeFreed, fsAfter,
                        old(store.storage), store.storage)
  {
    deletedCount, totalSizeFreed := 0, 0;
    fsAfter := fs;
    var i := 0;
    while i < |names|
      invariant 0 <= i <= |names|
      invariant SweptPrefix(fs, names[..i], cutoffTime, faults, deletedCount, totalSizeFreed, fsAfter,
                            old(store.storage), store.storage)
    {
      EntryUntouched(fs, names, i, cutoffTime, faults, deletedCount, totalSizeFreed, fsAfter,
                     old(store.storage), store.storage);
      ghost var d0, f0, dir0, m0 := deletedCount, totalSizeFreed, fsAfter, store.storage;
      deletedCount, totalSizeFreed, fsAfter :=
        SweepEntry(store, fs, names[i], cutoffTime, faults, deletedCount, totalSizeFreed, fsAfter);
      SweptPrefixExtends(fs, names, i, cutoffTime, faults, d0, f0, dir0, old(store.storage), m0,
                         deletedCount, totalSizeFreed, fsAfter, store.storage);
      i := i + 1;
    }
    assert names[..i] == names;
  }

  /** The body of the loop of `cleanup_old_files` for one entry, given a
      directory that still holds the entry as it was listed. */
  method SweepEntry(store: DownloadStorage, fs: Directory, name: string, cutoffTime: int, faults: set<string>,
                    deletedCount: nat, totalSizeFreed: nat, dir: Directory)
    returns (deleted: nat, freed: nat, dirAfter: Directory)
    requires name in dir <==> name in fs
    requires name in fs ==> dir[name] == fs[name]
    modifies store
    ensures EntryStep(fs, name, cutoffTime, faults, deletedCount, totalSizeFreed, dir, old(store.storage),
                      deleted, freed, dirAfter, store.storage)
  {
    deleted, freed, dirAfter := deletedCount, totalSizeFreed, dir;
    if name in dir && dir[name].isFile {
      // a raising `stat` or `unlink` is logged and the entry left alone
      if name !in faults && dir[name].mtime < cutoffTime {
        var fileSize := dir[name].size;
        dirAfter := dir - {name};
        deleted := deletedCount + 1;
        freed := totalSizeFreed + fileSize;
        CleanupDownloadStatus(store, name);
      }
    }
  }

  /** The state of `cleanup_old_files` after the entries of `prefix`: the
      counters, the directory and the store reflect exactly the stale ones. */
  ghost predicate SweptPrefix(fs: Directory, prefix: seq<string>, cutoff: int, faults: set<string>,
                              deleted: nat, freed: nat, dir: Directory, m0: map<string, Record>, m: map<string, Record>)
  {
    var gone := StaleFiles(fs, prefix, cutoff, faults);
    && deleted == |gone| && freed == SizeSum(fs, gone)
    && dir == Without(fs, gone)
    && m == CleanedUpAll(m0, gone)
  }

  /** What the sweep of one entry does to the counters, the directory and the
      store: a stale entry is counted, leaves the directory and cleans its
      task; any other entry changes nothing. */
  ghost predicate EntryStep(fs: Directory, name: string, cutoff: int, faults: set<string>,
                            deleted0: nat, freed0: nat, dir0: Directory, m0: map<string, Record>,
                            deleted: nat, freed: nat, dir: Directory, m: map<string, Record>)
  {
    if Stale(fs, name, cutoff, faults) then
      deleted == deleted0 + 1 && freed == freed0 + fs[name].size && dir == dir0 - {name} && m == CleanedUp(m0, name)
    else
      deleted == deleted0 && freed == freed0 && dir == dir0 && m == m0
  }

  /** Before its turn, an entry of a listing without repetitions is still in
      the directory as it was listed. */
  lemma EntryUntouched(fs: Directory, names: seq<string>, i: nat, cutoff: int, faults: set<string>,
                       deleted: nat, freed: nat, dir: Directory, m0: map<string, Record>, m: map<string, Record>)
    requires i < |names| && Distinct(names)
    requires SweptPrefix(fs, names[..i], cutoff, faults, deleted, freed, dir, m0, m)
    ensures names[i] in dir <==> names[i] in fs
    ensures names[i] in fs ==> dir[names[i]] == fs[names[i]]
  {
    StaleFilesSnoc(fs, names, i, cutoff, faults);
  }

  /** Sweeping one more entry keeps the state in step with the entries swept. */
  lemma SweptPrefixExtends(fs: Directory, names: seq<string>, i: nat, cutoff: int, faults: set<string>,
                           deleted0: nat, freed0: nat, dir0: Directory, mStart: map<string, Record>,
                           m0: map<string, Record>, deleted: nat, freed: nat, dir: Directory, m: map<string, Record>)
    requires i < |names| && Distinct(names)
    requires SweptPrefix(fs, names[..i], cutoff, faults, deleted0, freed0, dir0, mStart, m0)
    requires EntryStep(fs, names[i], cutoff, faults, deleted0, freed0, dir0, m0, deleted, freed, dir, m)
    ensures SweptPrefix(fs, names[..i + 1], cutoff, faults, deleted, freed, dir, mStart, m)
  {
    StaleFilesSnoc(fs, names, i, cutoff, faults);
    var gone := StaleFiles(fs, names[..i], cutoff, faults);
    assert (gone + [names[i]])[..|gone|] == gone;
  }

  /** The stale files of one more entry of a listing without repetitions. */
  lemma StaleFilesSnoc(fs: Directory, names: seq<string>, i: nat, cutoff: int, faults: set<string>)
    requires i < |names| && Distinct(names)
    ensures var gone := StaleFiles(fs, names[..i], cutoff, faults);
            && names[i] !in gone
            && (Stale(fs, names[i], cutoff, faults) ==>
                  && StaleFiles(fs, names[..i + 1], cutoff, faults) == gone + [names[i]]
                  && Without(fs, gone + [names[i]]) == Without(fs, gone) - {names[i]}
                  && SizeSum(fs, gone + [names[i]]) == SizeSum(fs, gone) + fs[names[i]].size
                  && |gone + [names[i]]| == |gone| + 1)
            && (!Stale(fs, names[i], cutoff, faults) ==> StaleFiles(fs, names[..i + 1], cutoff, faults) == gone)
  {
    var name := names[i];
    var gone := StaleFiles(fs, names[..i], cutoff, faults);
    assert names[..i + 1][..i] == names[..i];
    assert forall j :: 0 <= j < i ==> names[..i][j] != name;
    assert name !in gone;
    if Stale(fs, name, cutoff, faults) {
      WithoutSnoc(fs, gone, name);
      assert (gone + [name])[..|gone|] == gone;
    }
  }

  /** `cleanup_expired_statuses`: the store's sweep, whose error is logged and
      never propagated. */
  method CleanupExpiredStatuses(store: DownloadStorage, now: int)
    modifies store
    ensures !HasBadExpiry(old(store.storage), now) ==> store.storage == Swept(old(store.storage), now)
    ensures HasBadExpiry(old(store.storage), now) ==> store.storage == old(store.storage)
  {
    var _ := store.CleanupExpired(now);
  }

  // ----------------------------------------------------------- what it means

  /** A listed file is deleted exactly when it is a regular file modified
      strictly before the cutoff whose deletion does not fail; every entry
      that stays keeps its stat. */
  lemma {:induction false} DeletedIffOlder(fs: Directory, listing: seq<string>, now: int, faults: set<string>, name: string)
    requires name in fs
    ensures var after := Without(fs, StaleFiles(fs, listing, Cutoff(now), faults));
            && (name !in after <==> name in listing && fs[name].isFile && name !in faults
                                    && fs[name].mtime < now - CleanupIntervalSeconds)
            && (name in after ==> after[name] == fs[name])
  {
  }

  /** Sweeping the directory again at the same instant deletes nothing. */
  lemma {:induction false} SecondSweepDeletesNothing(fs: Directory, listing: seq<string>, cutoff: int, faults: set<string>)
    ensures var after := Without(fs, StaleFiles(fs, listing, cutoff, faults));
            StaleFiles(after, listing, cutoff, faults) == []
  {
    var gone := StaleFiles(fs, listing, cutoff, faults);
    var after := Without(fs, gone);
    assert forall n :: n in listing ==> !Stale(after, n, cutoff, faults);
    NothingStaleNothingGone(after, listing, cutoff, faults);
  }

  /** A sweep over entries none of which is stale deletes nothing. */
  lemma {:induction false} NothingStaleNothingGone(fs: Directory, listing: seq<string>, cutoff: int, faults: set<string>)
    requires forall n :: n in listing ==> !Stale(fs, n, cutoff, faults)
    ensures StaleFiles(fs, listing, cutoff, faults) == []
  {
    if listing != [] {
      var init := listing[..|listing| - 1];
      assert forall n :: n in init ==> n in listing;
      NothingStaleNothingGone(fs, init, cutoff, faults);
    }
  }

  /** The freed size is the sum over the deleted files, and never more than the
      sum over every listed entry. */
  lemma {:induction false} FreedAtMostListed(fs: Directory, listing: seq<string>, cutoff: int, faults: set<string>)
    ensures SizeSum(fs, StaleFiles(fs, listing, cutoff, faults)) <= SizeSum(fs, listing)
  {
    if listing != [] {
      FreedAtMostListed(fs, listing[..|listing| - 1], cutoff, faults);
    }
  }

  /** A task with a deleted file and a non-empty record ends `cleaned_up`
      without a download URL, whatever its status was; its other fields are
      kept. */
  lemma {:induction false} DeletedFileCleansItsTask(m: map<string, Record>, names: seq<string>, id: string, k: nat)
    requires id in m && m[id] != map[]
    requires k < |names| && TaskIdOf(names[k]) == Some(id)
    ensures var r := CleanedUpAll(m, names)[id];
            && "status" in r && r["status"] == VStr("cleaned_up")
            && "download_url" in r && r["download_url"] == VNone
            && (forall f :: f in m[id] && f !in CleanedUpUpdate ==> f in r && r[f] == m[id][f])
    decreases |names|
  {
    var init := names[..|names| - 1];
    if k < |names| - 1 {
      DeletedFileCleansItsTask(m, init, id, k);
      KeepsFieldsOutsideUpdate(m, init, id);
      CleanedUpKeepsNonEmpty(m, init, id);
    } else {
      KeepsFieldsOutsideUpdate(m, init, id);
      CleanedUpKeepsNonEmpty(m, init, id);
    }
  }

  /** The cleaned-up updates never touch a field outside theirs. */
  lemma {:induction false} KeepsFieldsOutsideUpdate(m: map<string, Record>, names: seq<string>, id: string)
    requires id in m
    ensures forall f :: f in m[id] && f !in CleanedUpUpdate ==>
              f in CleanedUpAll(m, names)[id] && CleanedUpAll(m, names)[id][f] == m[id][f]
    decreases |names|
  {
    if names != [] {
      KeepsFieldsOutsideUpdate(m, names[..|names| - 1], id);
    }
  }

  /** A non-empty record stays non-empty. */
  lemma {:induction false} CleanedUpKeepsNonEmpty(m: map<string, Record>, names: seq<string>, id: string)
    requires id in m && m[id] != map[]
    ensures CleanedUpAll(m, names)[id] != map[]
    decreases |names|
  {
    if names != [] {
      CleanedUpKeepsNonEmpty(m, names[..|names| - 1], id);
    }
  }

  /** A record no deleted file points to, and an empty record, are left as they were. */
  lemma {:induction false} UntouchedTaskKept(m: map<string, Record>, names: seq<string>, id: string)
    requires id in m
    requires m[id] == map[] || forall k :: 0 <= k < |names| ==> TaskIdOf(names[k]) != Some(id)
    ensures CleanedUpAll(m, names)[id] == m[id]
    decreases |names|
  {
    if names != [] {
      UntouchedTaskKept(m, names[..|names| - 1], id);
    }
  }
}
