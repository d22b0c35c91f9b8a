/** The in-memory job record store of app/core/storage.py: a map from task id
    to a record, replaced, merged into and deleted by task id, and swept of
    records whose expiry instant has passed. */
module Storage {
  import opened Common

  /** What `cleanup_expired` makes of a record's `expires_at`. */
  datatype Expiry =
    | NoExpiry      // absent or falsy: the record is never swept
    | Expired       // an ISO timestamp strictly before now
    | NotExpired    // an ISO timestamp at or after now
    | Unparseable   // text that is not an ISO timestamp: logged and kept
    | NotText       // a truthy non-string: parsing raises TypeError, which is not caught

  function CheckExpiry(rec: Record, now: int): (e: Expiry)
    ensures e == Expired <==> "expires_at" in rec && rec["expires_at"].VTime? && now > rec["expires_at"].t
    ensures e == NoExpiry <==> !Truthy(Get(rec, "expires_at", VNone))
  {
    var v := Get(rec, "expires_at", VNone);
    if !Truthy(v) then NoExpiry
    else match v
      case VTime(t) => if now > t then Expired else NotExpired
      case VStr(_) => Unparseable
      case _ => NotText
  }

  /** The ids `cleanup_expired` collects at instant `now`. */
  function ExpiredIds(m: map<string, Record>, now: int): (ids: set<string>)
    ensures ids <= m.Keys
    ensures forall id :: id in m ==> (id in ids <==> CheckExpiry(m[id], now) == Expired)
  {
    set id | id in m && CheckExpiry(m[id], now) == Expired
  }

  /** Some record holds an `expires_at` that makes parsing raise. */
  predicate HasBadExpiry(m: map<string, Record>, now: int) {
    exists id :: id in m && CheckExpiry(m[id], now) == NotText
  }

  /** The store after `update_status(id, updates)`: `dict.update` on an existing record. */
  function Merged(m: map<string, Record>, id: string, updates: Record): (r: map<string, Record>)
    ensures r.Keys == m.Keys
    ensures forall k :: k in m && k != id ==> r[k] == m[k]
    ensures id in m ==> r[id] == m[id] + updates && r[id].Keys == m[id].Keys + updates.Keys
    ensures id in m ==> forall f :: f in updates ==> r[id][f] == updates[f]
    ensures id in m ==> forall f :: f in m[id] && f !in updates ==> r[id][f] == m[id][f]
    ensures id !in m ==> r == m
  {
    if id in m then m[id := m[id] + updates] else m
  }

  /** The store after a successful sweep at `now`. */
  function Swept(m: map<string, Record>, now: int): (r: map<string, Record>)
    ensures r.Keys == m.Keys - ExpiredIds(m, now)
    ensures forall id :: id in r ==> r[id] == m[id]
  {
    m - ExpiredIds(m, now)
  }

  class DownloadStorage {
    var storage: map<string, Record>

    constructor()
      ensures storage == map[]
    {
      storage := map[];
    }

    /** `set_status`: the whole record for `id` is replaced. */
    method SetStatus(id: string, data: Record)
      modifies this
      ensures storage == old(storage)[id := data]
    {
      storage := storage[id := data];
    }

    /** `get_status`: the record, or None for an unknown id. */
    method GetStatus(id: string) returns (r: Option<Record>)
      ensures r == Lookup(storage, id)
    {
      if id in storage {
        r := Some(storage[id]);
      } else {
        r := None;
      }
    }

    /** `update_status`: merge into an existing record; nothing for an unknown id. */
    method UpdateStatus(id: string, updates: Record)
      modifies this
      ensures storage == Merged(old(storage), id, updates)
    {
      if id in storage {
        storage := storage[id := storage[id] + updates];
      }
    }

    /** `delete_status`: remove one id; nothing for an unknown id. */
    method DeleteStatus(id: string)
      modifies this
      ensures storage == old(storage) - {id}
    {
      if id in storage {
        storage := storage - {id};
      }
    }

    /** `get_all_statuses`: a copy of the whole table. */
    method GetAllStatuses() returns (r: map<string, Record>)
      ensures r == storage
    {
      r := storage;
    }

    /** The first pass of `cleanup_expired`: the ids whose `expires_at`
        parses to an instant strictly before `now`, each once; a non-text
        `expires_at` raises out of the pass. */
    method CollectExpired(now: int) returns (r: Result<seq<string>, string>)
      ensures r.Ok? <==> !HasBadExpiry(storage, now)
      ensures r.Ok? ==> Distinct(r.value) && forall id :: id in r.value <==> id in ExpiredIds(storage, now)
    {
      var expiredTasks: seq<string> := [];
      var remaining := storage.Keys;
      while remaining != {}
        invariant remaining <= storage.Keys
        invariant forall i :: 0 <= i < |expiredTasks| ==> expiredTasks[i] in storage && expiredTasks[i] !in remaining
        invariant forall id :: id in storage && id !in remaining ==>
                    (id in expiredTasks <==> CheckExpiry(storage[id], now) == Expired)
        invariant forall id :: id in storage && id !in remaining ==> CheckExpiry(storage[id], now) != NotText
        invariant Distinct(expiredTasks)
        decreases remaining
      {
        var id :| id in remaining;
        var e := CheckExpiry(storage[id], now);
        if e == NotText {
          return Err("TypeError: fromisoformat: argument must be str");
        }
        if e == Expired {
          expiredTasks := expiredTasks + [id];
        }
        remaining := remaining - {id};
      }
      return Ok(expiredTasks);
    }

    /** `cleanup_expired`: a first pass collects the expired ids, a second
        pass deletes them. A non-text `expires_at` raises out of the first
        pass, before anything is deleted. */
    method CleanupExpired(now: int) returns (r: Result<nat, string>)
      modifies this
      ensures r.Ok? <==> !HasBadExpiry(old(storage), now)
      ensures r.Ok? ==> storage == Swept(old(storage), now) && r.value == |ExpiredIds(old(storage), now)|
      ensures r.Err? ==> storage == old(storage)
    {
      var collected := CollectExpired(now);
      if collected.Err? {
        return Err(collected.error);
      }
      var expiredTasks := collected.value;
      assert (set t | t in expiredTasks) == ExpiredIds(storage, now);
      DistinctCardinality(expiredTasks);
      SweptIsWithout(storage, now, expiredTasks);
      DeleteAll(expiredTasks);
      return Ok(|expiredTasks|);
    }

    /** The second pass of `cleanup_expired`: `delete_status` for each id. */
    method DeleteAll(ids: seq<string>)
      modifies this
      ensures storage == Without(old(storage), ids)
    {
      var i := 0;
      while i < |ids|
        invariant 0 <= i <= |ids|
        invariant storage == Without(old(storage), ids[..i])
      {
        WithoutSnoc(old(storage), ids[..i], ids[i]);
        assert ids[..i + 1] == ids[..i] + [ids[i]];
        DeleteStatus(ids[i]);
        i := i + 1;
      }
      assert ids[..i] == ids;
    }
  }

  /** Deleting the collected ids one by one is the sweep. */
  lemma SweptIsWithout(m: map<string, Record>, now: int, ids: seq<string>)
    requires forall id :: id in ids <==> id in ExpiredIds(m, now)
    ensures Without(m, ids) == Swept(m, now)
  {
  }

  /** No element of `s` occurs twice. */
  predicate Distinct(s: seq<string>) {
    forall i, j :: 0 <= i < j < |s| ==> s[i] != s[j]
  }

  /** A list without repetitions has as many elements as the set of its elements. */
  lemma {:induction false} DistinctCardinality(s: seq<string>)
    requires Distinct(s)
    ensures |set t | t in s| == |s|
  {
    if s != [] {
      var init := s[..|s| - 1];
      DistinctCardinality(init);
      assert (set t | t in s) == (set t | t in init) + {s[|s| - 1]};
      assert s[|s| - 1] !in init;
    }
  }

  /** A second sweep at the same instant finds nothing more to remove. */
  lemma {:induction false} SweepIsIdempotent(m: map<string, Record>, now: int)
    ensures ExpiredIds(Swept(m, now), now) == {}
    ensures Swept(Swept(m, now), now) == Swept(m, now)
    ensures !HasBadExpiry(m, now) ==> !HasBadExpiry(Swept(m, now), now)
  {
    var s := Swept(m, now);
    assert forall id :: id in s ==> id !in ExpiredIds(m, now) && s[id] == m[id];
  }

  /** A record without a parseable past expiry survives the sweep unchanged,
      and so does every record whose expiry is still ahead. */
  lemma {:induction false} SweepKeepsLive(m: map<string, Record>, now: int, id: string)
    requires id in m
    ensures id in Swept(m, now) <==> CheckExpiry(m[id], now) != Expired
    ensures CheckExpiry(m[id], now) in {NoExpiry, Unparseable, NotExpired} ==> Swept(m, now)[id] == m[id]
  {
  }

  /** Sweeping later removes at least what sweeping earlier does. */
  lemma {:induction false} ExpiredIdsGrowWithTime(m: map<string, Record>, t1: int, t2: int)
    requires t1 <= t2
    ensures ExpiredIds(m, t1) <= ExpiredIds(m, t2)
  {
    forall id | id in ExpiredIds(m, t1) ensures id in ExpiredIds(m, t2) {
      assert CheckExpiry(m[id], t1) == Expired;
    }
  }

}
