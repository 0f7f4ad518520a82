// The cache of effective access (authz/cache.go): entries dropped explicitly,
// and an epoch that every eviction advances.
module Cache {
  import opened Wrappers
  import opened Clauses

  type Time = int

  // What is cached for a subject. E carries the effective access.
  datatype Entry<E> = Entry(eff: E, expires: Time)

  // The entries that survive the eviction of a custom role.
  function NotUsing<E>(entries: map<Subject, Entry<E>>, uses: (E, int) -> bool, roleId: int): map<Subject, Entry<E>> {
    map s | s in entries && !uses(entries[s].eff, roleId) :: entries[s]
  }

  class SubjectCache<E> {
    var entries: map<Subject, Entry<E>>
    var epoch: nat
    const ttl: Time
    const usesRole: (E, int) -> bool

    constructor (ttl: Time, usesRole: (E, int) -> bool)
      ensures entries == map[] && epoch == 0 && this.usesRole == usesRole
      ensures this.ttl == if ttl <= 0 then 300_000_000_000 else ttl
    {
      this.ttl := if ttl <= 0 then 300_000_000_000 else ttl;
      this.usesRole := usesRole;
      entries := map[];
      epoch := 0;
    }

    // An entry past its time is dropped; the epoch stays.
    method Get(s: Subject, now: Time) returns (r: Option<E>)
      modifies this`entries
      ensures r == if s in old(entries) && now < old(entries)[s].expires then Some(old(entries)[s].eff) else None
      ensures entries == if r.None? then old(entries) - {s} else old(entries)
    {
      if s !in entries {
        assert entries - {s} == entries;
        return None;
      }
      if now >= entries[s].expires {
        entries := entries - {s};
        return None;
      }
      return Some(entries[s].eff);
    }

    method BeginLoad() returns (e: nat)
      ensures e == epoch
    {
      return epoch;
    }

    // A result loaded before an eviction is not stored.
    method Put(s: Subject, eff: E, loadedAt: nat, now: Time)
      modifies this`entries
      ensures entries == if loadedAt == epoch then old(entries)[s := Entry(eff, now + ttl)] else old(entries)
    {
      if loadedAt != epoch {
        return;
      }
      entries := entries[s := Entry(eff, now + ttl)];
    }

    method Evict(s: Subject)
      modifies this
      ensures epoch == old(epoch) + 1 && entries == old(entries) - {s}
    {
      epoch := epoch + 1;
      entries := entries - {s};
    }

    // Deleting the users of a role one by one, in any order.
    method EvictRole(roleId: int)
      modifies this
      ensures epoch == old(epoch) + 1 && entries == NotUsing(old(entries), usesRole, roleId)
      ensures forall s :: s in entries <==> s in old(entries) && !usesRole(old(entries)[s].eff, roleId)
      ensures forall s :: s in entries ==> entries[s] == old(entries)[s]
    {
      epoch := epoch + 1;
      ghost var all := entries;
      var left := entries.Keys;
      while left != {}
        invariant epoch == old(epoch) + 1 && left <= all.Keys
        invariant entries == map s | s in all && (s in left || !usesRole(all[s].eff, roleId)) :: all[s]
        decreases left
      {
        var s :| s in left;
        if usesRole(entries[s].eff, roleId) {
          entries := entries - {s};
        }
        left := left - {s};
      }
    }

    method EvictAll()
      modifies this
      ensures epoch == old(epoch) + 1 && entries == map[]
    {
      epoch := epoch + 1;
      entries := map[];
    }
  }
}
