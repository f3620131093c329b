/** One open transaction: the tables as its statements see them. */
module Transactions {
  import opened Model
  import Store

  class Tx {
    var tables: Tables

    constructor (t: Tables)
      ensures tables == t
    {
      tables := t;
    }

    /** Compare-and-set on one key row; reports whether a row matched. */
    method UpdateKeyStates(id: Uuid, tenant: Uuid, fromLife: set<LifeCycle>, fromStatus: set<Status>,
                           toLife: LifeCycle, toStatus: Status) returns (matched: bool)
      modifies this
      ensures var r := Store.UpdateKeyStates(old(tables), id, tenant, fromLife, fromStatus, toLife, toStatus);
              matched == r.Some? && tables == (if matched then r.value else old(tables))
    {
      matched := false;
      if id in tables.keys && tables.keys[id].tenant == tenant {
        var row := tables.keys[id];
        if (fromLife == {} || row.life in fromLife) && (fromStatus == {} || row.status in fromStatus) {
          tables := tables.(keys := tables.keys[id := row.(life := toLife, status := toStatus)]);
          matched := true;
        }
      }
    }

    /** The row a listing ordered by version and revision, newest first, returns under limit 1. */
    method NewestVersion(tenant: Uuid, keyId: Uuid, q: Store.VersionQuery) returns (r: Option<KeyVersion>)
      ensures r == Store.Newest(tables, tenant, keyId, q)
    {
      var rest := set v | v in tables.versions && Store.Listed(tables, tenant, keyId, q, v);
      ghost var all := rest;
      assert forall v :: v in all <==> Store.Listed(tables, tenant, keyId, q, v);
      if rest == {} { return None; }
      var best :| best in rest;
      rest := rest - {best};
      while rest != {}
        invariant best in all && rest <= all
        invariant forall v | v in all && v !in rest :: Store.NotBefore(best, v)
        decreases |rest|
      {
        var v :| v in rest;
        if !Store.NotBefore(best, v) { best := v; }
        rest := rest - {v};
      }
      assert Store.IsNewest(tables, tenant, keyId, q, best);
      return Some(tables.versions[best]);
    }

    /** Compare-and-set on one version row; reports whether a row matched. */
    method UpdateVersionStates(v: VersionId, fromLife: set<LifeCycle>, fromProcessing: set<Processing>,
                               toLife: LifeCycle, toProcessing: Processing) returns (matched: bool)
      modifies this
      ensures var r := Store.UpdateVersionStates(old(tables), v, fromLife, fromProcessing, toLife, toProcessing);
              matched == r.Some? && tables == (if matched then r.value else old(tables))
    {
      matched := false;
      if v in tables.versions {
        var row := tables.versions[v];
        if row.life in fromLife && row.processing in fromProcessing {
          tables := tables.(versions := tables.versions[v := row.(life := toLife, processing := toProcessing)]);
          matched := true;
        }
      }
    }

    method CreateVersion(kv: KeyVersion) returns (ok: bool)
      modifies this
      ensures ok == (kv.id !in old(tables).versions)
      ensures tables == if ok then Store.InsertVersion(old(tables), kv) else old(tables)
    {
      ok := kv.id !in tables.versions;
      if ok { tables := tables.(versions := tables.versions[kv.id := kv]); }
    }

    /** Inserts the row, or adopts the row that conflicts with it and overwrites that row's states. */
    method UpsertKey(k: Key) returns (r: Store.UpsertResult)
      requires Store.NamesUnique(tables)
      modifies this
      ensures r == Store.UpsertKey(old(tables), k)
      ensures tables == if r.Upserted? then r.tables else old(tables)
    {
      var named := set i | i in tables.keys && tables.keys[i].tenant == k.tenant && tables.keys[i].name == k.name;
      assert Store.NameTaken(tables, k.tenant, k.name) ==> Store.IdByName(tables, k.tenant, k.name) in named;
      if k.id !in tables.keys && named == {} {
        tables := tables.(keys := tables.keys[k.id := k]);
        return Store.Upserted(tables, k.id);
      }
      var existing: Uuid;
      if named != {} {
        existing :| existing in named;
      } else if tables.keys[k.id].tenant == k.tenant {
        existing := k.id;
      } else {
        return Store.ConflictingRowGone;
      }
      if !tables.keys[existing].IsSame(k) { return Store.IdentityConflict; }
      var found := UpdateKeyStates(existing, tables.keys[existing].tenant,
                                   {tables.keys[existing].life}, {tables.keys[existing].status}, k.life, k.status);
      return Store.Upserted(tables, existing);
    }
  }
}
