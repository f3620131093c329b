/** Buffers of locked memory, the vaults that hold them, and the handler that owns two vaults. Every
    system call may fail. */
module SecureMem {
  newtype byte = b: int | 0 <= b < 256

  /** How a destroy ends: done (or nothing to do), stopped because the memory could not be made
      writable, or wiped but not released cleanly. */
  datatype Destroyed = Done | WriteRefused | UnallocFailed

  predicate Zeroed(s: seq<byte>) {
    forall i | 0 <= i < |s| :: s[i] == 0
  }

  /** Ranges over all buffers, in contracts that say which of them are new. */
  predicate Buffer(d: Data) {
    true
  }

  /** `content` is the memory itself, which a destroyed buffer no longer reaches. `mayStick` says
      whether the system may refuse to make the memory writable again; the program does not know. */
  class Data {
    const name: string
    const mayStick: bool
    var content: seq<byte>
    var live: bool
    var isReadOnly: bool

    ghost predicate Valid()
      reads this
    {
      live || Zeroed(content)
    }

    constructor (name: string, content: seq<byte>)
      ensures this.name == name && this.content == content && live && !isReadOnly && Valid()
      ensures forall o: Data | Buffer(o) && fresh(o) :: o == this
    {
      this.name, this.content, live, isReadOnly, mayStick := name, content, true, false, *;
    }

    /** Destroying wipes the memory, unless making it writable again is refused: then nothing changes.
        It is harmless on a destroyed buffer. */
    method Destroy() returns (r: Destroyed)
      requires Valid()
      modifies this
      ensures Valid()
      ensures r == WriteRefused ==> mayStick && live && old(live && isReadOnly) && content == old(content) && isReadOnly
      ensures r != WriteRefused ==> !live && Zeroed(content) && |content| == |old(content)|
      ensures !old(live) ==> r == Done && content == old(content) && isReadOnly == old(isReadOnly)
      ensures forall o: Data | Buffer(o) :: !fresh(o)
    {
      if !live { return Done; }
      if isReadOnly {
        if mayStick {
          if * { return WriteRefused; }
        }
        isReadOnly := false;
      }
      Zero();
      live := false;
      if * { return UnallocFailed; }
      return Done;
    }

    method Zero()
      modifies this`content
      ensures Zeroed(content) && |content| == |old(content)|
      ensures forall o: Data | Buffer(o) :: !fresh(o)
    {
      var i := 0;
      while i < |content|
        invariant forall o: Data | Buffer(o) :: !fresh(o)
        invariant 0 <= i <= |content| == |old(content)|
        invariant forall j | 0 <= j < i :: content[j] == 0
      {
        content := content[i := 0];
        i := i + 1;
      }
    }

    /** A destroyed buffer is left alone, without an error. */
    method MarkReadOnly() returns (ok: bool)
      requires Valid()
      modifies this`isReadOnly
      ensures Valid()
      ensures ok && live ==> isReadOnly
      ensures !live ==> ok && isReadOnly == old(isReadOnly)
      ensures old(isReadOnly) ==> ok && isReadOnly
      ensures forall o: Data | Buffer(o) :: !fresh(o)
    {
      if !live || isReadOnly { return true; }
      if * { return false; }
      isReadOnly := true;
      return true;
    }
  }

  method NewData(name: string, size: int) returns (d: Data?)
    ensures d == null || (fresh(d) && d.name == name && d.live && !d.isReadOnly && |d.content| == size > 0 && Zeroed(d.content))
    ensures forall o: Data | Buffer(o) && fresh(o) :: o == d
  {
    if size <= 0 { return null; }
    if * { return null; }
    d := new Data(name, seq(size, i => 0));
  }

  /** A buffer some of whose destroys may still be to come. */
  twostate predicate Unended(d: Data)
    reads d
  {
    && d.Valid()
    && (d.live ==> old(d.live) && d.content == old(d.content) && d.isReadOnly == old(d.isReadOnly))
    && (!old(d.live) ==> d.isReadOnly == old(d.isReadOnly))
  }

  /** What the errors of a vault say about an entry: live only after a refusal. */
  predicate Settled(d: Data, n: string, errs: map<string, Destroyed>)
    reads d
  {
    && (d.live ==> d.mayStick && d.isReadOnly && n in errs && errs[n] == WriteRefused)
    && (n in errs ==> errs[n] != Done)
  }

  /** Only the protection may have changed, and not that of a destroyed buffer. */
  twostate predicate Marked(d: Data)
    reads d
  {
    d.Valid() && d.live == old(d.live) && d.content == old(d.content) && (!d.live ==> d.isReadOnly == old(d.isReadOnly))
  }

  class MemVault {
    var store: map<string, Data>

    constructor ()
      ensures store == map[]
      ensures forall o: Data | Buffer(o) :: !fresh(o)
    {
      store := map[];
    }

    ghost predicate Valid()
      reads this, store.Values
    {
      forall n | n in store :: store[n].Valid()
    }

    method Reserve(name: string, size: int) returns (ok: bool)
      requires Valid()
      modifies this
      ensures Valid()
      ensures ok ==> name !in old(store) && size > 0 && name in store && store == old(store)[name := store[name]]
                     && fresh(store[name]) && store[name].live && |store[name].content| == size
      ensures !ok ==> store == old(store)
    {
      if name in store { return false; }
      var d := NewData(name, size);
      if d == null { return false; }
      store := store[name := d];
      return true;
    }

    method Import(name: string, d: Data?) returns (ok: bool)
      requires Valid() && (d != null ==> d.Valid())
      modifies this
      ensures Valid()
      ensures ok == (d != null && name !in old(store))
      ensures store == if ok then old(store)[name := d] else old(store)
      ensures forall o: Data | Buffer(o) :: !fresh(o)
    {
      if d == null || name in store { return false; }
      store := store[name := d];
      return true;
    }

    method Get(name: string) returns (d: Data?)
      ensures d == if name in store then store[name] else null
      ensures forall o: Data | Buffer(o) :: !fresh(o)
    {
      return if name in store then store[name] else null;
    }

    /** Destroys one entry; its name is dropped if that reported no error. */
    method Destroy(name: string) returns (r: Destroyed)
      requires name in store ==> store[name].Valid()
      modifies this, if name in store then {store[name]} else {}
      ensures name !in old(store) ==> r == Done
      ensures name in old(store) ==>
                var d := old(store[name]);
                && Unended(d) && (r == WriteRefused ==> d.mayStick && d.live && d.isReadOnly) && (r != WriteRefused ==> !d.live)
      ensures Listed(old(store)) && forall n :: n in store <==> n in old(store) && (n != name || r != Done)
      ensures forall o: Data | Buffer(o) :: !fresh(o)
    {
      if name !in store { return Done; }
      r := store[name].Destroy();
      if r == Done { store := store - {name}; }
    }

    /** Destroys every entry, two names of one buffer included. A name stays listed exactly if its
        destroy reported an error, and a buffer stays live, as it was, only if each of its names was
        refused. */
    method DestroyAll() returns (errs: map<string, Destroyed>)
      requires Valid()
      modifies this, store.Values
      ensures store.Keys == errs.Keys && Listed(old(store))
      ensures forall n | n in old(store) :: Unended(old(store)[n]) && Settled(old(store)[n], n, errs)
      ensures forall o: Data | Buffer(o) :: !fresh(o)
    {
      ghost var all := store;
      assert forall n | n in all :: all[n] in all.Values;
      errs := map[];
      var rest := store.Keys;
      while rest != {}
        invariant Listed(all) && forall n :: n in store <==> n in rest || n in errs
        invariant forall n | n in rest :: n !in errs
        invariant forall d | d in all.Values :: Unended(d)
        invariant forall n | n in all && n !in rest :: Settled(all[n], n, errs)
        invariant forall o: Data | Buffer(o) :: !fresh(o)
        decreases rest
      {
        var n :| n in rest;
        rest := rest - {n};
        assert store[n] == all[n] && all[n] in all.Values;
        var r := Destroy(n);
        if r != Done { errs := errs[n := r]; }
      }
    }

    ghost predicate Listed(all: map<string, Data>)
      reads this
    {
      forall n | n in store :: n in all && store[n] == all[n]
    }

    /** Marks every entry; entries destroyed before are passed over. */
    method MarkAllReadOnly() returns (ok: bool)
      requires Valid()
      modifies store.Values
      ensures Valid() && store == old(store)
      ensures forall n | n in store :: Marked(store[n]) && (ok && store[n].live ==> store[n].isReadOnly)
      ensures forall o: Data | Buffer(o) :: !fresh(o)
    {
      ok := true;
      var rest := store.Keys;
      while rest != {}
        invariant rest <= store.Keys && store == old(store)
        invariant forall n | n in store :: Marked(store[n])
        invariant ok ==> forall n | n in store && n !in rest :: store[n].live ==> store[n].isReadOnly
        invariant forall o: Data | Buffer(o) :: !fresh(o)
        decreases rest
      {
        var n :| n in rest;
        rest := rest - {n};
        assert store[n] in store.Values;
        var marked := store[n].MarkReadOnly();
        ok := ok && marked;
      }
    }
  }

  /** The end of a run, for whatever vaults the handler left: any buffers, under any names, in one
      vault or both, live or destroyed. Success returns the persistent vault. */
  method Finish(temporary: MemVault, persistent: MemVault, handlerFailed: bool, cancelled: bool)
    returns (success: bool, tempErrs: map<string, Destroyed>, keptErrs: map<string, Destroyed>)
    requires temporary != persistent && temporary.Valid() && persistent.Valid()
    modifies temporary, persistent, temporary.store.Values, persistent.store.Values
    ensures success ==> !handlerFailed && !cancelled
    // temporaries end with the run: one stays listed only after an error, and live only after a refusal
    ensures temporary.store.Keys == tempErrs.Keys && temporary.Listed(old(temporary.store))
    ensures forall n | n in old(temporary.store) ::
              var d := old(temporary.store)[n];
              if d.live then d.mayStick && d.isReadOnly && n in tempErrs && tempErrs[n] == WriteRefused && d.content == old(d.content)
              else Zeroed(d.content)
    // success: what the handler left live in the persistent vault alone is read-only, with its bytes
    ensures success ==> persistent.store == old(persistent.store)
    ensures success ==> forall n | n in old(persistent.store) && old(persistent.store)[n] !in old(temporary.store.Values) ::
              var d := old(persistent.store)[n];
              d.live == old(d.live) && (d.live ==> d.isReadOnly && d.content == old(d.content))
    // failure: the same end for the persistent vault as for the temporary one
    ensures !success ==> persistent.store.Keys == keptErrs.Keys && persistent.Listed(old(persistent.store))
    ensures !success ==> forall n | n in old(persistent.store) ::
              var d := old(persistent.store)[n];
              if d.live then d.mayStick && d.isReadOnly && n in keptErrs && keptErrs[n] == WriteRefused && d.content == old(d.content)
              else Zeroed(d.content)
    ensures forall o: Data | Buffer(o) :: !fresh(o)
  {
    assert forall n | n in temporary.store :: temporary.store[n] in temporary.store.Values;
    assert forall n | n in persistent.store :: persistent.store[n] in persistent.store.Values;
    success, keptErrs := false, map[];
    if !handlerFailed && !cancelled {
      success := persistent.MarkAllReadOnly();
    }
    tempErrs := temporary.DestroyAll();
    if !success { keptErrs := persistent.DestroyAll(); }
  }

  /** A buffer the handler put into both vaults: the run may succeed, and then returns it destroyed
      unless the system refused to make it writable again. */
  method SharedEntryIsLost(d: Data, name: string) returns (vault: MemVault?, errs: map<string, Destroyed>)
    requires d.Valid() && d.live
    modifies d
    ensures vault != null ==> name in vault.store && vault.store[name] == d
    ensures vault != null && errs == map[] ==> !d.live && Zeroed(d.content)
  {
    var temporary := new MemVault();
    var persistent := new MemVault();
    var both := temporary.Import(name, d);
    both := persistent.Import(name, d);
    var success, tempErrs, keptErrs := Finish(temporary, persistent, false, false);
    return if success then persistent else null, tempErrs;
  }
}
