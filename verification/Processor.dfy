/** Who owns the buffers while a secret is made or resolved. */
module Processor {
  import opened Model
  import opened SecureMem

  /** Destroyed, unless it was read-only and the system refused to make it writable. */
  ghost predicate Gone(d: Data)
    reads d
  {
    d.Valid() && (d.live ==> d.mayStick && d.isReadOnly)
  }

  /** The bytes a buffer shows; a destroyed one shows none. */
  function Bytes(d: Data): (r: seq<byte>)
    reads d
  {
    if d.live then d.content else []
  }

  /** A buffer of its own with the same bytes. */
  method CopySec(src: Data) returns (dst: Data?)
    ensures dst != null ==> fresh(dst) && dst.Valid() && dst.live && !dst.isReadOnly && src.live && dst.content == src.content != []
    ensures forall o: Data | Buffer(o) && fresh(o) :: o == dst
  {
    dst := NewData(src.name, |Bytes(src)|);
    if dst != null { dst.content := src.content; }
  }

  /** The copy's own run: it comes back frozen, or the run failed and it is gone like the rest. */
  method Persist(copy: Data, cancelled: bool) returns (sec: Data?)
    requires copy.Valid() && copy.live && !copy.isReadOnly
    modifies copy
    ensures sec != null ==> sec == copy && copy.live && copy.isReadOnly && copy.content == old(copy.content) && !cancelled
    ensures sec == null ==> Gone(copy)
    ensures forall o: Data | Buffer(o) :: !fresh(o)
  {
    var temporary := new MemVault();
    var persistent := new MemVault();
    var imported := persistent.Import("persisted", copy);
    assert persistent.store == map["persisted" := copy];
    var success, tempErrs, keptErrs := Finish(temporary, persistent, false, cancelled);
    if !success { return null; }
    sec := persistent.Get("persisted");
  }

  /** A seal or unseal at another node, which answers some bytes or an error. An empty buffer is turned
      away and a cancelled call never starts. From then on the node is sent the buffer's bytes, the
      buffer is destroyed whatever the answer, and the answer's bytes come back in a buffer of their
      own. No other buffer is left behind. */
  method CallRemote(input: Data, reply: Option<seq<byte>>, cancelledBefore: bool, cancelled: bool)
    returns (sent: Option<seq<byte>>, out: Data?)
    requires input.Valid()
    modifies input
    ensures Unended(input)
    ensures sent == if old(Bytes(input)) != [] && !cancelledBefore then Some(old(input.content)) else None
    ensures sent.Some? ==> Gone(input)
    ensures sent.None? ==> out == null && unchanged(input)
    ensures out != null ==> reply.Some? && reply.value != [] && !cancelled
    ensures out != null ==> fresh(out) && out.Valid() && out.live && out.isReadOnly && out.content == reply.value
    ensures forall o: Data | Buffer(o) && fresh(o) && o != out :: Gone(o)
  {
    if Bytes(input) == [] || cancelledBefore { return None, null; }
    sent, out := Some(input.content), null;
    var r := input.Destroy();
    if reply.None? { return; }
    var copy := NewData("data", |reply.value|);
    if copy == null { return; }
    copy.content := reply.value;
    out := Persist(copy, cancelled);
  }

  /** Any sealer: it hands over a reply, for a remote one what `CallRemote` returns, or fails; and it
      may or may not destroy the buffer it was given. */
  method CallSealer(input: Data, reply: Data?) returns (out: Data?)
    requires input.Valid()
    modifies input
    ensures Unended(input) && out == reply
    ensures forall o: Data | Buffer(o) :: !fresh(o)
  {
    if * { var r := input.Destroy(); }
    return reply;
  }

  /** Without a transport sealer the buffer passes through: both names are the same buffer. */
  method TransportStep(bound: bool, input: Data, reply: Data?) returns (out: Data?)
    requires input.Valid()
    modifies input
    ensures Unended(input) && out == if bound then reply else input
    ensures !bound ==> unchanged(input)
    ensures forall o: Data | Buffer(o) :: !fresh(o)
  {
    if !bound { return input; }
    out := CallSealer(input, reply);
  }

  /** The deferred destroys, in order; a buffer may come twice. */
  method DestroyEach(ds: seq<Data>)
    requires forall i | 0 <= i < |ds| :: ds[i].Valid()
    modifies ds
    ensures forall d | d in ds :: Gone(d)
    ensures forall o: Data | Buffer(o) :: !fresh(o)
  {
    var i := 0;
    while i < |ds|
      invariant 0 <= i <= |ds|
      invariant forall j | 0 <= j < |ds| :: ds[j].Valid()
      invariant forall j | 0 <= j < i :: Gone(ds[j])
      invariant forall o: Data | Buffer(o) :: !fresh(o)
    {
      var r := ds[i].Destroy();
      i := i + 1;
    }
  }

  /** The buffers handed over in three steps, each of which may fail, up to the first that does. A call
      that is cancelled before it starts is handed none. */
  ghost function HandedOver(first: Data?, second: Data?, third: Data?): (ds: set<Data>) {
    if first == null then {}
    else if second == null then {first}
    else if third == null then {first, second}
    else {first, second, third}
  }

  /** What the seals of a new secret hand over, after the secret itself. */
  function SealedFor(transport: bool, secret: Data?, reply: Data?): (d: Data?) {
    if transport then reply else secret
  }

  function FromParent(hasParent: bool, reply: Data?): (d: Data?) {
    if hasParent then reply else null
  }

  /** Generate, seal for transport, seal under the parent, store. Whatever a step hands over is gone
      afterwards, in every outcome: also when two names are one buffer, and when a sealer destroyed it
      already. The vault is given the bytes of the parent's reply, and is given them exactly if every
      step before came through. */
  method CreateSecret(secret: Data?, transport: bool, transReply: Data?, hasParent: bool, parentReply: Data?,
                      vaultFails: bool, cancelled: bool)
    returns (ok: bool, imported: Option<seq<byte>>)
    requires forall d: Data | d in {secret, transReply, parentReply} :: d.Valid()
    modifies HandedOver(secret, SealedFor(transport, secret, transReply), FromParent(hasParent, parentReply))
    ensures forall d | d in HandedOver(secret, SealedFor(transport, secret, transReply), FromParent(hasParent, parentReply)) :: Gone(d)
    ensures imported.Some? <==>
            secret != null && (transport ==> transReply != null) && hasParent && parentReply != null && !vaultFails
    ensures imported.Some? ==>
            || imported.value == old(Bytes(parentReply))
            || (imported.value == [] && parentReply in {secret, transReply})
    ensures ok <==> imported.Some? && !cancelled
    ensures forall o: Data | Buffer(o) :: !fresh(o)
  {
    if secret == null { return false, None; }
    var transSealed := TransportStep(transport, secret, transReply);
    if transSealed == null {
      DestroyEach([secret]);
      return false, None;
    }
    if !hasParent {
      DestroyEach([transSealed, secret]);
      return false, None;
    }
    var parentSealed := CallSealer(transSealed, parentReply);
    if parentSealed == null {
      DestroyEach([transSealed, secret]);
      return false, None;
    }
    imported := if vaultFails then None else Some(Bytes(parentSealed));
    ok := !vaultFails && !cancelled;
    DestroyEach([parentSealed, transSealed, secret]);
  }

  /** Export, unseal under the parent, unseal for transport, copy. Whatever a step hands over is gone
      afterwards, in every outcome. The secret handed out is a buffer of its own, live, read-only, with
      the bytes of the last reply; no other new buffer is left. */
  method ResolveSecret(exported: Data?, hasParent: bool, parentReply: Data?, transport: bool, transReply: Data?, cancelled: bool)
    returns (sec: Data?)
    requires forall d: Data | d in {exported, parentReply, transReply} :: d.Valid()
    modifies HandedOver(exported, FromParent(hasParent, parentReply), SealedFor(transport, parentReply, transReply))
    ensures forall d | d in HandedOver(exported, FromParent(hasParent, parentReply), SealedFor(transport, parentReply, transReply)) :: Gone(d)
    ensures sec != null ==>
            && exported != null && hasParent && parentReply != null && (transport ==> transReply != null) && !cancelled
            && fresh(sec) && sec.live && sec.isReadOnly
            && sec.content == old(Bytes(if transport then transReply else parentReply)) != []
    ensures forall o: Data | Buffer(o) && fresh(o) && o != sec :: Gone(o)
  {
    if exported == null { return null; }
    if !hasParent {
      DestroyEach([exported]);
      return null;
    }
    var parentUnsealed := CallSealer(exported, parentReply);
    if parentUnsealed == null {
      DestroyEach([exported]);
      return null;
    }
    var transUnsealed := TransportStep(transport, parentUnsealed, transReply);
    if transUnsealed == null {
      DestroyEach([parentUnsealed, exported]);
      return null;
    }
    var copy := CopySec(transUnsealed);
    DestroyEach([transUnsealed, parentUnsealed, exported]);
    if copy == null { return null; }
    sec := Persist(copy, cancelled);
  }
}
