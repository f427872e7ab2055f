/** The guest's linear memory and the buffers that cross the host/guest boundary
    in it: alloc and dealloc (kafig-runtime/src/alloc.rs), the host's helpers and
    operations (kafig-go/instance.go, runtime.go) and the guest's side of a
    synchronous RPC (kafig-runtime/src/init.rs). */
module LinearMemory {
  import opened Bits
  import opened Rpc

  type byte = b: int | 0 <= b < 256

  /** Blocks handed out by alloc and not yet given to dealloc: pointer to size. */
  type Blocks = map<nat, nat>

  /** 2^32: the number of addresses, and of values of a 32-bit word. */
  const TWO32: nat := 0x1_0000_0000

  // ---------------------------------------------------------------- packed words

  /** `(uint64(ptr) << 32) | uint64(len)` */
  function Pack(ptr: nat, len: nat): nat {
    BitOr(ptr * TWO32, len)
  }

  /** `packed >> 32` */
  function PackedPtr(packed: nat): nat {
    packed / TWO32
  }

  /** `packed & 0xFFFFFFFF` */
  function PackedLen(packed: nat): nat {
    BitAnd(packed, Pow2(32) - 1)
  }

  /** For 32-bit operands and a non-null pointer, the packed word is a non-zero
      64-bit word that unpacks to exactly the pointer and length. */
  lemma PackRoundTrip(ptr: nat, len: nat)
    requires 0 < ptr < TWO32 && len < TWO32
    ensures Pack(ptr, len) == ptr * 0x1_0000_0000 + len
    ensures Pack(ptr, len) != 0 && Pack(ptr, len) < TWO32 * TWO32
    ensures PackedPtr(Pack(ptr, len)) == ptr && PackedLen(Pack(ptr, len)) == len
  {
    var p := TWO32;
    Pow2Values();
    OrIsSum(ptr, len, 32);
    MaskIsMod(Pack(ptr, len), 32);
    DivModUnique(Pack(ptr, len), p, ptr, len);
    MulMono(p, ptr + 1, p);
    MulMono(p, 1, ptr);
  }

  // ---------------------------------------------------------------- the memory

  predicate Disjoint(p: nat, n: nat, q: nat, m: nat) {
    p + n <= q || q + m <= p
  }

  ghost predicate WellPlaced(live: Blocks, size: nat) {
    && (forall p :: p in live ==> 0 < p && 0 < live[p] && p + live[p] <= size)
    && (forall p, q :: p in live && q in live && p != q ==> Disjoint(p, live[p], q, live[q]))
  }

  /** The bytes of these blocks are the same in both memories. */
  ghost predicate Keeps(before: seq<byte>, after: seq<byte>, blocks: Blocks) {
    forall p :: p in blocks ==>
      p + blocks[p] <= |before| && p + blocks[p] <= |after| &&
      after[p..p + blocks[p]] == before[p..p + blocks[p]]
  }

  /** The host's handlers, and how it turns result and error texts into bytes. */
  datatype Host = Host(router: Router, bytes: string -> seq<byte>, errorBytes: RpcError -> seq<byte>)

  /** One call of host.rpcSync, and whether the guest runs out of memory between
      reading and freeing what the host wrote. */
  datatype SyncCall = SyncCall(call: Call, aborts: bool)

  function AnswerTag(a: Outcome): byte {
    if a.Rejected? then 1 else 0
  }

  function AnswerBytes(host: Host, a: Outcome): seq<byte> {
    match a
    case Resolved(json) => host.bytes(json)
    case Rejected(err) => host.errorBytes(err)
  }

  /** What the guest does during an export: synchronous RPCs, then a return or a trap. */
  datatype GuestRun = GuestRun(calls: seq<SyncCall>, traps: bool)

  predicate AnswerFits(host: Host, c: SyncCall) {
    1 + |AnswerBytes(host, SyncAnswer(host.router, c.call))| < TWO32
  }

  predicate Fits(host: Host, run: GuestRun) {
    forall c :: c in run.calls ==> AnswerFits(host, c)
  }

  predicate Aborts(run: GuestRun) {
    exists c :: c in run.calls && c.aborts
  }

  class Memory {
    const host: Host
    var mem: seq<byte>
    var live: Blocks  // the allocator's book-keeping
    /** How many requests for memory the allocator has refused. */
    ghost var refused: nat

    ghost predicate Valid()
      reads this
    {
      1 <= |mem| <= TWO32 && WellPlaced(live, |mem|)
    }

    constructor (host: Host)
      ensures Valid() && live == map[] && this.host == host
    {
      this.host := host;
      mem, live, refused := [0], map[], 0;
      new;
      Pow2Values();
    }

    // -------------------------------------------------------------- alloc.rs

    /** alloc: null for length zero or when memory runs out, else any block that
        overlaps no live one, if need be in freshly grown memory. */
    method Alloc(len: nat) returns (ptr: nat)
      requires Valid()
      modifies this
      ensures Valid() && Keeps(old(mem), mem, old(live))
      ensures refused == old(refused) + if ptr == 0 && len > 0 then 1 else 0
      ensures ptr == 0 ==> live == old(live)
      ensures ptr != 0 ==> 0 < len && ptr < TWO32 && ptr !in old(live) && live == old(live)[ptr := len]
    {
      var full: bool := *;
      if len == 0 {
        return 0;
      }
      if full {
        refused := refused + 1;
        return 0;
      }
      var spot: nat := *;
      if 0 < spot && spot + len <= |mem| && Free(spot, len) {
        ptr := spot;
        live := live[ptr := len];
      } else if |mem| + len <= TWO32 {
        ptr := |mem|;
        mem := mem + seq(len, _ => 0);
        live := live[ptr := len];
      } else {
        ptr := 0;
        refused := refused + 1;
      }
    }

    /** No live block overlaps this one. */
    predicate Free(spot: nat, len: nat)
      reads this
    {
      forall p :: p in live ==> Disjoint(p, live[p], spot, len)
    }

    /** dealloc: nothing for null or length zero; otherwise the block must be live
        and of exactly this size. */
    method Dealloc(ptr: nat, len: nat)
      requires Valid()
      requires ptr != 0 && len != 0 ==> ptr in live && live[ptr] == len
      modifies this`live
      ensures Valid() && live == if ptr == 0 || len == 0 then old(live) else old(live) - {ptr}
    {
      if ptr == 0 || len == 0 {
        return;
      }
      live := live - {ptr};
    }

    // -------------------------------------------------------------- the host's helpers

    /** wasmAlloc, with its clamp of an empty buffer to one byte. */
    method WasmAlloc(size: nat) returns (ok: bool, ptr: nat)
      requires Valid()
      modifies this
      ensures Valid() && Keeps(old(mem), mem, old(live))
      ensures refused == old(refused) + if ok then 0 else 1
      ensures !ok ==> live == old(live)
      ensures ok ==> 0 < ptr < TWO32 && ptr !in old(live) && live == old(live)[ptr := if size == 0 then 1 else size]
    {
      ptr := Alloc(Clamped(size));
      ok := ptr != 0;
    }

    /** wasmDealloc, with the same clamp. */
    method WasmDealloc(ptr: nat, size: nat)
      requires Valid() && ptr != 0 && ptr in live && live[ptr] == if size == 0 then 1 else size
      modifies this`live
      ensures Valid() && live == old(live) - {ptr}
    {
      Dealloc(ptr, Clamped(size));
    }

    /** Memory().Write: nothing at all if it would not fit. */
    method Write(ptr: nat, data: seq<byte>)
      requires Valid()
      modifies this`mem
      ensures Valid() && |mem| == |old(mem)|
      ensures mem == if ptr + |data| <= |old(mem)| then Written(old(mem), ptr, data) else old(mem)
    {
      if ptr + |data| <= |mem| {
        mem := Written(mem, ptr, data);
      }
    }

    /** alloc and Write: the data at the start of a fresh block. */
    method Place(data: seq<byte>, size: nat) returns (ptr: nat)
      requires Valid() && |data| <= size
      modifies this
      ensures Valid() && Keeps(old(mem), mem, old(live))
      ensures refused == old(refused) + if ptr == 0 && size > 0 then 1 else 0
      ensures ptr == 0 ==> live == old(live)
      ensures ptr != 0 ==>
        && ptr < TWO32 && 0 < size && ptr !in old(live) && live == old(live)[ptr := size]
        && ptr + size <= |mem| && mem[ptr..ptr + |data|] == data
    {
      ptr := Alloc(size);
      if ptr != 0 {
        ghost var m := mem;
        assert live[ptr] == size;
        Write(ptr, data);
        WriteKeeps(live, ptr, m, ptr, data);
        KeepsSome(m, mem, live - {ptr}, old(live));
        KeepsChain(old(mem), m, mem, old(live));
      }
    }

    /** Memory().Read */
    method Read(ptr: nat, len: nat) returns (data: Option<seq<byte>>)
      ensures data == if ptr + len <= |mem| then Some(mem[ptr..ptr + len]) else None
    {
      data := if ptr + len <= |mem| then Some(mem[ptr..ptr + len]) else None;
    }

    // -------------------------------------------------------------- synchronous RPC

    /** writeSyncRPCResult: [tag][payload] in a buffer that the guest will own. */
    method WriteSyncRPCResult(tag: byte, payload: seq<byte>) returns (packed: nat)
      requires Valid() && 1 + |payload| < TWO32
      modifies this
      ensures Valid() && Keeps(old(mem), mem, old(live))
      ensures refused == old(refused) + if packed == 0 then 1 else 0
      ensures packed == 0 ==> live == old(live)
      ensures packed != 0 ==>
        var ptr, len := PackedPtr(packed), PackedLen(packed);
        && ptr != 0 && ptr !in old(live) && len == 1 + |payload| && live == old(live)[ptr := len]
        && ptr + len <= |mem| && mem[ptr..ptr + len] == [tag] + payload
    {
      var ok, ptr := WasmAlloc(1 + |payload|);
      if !ok {
        return 0;
      }
      ghost var m0 := mem;
      assert live[ptr] == 1 + |payload|;
      Write(ptr, [tag]);
      ghost var m1 := mem;
      Write(ptr + 1, payload);
      WriteTwice(m0, ptr, tag, payload);
      WriteKeeps(live, ptr, m0, ptr, [tag]);
      WriteKeeps(live, ptr, m1, ptr + 1, payload);
      KeepsChain(m0, m1, mem, live - {ptr});
      KeepsSome(m0, mem, live - {ptr}, old(live));
      KeepsChain(old(mem), m0, mem, old(live));
      packed := Pack(ptr, 1 + |payload|);
      PackRoundTrip(ptr, 1 + |payload|);
    }

    /** hostRPCSync: run the handler and hand its answer over in guest memory; 0 is
        returned exactly when there is no memory for it, whatever the handler did. */
    method HostRPCSync(c: SyncCall) returns (packed: nat)
      requires Valid() && AnswerFits(host, c)
      modifies this
      ensures Valid() && Keeps(old(mem), mem, old(live))
      ensures refused == old(refused) + if packed == 0 then 1 else 0
      ensures packed == 0 ==> live == old(live)
      ensures packed != 0 ==>
        var ptr, len, a := PackedPtr(packed), PackedLen(packed), SyncAnswer(host.router, c.call);
        && ptr != 0 && ptr !in old(live) && live == old(live)[ptr := len]
        && 0 < len && ptr + len <= |mem| && mem[ptr..ptr + len] == [AnswerTag(a)] + AnswerBytes(host, a)
    {
      var a := SyncAnswer(host.router, c.call);
      packed := WriteSyncRPCResult(AnswerTag(a), AnswerBytes(host, a));
    }

    /** __host_rpc_sync_native: call the host, unpack, read, free, then return the
        value or throw the error that the handler's run ended with. */
    method RpcSyncNative(c: SyncCall) returns (r: SyncOutcome)
      requires Valid() && AnswerFits(host, c)
      modifies this
      ensures Valid() && Keeps(old(mem), mem, old(live))
      ensures refused == old(refused) + if r == Unavailable then 1 else 0
      ensures r == Aborted ==> c.aborts && OneMore(old(live), live)
      ensures r != Aborted ==> live == old(live)
      ensures r != Unavailable ==> r == if c.aborts then Aborted else Delivered(host, SyncAnswer(host.router, c.call))
      ensures r != Unavailable && r != Aborted ==>
        var k := c.call;
        var run: Option<HandlerRun> :=
          if k.name in host.router.sync then Some(host.router.sync[k.name](k.params, k.uid))
          else if host.router.fallback.Some? then Some(host.router.fallback.value(k.name, k.params, k.uid))
          else None;
        match run
        case None => r == Thrown(host.errorBytes(NotRegistered(k.name)))
        case Some(Panicked(what)) => r == Thrown(host.errorBytes(HandlerPanic(what)))
        case Some(Returned(_, Some(text))) => r == Thrown(host.errorBytes(HandlerError(text)))
        case Some(Returned(Some(json), None)) => r == Value(host.bytes(json))
        case Some(Returned(None, None)) => r == Value(host.bytes("null"))
    {
      DeliveredByHandler(host, c.call);
      hide WellPlaced, PackedPtr, PackedLen, SyncAnswer;
      var packed := HostRPCSync(c);
      if packed == 0 {
        return Unavailable;
      }
      var ptr, len := PackedPtr(packed), PackedLen(packed);
      var data := mem[ptr..ptr + len];
      var tag, payload := data[0], data[1..];
      if c.aborts {
        return Aborted;
      }
      Dealloc(ptr, len);
      assert live == old(live);
      r := if tag == 1 then Thrown(payload) else Value(payload);
    }

    /** An export: its synchronous RPCs in order, until it returns or traps. */
    method RunGuest(run: GuestRun) returns (err: bool, aborted: bool)
      requires Valid() && Fits(host, run)
      modifies this
      ensures Valid() && Keeps(old(mem), mem, old(live))
      ensures refused >= old(refused)
      ensures err == (aborted || run.traps)
      ensures refused == old(refused) ==> aborted == Aborts(run)
      ensures if aborted then Aborts(run) && OneMore(old(live), live) else live == old(live)
    {
      var i := 0;
      while i < |run.calls|
        invariant i <= |run.calls| && Valid() && Keeps(old(mem), mem, old(live)) && live == old(live)
        invariant refused >= old(refused)
        invariant refused == old(refused) ==> forall j :: 0 <= j < i ==> !run.calls[j].aborts
      {
        ghost var m := mem;
        var r := RpcSyncNative(run.calls[i]);
        KeepsChain(old(mem), m, mem, old(live));
        if r.Aborted? {
          return true, true;
        }
        i := i + 1;
      }
      return run.traps, false;
    }

    // -------------------------------------------------------------- instance operations

    /** Eval, EvalCompiled, evalPrelude, resolveRPC and rejectRPC: one input buffer,
        freed on the success and on the error path. The guest finds the input in
        it, and every buffer that was live keeps its bytes. */
    method WithBuffer(data: seq<byte>, run: GuestRun) returns (r: OpResult, ghost seen: seq<byte>)
      requires Valid() && Fits(host, run)
      modifies this
      ensures Valid() && Keeps(old(mem), mem, old(live))
      ensures r != AllocFailed ==> seen == data
      ensures r == AllocFailed ==> refused == old(refused) + 1
      ensures refused == old(refused) ==> r == if run.traps || Aborts(run) then CallFailed else Done
      ensures r == Done ==> !run.traps
      ensures live == old(live) || (r == CallFailed && Aborts(run) && OneMore(old(live), live))
    {
      seen := [];
      var ptr := Place(data, Clamped(|data|));
      if ptr == 0 {
        return AllocFailed, seen;
      }
      seen := mem[ptr..ptr + |data|];
      ghost var m1, l1 := mem, live;
      var err, aborted := RunGuest(run);
      KeepsSome(m1, mem, l1, old(live));
      KeepsChain(old(mem), m1, mem, old(live));
      OneMoreLess(old(live), ptr, l1, live);
      WasmDealloc(ptr, |data|);
      r := if err then CallFailed else Done;
    }

    /** DispatchEvent: two input buffers; the first is freed when the second
        cannot be allocated. */
    method DispatchEvent(name: seq<byte>, params: seq<byte>, run: GuestRun)
      returns (r: OpResult, ghost seenName: seq<byte>, ghost seenParams: seq<byte>)
      requires Valid() && Fits(host, run)
      modifies this
      ensures Valid() && Keeps(old(mem), mem, old(live))
      ensures r != AllocFailed ==> seenName == name && seenParams == params
      ensures r == AllocFailed ==> refused == old(refused) + 1
      ensures refused == old(refused) ==> r == if run.traps || Aborts(run) then CallFailed else Done
      ensures r == Done ==> !run.traps
      ensures live == old(live) || (r == CallFailed && Aborts(run) && OneMore(old(live), live))
    {
      hide WellPlaced, OneMore;
      var ok, namePtr, paramsPtr;
      ok, namePtr, paramsPtr := PlaceBoth(name, params);
      if !ok {
        return AllocFailed, [], [];
      }
      seenName, seenParams := mem[namePtr..namePtr + |name|], mem[paramsPtr..paramsPtr + |params|];
      ghost var m2, l2 := mem, live;
      var err, aborted := RunGuest(run);
      KeepsSome(m2, mem, l2, old(live));
      KeepsChain(old(mem), m2, mem, old(live));
      TwoFreed(old(live), namePtr, old(live)[namePtr := Clamped(|name|)], paramsPtr, l2, live);
      WasmDealloc(namePtr, |name|);
      WasmDealloc(paramsPtr, |params|);
      r := if err then CallFailed else Done;
    }

    /** The two input buffers, or neither. */
    method PlaceBoth(name: seq<byte>, params: seq<byte>) returns (ok: bool, namePtr: nat, paramsPtr: nat)
      requires Valid()
      modifies this
      ensures Valid() && Keeps(old(mem), mem, old(live))
      ensures refused == old(refused) + if ok then 0 else 1
      ensures !ok ==> live == old(live)
      ensures ok ==>
        && namePtr != 0 && paramsPtr != 0 && namePtr != paramsPtr && namePtr !in old(live) && paramsPtr !in old(live)
        && live == old(live)[namePtr := Clamped(|name|)][paramsPtr := Clamped(|params|)]
        && namePtr + |name| <= |mem| && mem[namePtr..namePtr + |name|] == name
        && paramsPtr + |params| <= |mem| && mem[paramsPtr..paramsPtr + |params|] == params
    {
      hide WellPlaced;
      paramsPtr := 0;
      namePtr := Place(name, Clamped(|name|));
      if namePtr == 0 {
        return false, namePtr, paramsPtr;
      }
      ghost var m1, l1 := mem, live;
      paramsPtr := Place(params, Clamped(|params|));
      KeepsSome(m1, mem, l1, old(live));
      KeepsChain(old(mem), m1, mem, old(live));
      if paramsPtr == 0 {
        InsertRemove(old(live), namePtr, Clamped(|name|));
        WasmDealloc(namePtr, |name|);
        return false, namePtr, paramsPtr;
      }
      assert l1[namePtr] == Clamped(|name|);
      Prefix(m1, mem, namePtr, |name|, Clamped(|name|));
      ok := true;
    }

    /** compileBytecode: no clamp, so an empty source is refused; a trap leaves
        the source buffer behind in the temporary instance. */
    method CompileBytecode(source: seq<byte>, out: Option<seq<byte>>, traps: bool)
      returns (bytecode: Option<seq<byte>>)
      requires Valid() && (out.Some? ==> |out.value| < TWO32)
      modifies this
      ensures Valid() && Keeps(old(mem), mem, old(live))
      ensures refused >= old(refused)
      ensures bytecode.Some? ==> bytecode == out
      ensures bytecode.Some? <==> source != [] && !traps && out.Some? && out.value != [] && refused == old(refused)
      ensures live == old(live) || (traps && bytecode.None? && OneMore(old(live), live))
    {
      hide WellPlaced, Written, PackedPtr, PackedLen;
      var ptr := Place(source, |source|);
      if ptr == 0 || traps {
        return None;
      }
      ghost var m1, l1 := mem, live;
      var packed := Compile(out);
      KeepsSome(m1, mem, l1, old(live));
      KeepsChain(old(mem), m1, mem, old(live));
      var bcPtr, bcLen := PackedPtr(packed), PackedLen(packed);
      ghost var m2 := mem;
      Dealloc(ptr, |source|);
      TwoBlocks(old(live), ptr, |source|, bcPtr, bcLen);
      if packed == 0 {
        return None;
      }
      var data := Read(bcPtr, bcLen);
      assert mem == m2 && data == Some(m2[bcPtr..bcPtr + bcLen]);
      Dealloc(bcPtr, bcLen);
      bytecode := data;
    }

    /** The guest's compile export: the bytecode in an alloc'd buffer, or 0. */
    method Compile(out: Option<seq<byte>>) returns (packed: nat)
      requires Valid() && (out.Some? ==> |out.value| < TWO32)
      modifies this
      ensures Valid() && Keeps(old(mem), mem, old(live))
      ensures packed == 0 ==> live == old(live)
      ensures refused >= old(refused)
      ensures packed == 0 <==> out.None? || out.value == [] || refused != old(refused)
      ensures packed != 0 ==>
        var ptr, len := PackedPtr(packed), PackedLen(packed);
        && out.Some? && ptr != 0 && 0 < len == |out.value| && ptr !in old(live) && live == old(live)[ptr := len]
        && ptr + len <= |mem| && mem[ptr..ptr + len] == out.value
    {
      if out.None? {
        return 0;
      }
      var ptr := Place(out.value, |out.value|);
      if ptr == 0 {
        return 0;
      }
      packed := Pack(ptr, |out.value|);
      PackRoundTrip(ptr, |out.value|);
    }
  }

  /** Unavailable is the guest's own exception for a packed word of 0. */
  datatype SyncOutcome = Unavailable | Value(json: seq<byte>) | Thrown(message: seq<byte>) | Aborted

  /** What host.rpcSync does in JavaScript when the handler's run ends like this. */
  function Delivered(host: Host, a: Outcome): SyncOutcome {
    match a
    case Resolved(json) => Value(host.bytes(json))
    case Rejected(err) => Thrown(host.errorBytes(err))
  }

  /** The run of the handler that hostRPCSync finds, if it finds one. */
  function SyncRun(router: Router, c: Call): Option<HandlerRun> {
    if c.name in router.sync then Some(router.sync[c.name](c.params, c.uid))
    else if router.fallback.Some? then Some(router.fallback.value(c.name, c.params, c.uid))
    else None
  }

  /** Exactly when the guest is sent an error tag: no handler was found, or its run
      failed or panicked. In particular a method without a handler is answered. */
  lemma ErrorTagIff(router: Router, c: Call)
    ensures var run := SyncRun(router, c);
      AnswerTag(SyncAnswer(router, c)) == 1 <==> run.None? || run.value.Panicked? || run.value.err.Some?
    ensures c.name !in router.sync && router.fallback.None? ==> SyncAnswer(router, c) == Rejected(NotRegistered(c.name))
  {
  }

  /** What host.rpcSync does, by the handler that is found and the way its run ends:
      a value is returned, everything else is thrown. */
  lemma DeliveredByHandler(host: Host, k: Call)
    ensures
      var run: Option<HandlerRun> :=
        if k.name in host.router.sync then Some(host.router.sync[k.name](k.params, k.uid))
        else if host.router.fallback.Some? then Some(host.router.fallback.value(k.name, k.params, k.uid))
        else None;
      Delivered(host, SyncAnswer(host.router, k)) == match run
        case None => Thrown(host.errorBytes(NotRegistered(k.name)))
        case Some(Panicked(what)) => Thrown(host.errorBytes(HandlerPanic(what)))
        case Some(Returned(_, Some(text))) => Thrown(host.errorBytes(HandlerError(text)))
        case Some(Returned(Some(json), None)) => Value(host.bytes(json))
        case Some(Returned(None, None)) => Value(host.bytes("null"))
  {
  }

  datatype OpResult = AllocFailed | CallFailed | Done

  function Clamped(size: nat): nat {
    if size == 0 then 1 else size
  }

  function Written(m: seq<byte>, ptr: nat, data: seq<byte>): seq<byte>
    requires ptr + |data| <= |m|
  {
    m[..ptr] + data + m[ptr + |data|..]
  }

  /** One block more than before: a result buffer the guest did not free. */
  ghost predicate OneMore(before: Blocks, after: Blocks) {
    exists p :: p in after && p !in before && after - {p} == before
  }

  lemma OneMoreLess(before: Blocks, ptr: nat, between: Blocks, after: Blocks)
    requires ptr !in before && ptr in between && between == before[ptr := between[ptr]]
    requires after == between || OneMore(between, after)
    ensures ptr in after && after[ptr] == between[ptr]
    ensures after == between ==> after - {ptr} == before
    ensures OneMore(between, after) ==> OneMore(before, after - {ptr})
  {
    if OneMore(between, after) {
      var p :| p in after && p !in between && after - {p} == between;
      assert between - {ptr} == before;
      assert after - {ptr} - {p} == after - {p} - {ptr};
      assert p in after - {ptr};
    }
  }

  /** Freeing the two buffers of an operation, the first one first. */
  lemma TwoFreed(before: Blocks, p: nat, l1: Blocks, q: nat, l2: Blocks, after: Blocks)
    requires p !in before && p in l1 && l1 == before[p := l1[p]]
    requires q !in l1 && q in l2 && l2 == l1[q := l2[q]]
    requires after == l2 || OneMore(l2, after)
    ensures p in after && after[p] == l1[p]
    ensures var rest := after - {p};
      && q in rest && rest[q] == l2[q]
      && (after == l2 ==> rest - {q} == before) && (OneMore(l2, after) ==> OneMore(before, rest - {q}))
  {
    OneMoreLess(l1, q, l2, after);
    OneMoreLess(before, p, l1, after - {q});
    assert after - {p} - {q} == after - {q} - {p};
  }

  lemma InsertRemove(before: Blocks, p: nat, n: nat)
    requires p !in before
    ensures before[p := n] - {p} == before
  {
  }

  lemma Prefix(a: seq<byte>, b: seq<byte>, p: nat, n: nat, size: nat)
    requires n <= size && p + size <= |a| && p + size <= |b| && a[p..p + size] == b[p..p + size]
    ensures a[p..p + n] == b[p..p + n]
  {
    assert a[p..p + n] == a[p..p + size][..n];
    assert b[p..p + n] == b[p..p + size][..n];
  }

  lemma TwoBlocks(before: Blocks, p: nat, n: nat, q: nat, m: nat)
    requires p !in before
    ensures before[p := n] - {p} == before
    ensures q !in before[p := n] ==> before[p := n][q := m] - {p} - {q} == before && q in before[p := n][q := m] - {p}
  {
  }

  /** Writing inside one block changes no other block. */
  lemma WriteKeeps(live: Blocks, p: nat, m: seq<byte>, ptr: nat, data: seq<byte>)
    requires WellPlaced(live, |m|) && p in live && p <= ptr && ptr + |data| <= p + live[p]
    ensures Keeps(m, Written(m, ptr, data), live - {p})
    ensures Written(m, ptr, data)[ptr..ptr + |data|] == data
  {
    var w := Written(m, ptr, data);
    forall q | q in live - {p}
      ensures q + live[q] <= |m| && w[q..q + live[q]] == m[q..q + live[q]]
    {
      assert Disjoint(p, live[p], q, live[q]);
    }
  }

  lemma WriteTwice(m: seq<byte>, ptr: nat, tag: byte, payload: seq<byte>)
    requires ptr + 1 + |payload| <= |m|
    ensures var w := Written(Written(m, ptr, [tag]), ptr + 1, payload);
      w[ptr..ptr + 1 + |payload|] == [tag] + payload
  {
  }

  lemma KeepsSome(a: seq<byte>, b: seq<byte>, blocks: Blocks, fewer: Blocks)
    requires Keeps(a, b, blocks)
    requires forall p :: p in fewer ==> p in blocks && blocks[p] == fewer[p]
    ensures Keeps(a, b, fewer)
  {
    forall p | p in fewer ensures p + fewer[p] <= |a| && p + fewer[p] <= |b| && b[p..p + fewer[p]] == a[p..p + fewer[p]] {
      assert p in blocks;
    }
  }

  lemma KeepsChain(a: seq<byte>, b: seq<byte>, c: seq<byte>, blocks: Blocks)
    requires Keeps(a, b, blocks) && Keeps(b, c, blocks)
    ensures Keeps(a, c, blocks)
  {
  }
}
