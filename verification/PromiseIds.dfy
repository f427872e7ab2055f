/** The 31-bit promise ids drawn by the guest's makeRpcPromise
    (kafig-runtime/src/prelude.js). Draw number uid (counting from 1) reads the
    JavaScript number nextRpcId, which counts up and then sticks at 2^53, and
    masks it to 31 bits. */
module PromiseIds {
  import opened Bits

  const WINDOW: nat := 0x8000_0000
  const MAX_EXACT: nat := 0x20_0000_0000_0000

  /** The value of nextRpcId at draw number uid: past 2^53 the increment rounds away. */
  function CounterAt(uid: nat): nat {
    if uid <= MAX_EXACT then uid else MAX_EXACT
  }

  /** One evaluation of `nextRpcId++` on a double. */
  function Increment(counter: nat): nat
    requires counter <= MAX_EXACT
  {
    if counter == MAX_EXACT then MAX_EXACT else counter + 1
  }

  /** ToInt32 of a non-negative integral double (section 7.1.6 of ECMA-262). */
  function ToInt32(n: nat): int {
    var m := n % 0x1_0000_0000;
    if m >= WINDOW then m - 0x1_0000_0000 else m
  }

  /** The two's complement bit pattern of a 32-bit integer, as a number. */
  function Pattern32(i: int): nat
    requires -0x8000_0000 <= i < 0x8000_0000
  {
    if i < 0 then i + 0x1_0000_0000 else i
  }

  /** `n & 0x7FFFFFFF` as JavaScript computes it; Bits.Pow2Values gives the mask's value. */
  function Masked(n: nat): nat {
    BitAnd(Pattern32(ToInt32(n)), Pow2(31) - 1)
  }

  /** The promise id of draw number uid. */
  function IdOf(uid: nat): nat {
    CounterAt(uid) % WINDOW
  }

  lemma MaskedIsModulo(n: nat)
    ensures Masked(n) == n % WINDOW
  {
    Pow2Values();
    MaskIsMod(Pattern32(ToInt32(n)), 31);
  }

  /** Two draws share an id exactly when they lie a multiple of 2^31 apart. */
  lemma SameIdIff(u: nat, n: nat)
    requires u < n
    ensures IdOf(u) == IdOf(n) <==> (CounterAt(n) - CounterAt(u)) % WINDOW == 0
    ensures n - u < WINDOW && n <= MAX_EXACT ==> IdOf(u) != IdOf(n)
    ensures n - u == WINDOW && n <= MAX_EXACT ==> IdOf(u) == IdOf(n)
  {
  }

  /** The first 2^31 - 1 promises have the ids 1, 2, 3 and so on. */
  lemma FirstIds(uid: nat)
    requires uid < 0x8000_0000
    ensures IdOf(uid) == uid
  {
  }

  /** i32 to uint32, as the guest's argument reaches the Go import. */
  function ToUint32(i: int): nat
    requires -0x8000_0000 <= i < 0x8000_0000
  {
    Pattern32(i)
  }

  /** uint64 to the i32 parameter of resolve_rpc / reject_rpc. */
  function Low32AsI32(w: nat): int {
    ToInt32(w)
  }

  /** An id drawn by the guest comes back unchanged from its trip through
      i32 -> uint32 -> uint64 -> i32, so the table is asked for the key it stored. */
  lemma IdSurvivesCrossing(uid: nat)
    ensures IdOf(uid) < WINDOW
    ensures Low32AsI32(ToUint32(IdOf(uid))) == IdOf(uid)
  {
  }
}
