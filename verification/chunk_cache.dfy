/** The reference-counted cache slot of the chunk cache, and the counter
    snapshot the cache reports. A slot holds a 64-bit reference count and
    at most one owned chunk; operations that throw in C++ return a
    `Step` whose slot is the state left behind and whose outcome is either
    the returned value or the error thrown. */
module ChunkCache {
  import opened Wrappers
  import opened Uint64s
  import opened Chunks

  /** The two runtime errors a slot can throw. */
  datatype Err = Negative | MissingChunk

  /** The message each error is thrown with. */
  function Message(e: Err): string
  {
    match e
    case Negative => "Negative"
    case MissingChunk => "Missing chunk"
  }

  /** A cache slot: how many holders retain it, and the chunk it owns, if any. */
  datatype ReffedChunk = ReffedChunk(refs: Uint64, owned: Option<Chunk>)

  /** The slot after a call that may throw, and what the call produced. */
  datatype Step<+T> = Step(slot: ReffedChunk, out: Result<T, Err>)

  /** `count()`: the current number of references, which is what `del()`
      has left to release: zero exactly when `del()` throws, and one more
      than what a successful `del()` returns. */
  function Count(s: ReffedChunk): (n: Uint64)
    ensures n == 0 <==> Del(s).out.Failure?
    ensures Del(s).out.Success? ==> n == Del(s).out.value + 1
  {
    s.refs
  }

  /** `exists()`: whether a chunk is resident in the slot, which is exactly
      when `chunk()` returns instead of throwing. */
  function Exists(s: ReffedChunk): (b: bool)
    ensures b <==> GetChunk(s).out.Success?
  {
    s.owned.Some?
  }

  /** `chunk()`: the resident chunk, or `MissingChunk` thrown from an empty
      slot. Either way the slot is left as it was. */
  function GetChunk(s: ReffedChunk): (r: Step<Chunk>)
    ensures r.slot == s
    ensures r.out.Failure? <==> s.owned.None?
    ensures r.out.Failure? ==> r.out.error == MissingChunk && Message(r.out.error) == "Missing chunk"
    ensures r.out.Success? ==> s.owned == Some(r.out.value)
  {
    match s.owned
    case None => Step(s, Failure(MissingChunk))
    case Some(c) => Step(s, Success(c))
  }

  /** The constructor: a resident chunk built from the key, and no references. */
  function New(ck: ChunkKey, hierarchy: Hierarchy): (s: ReffedChunk)
    ensures Count(s) == 0
    ensures Exists(s)
    ensures GetChunk(s).out == Success(MakeChunk(ck, hierarchy))
  {
    ReffedChunk(0, Some(MakeChunk(ck, hierarchy)))
  }

  /** `add()`: takes one more reference. The counter is a `uint64_t`, so the
      increment wraps to zero from the largest value. */
  function Add(s: ReffedChunk): (r: ReffedChunk)
    ensures Count(s) < MAX ==> Count(r) == Count(s) + 1
    ensures Count(s) == MAX ==> Count(r) == 0
    ensures r.owned == s.owned
  {
    s.(refs := Inc(s.refs))
  }

  /** `del()`: releases one reference and returns how many remain; throws
      `Negative`, leaving the slot untouched, when there is none to release. */
  function Del(s: ReffedChunk): (r: Step<Uint64>)
    ensures r.out.Failure? <==> s.refs == 0
    ensures r.out.Failure? ==> r.out.error == Negative && Message(r.out.error) == "Negative" && r.slot == s
    ensures r.out.Success? ==> r.out.value == s.refs - 1 && r.slot.refs == r.out.value
    ensures r.slot.owned == s.owned
  {
    if s.refs == 0 then Step(s, Failure(Negative))
    else
      var remaining := s.refs - 1;
      Step(s.(refs := remaining), Success(remaining))
  }

  /** `reset()`: frees the resident chunk, if any. Entwine's `reset()` does
      not consult the reference count. */
  function Reset(s: ReffedChunk): (r: ReffedChunk)
    ensures !Exists(r)
    ensures Count(r) == Count(s)
  {
    s.(owned := None)
  }

  /** `assign()`: builds a new resident chunk into an empty slot. */
  function Assign(s: ReffedChunk, ck: ChunkKey, hierarchy: Hierarchy): (r: ReffedChunk)
    requires !Exists(s)
    ensures Exists(r)
    ensures GetChunk(r).out == Success(MakeChunk(ck, hierarchy))
    ensures Count(r) == Count(s)
  {
    s.(owned := Some(MakeChunk(ck, hierarchy)))
  }

  /** `exists()` holds exactly when `chunk()` does not throw. */
  lemma ExistsIffChunkSucceeds(s: ReffedChunk)
    ensures Exists(s) <==> GetChunk(s).out.Success?
    ensures !Exists(s) <==> GetChunk(s).out == Failure(MissingChunk)
  {
  }

  /** Taking a reference and releasing it returns the slot to where it was,
      and `del()` reports the original count. */
  lemma AddDelRoundTrip(s: ReffedChunk)
    requires Count(s) < MAX
    ensures Del(Add(s)) == Step(s, Success(Count(s)))
  {
  }

  /** Releasing a held reference and taking it back is also the identity. */
  lemma DelAddRoundTrip(s: ReffedChunk)
    requires Count(s) > 0
    ensures Del(s).out.Success?
    ensures Add(Del(s).slot) == s
  {
  }

  /** At the top of the counter's range the increment wraps, so the release
      that should undo it throws `Negative` instead. */
  lemma AddAtMaxWraps(s: ReffedChunk)
    requires Count(s) == MAX
    ensures Count(Add(s)) == 0
    ensures Del(Add(s)) == Step(Add(s), Failure(Negative))
  {
  }

  /** `reset()` twice is `reset()` once. */
  lemma ResetIdempotent(s: ReffedChunk)
    ensures Reset(Reset(s)) == Reset(s)
  {
  }

  /** Freeing a slot and assigning it again revives it with the new chunk and
      the same reference count: the same slot the constructor would build
      from that key, apart from the count. */
  lemma ResetAssignRevives(s: ReffedChunk, ck: ChunkKey, hierarchy: Hierarchy)
    ensures Assign(Reset(s), ck, hierarchy) == New(ck, hierarchy).(refs := Count(s))
  {
  }

  /** Reference-count operations never change residency, and residency
      operations never change the reference count. */
  lemma RefsAndResidencyIndependent(s: ReffedChunk, ck: ChunkKey, hierarchy: Hierarchy)
    ensures Exists(Add(s)) == Exists(s) && Exists(Del(s).slot) == Exists(s)
    ensures Count(Reset(s)) == Count(s)
    ensures !Exists(s) ==> Count(Assign(s, ck, hierarchy)) == Count(s)
    ensures Reset(Add(s)) == Add(Reset(s))
    ensures Del(Reset(s)).slot == Reset(Del(s).slot)
  {
  }

  /** `ChunkCache::Info`: counts of chunks written, read back and alive. */
  datatype Info = Info(written: Uint64, read: Uint64, alive: Uint64)

  /** A default-constructed `Info`: nothing written, read or alive. */
  function DefaultInfo(): (i: Info)
    ensures i.written == 0 && i.read == 0 && i.alive == 0
  {
    Info(0, 0, 0)
  }
}
