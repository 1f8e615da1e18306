/** Sequences of `add()` / `del()` calls on one slot. Each `del()` that finds
    no reference throws, which aborts the rest of the sequence. */
module RefHistory {
  import opened Wrappers
  import opened Uint64s
  import opened ChunkCache

  datatype RefOp = AddRef | DelRef

  /** Replays the calls in order, stopping at the first thrown error with the
      slot as that call left it. */
  function Run(s: ReffedChunk, ops: seq<RefOp>): Step<()>
    decreases |ops|
  {
    if |ops| == 0 then Step(s, Success(()))
    else match ops[0]
      case AddRef => Run(Add(s), ops[1..])
      case DelRef =>
        var d := Del(s);
        if d.out.Failure? then Step(d.slot, Failure(d.out.error))
        else Run(d.slot, ops[1..])
  }

  /** References taken minus references released, independent of order. */
  function Net(ops: seq<RefOp>): int
  {
    (multiset(ops)[AddRef] as int) - (multiset(ops)[DelRef] as int)
  }

  function Weight(op: RefOp): int
  {
    match op
    case AddRef => 1
    case DelRef => -1
  }

  /** Starting from `n` references, no prefix of the calls releases more
      than it has. */
  ghost predicate NeverNegative(n: int, ops: seq<RefOp>)
  {
    forall k :: 0 <= k <= |ops| ==> n + Net(ops[..k]) >= 0
  }

  /** Starting from `n` references, no prefix of the calls takes the count
      past the largest `uint64_t`, so no `add()` wraps. */
  ghost predicate NeverOverflows(n: int, ops: seq<RefOp>)
  {
    forall k :: 0 <= k <= |ops| ==> n + Net(ops[..k]) <= MAX
  }

  /** `k` calls of the same kind. */
  function Repeat(op: RefOp, k: nat): (ops: seq<RefOp>)
    ensures |ops| == k
    ensures forall i :: 0 <= i < k ==> ops[i] == op
  {
    if k == 0 then [] else [op] + Repeat(op, k - 1)
  }

  /** The net of a non-empty prefix splits into its first call and the rest. */
  lemma {:induction false} NetOfPrefix(ops: seq<RefOp>, k: int)
    requires 1 <= k <= |ops|
    ensures Net(ops[..k]) == Weight(ops[0]) + Net(ops[1..][..k - 1])
  {
    assert ops[..k] == [ops[0]] + ops[1..][..k - 1];
  }

  /** Never going negative from `n` means the first call keeps the count
      non-negative and the rest never go negative from there. */
  lemma {:induction false} NeverNegativeStep(n: int, ops: seq<RefOp>)
    requires |ops| > 0 && n >= 0
    ensures NeverNegative(n, ops) <==>
              n + Weight(ops[0]) >= 0 && NeverNegative(n + Weight(ops[0]), ops[1..])
  {
    var m := n + Weight(ops[0]);
    if NeverNegative(n, ops) {
      NetOfPrefix(ops, 1);
      assert ops[1..][..0] == [];
      assert n + Net(ops[..1]) >= 0;
      forall j | 0 <= j <= |ops[1..]|
        ensures m + Net(ops[1..][..j]) >= 0
      {
        NetOfPrefix(ops, j + 1);
        assert n + Net(ops[..j + 1]) >= 0;
      }
    }
    if m >= 0 && NeverNegative(m, ops[1..]) {
      forall k | 0 <= k <= |ops|
        ensures n + Net(ops[..k]) >= 0
      {
        if k == 0 {
          assert ops[..0] == [];
        } else {
          NetOfPrefix(ops, k);
          assert m + Net(ops[1..][..k - 1]) >= 0;
        }
      }
    }
  }

  /** Not overflowing from `n` carries over to the rest of the calls from
      the count after the first one. */
  lemma {:induction false} NeverOverflowsStep(n: int, ops: seq<RefOp>)
    requires |ops| > 0 && NeverOverflows(n, ops)
    ensures n + Weight(ops[0]) <= MAX
    ensures NeverOverflows(n + Weight(ops[0]), ops[1..])
  {
    NetOfPrefix(ops, 1);
    assert ops[1..][..0] == [];
    assert n + Net(ops[..1]) <= MAX;
    forall j | 0 <= j <= |ops[1..]|
      ensures n + Weight(ops[0]) + Net(ops[1..][..j]) <= MAX
    {
      NetOfPrefix(ops, j + 1);
      assert n + Net(ops[..j + 1]) <= MAX;
    }
  }

  /** For any sequence of calls in which no prefix overflows the counter: the
      replay succeeds exactly when no prefix releases more than it holds, a
      failure is always `Negative` and leaves the count at zero, a success
      ends at the starting count plus the net, and residency is never
      touched. */
  lemma {:induction false} RunCount(s: ReffedChunk, ops: seq<RefOp>)
    requires NeverOverflows(Count(s), ops)
    ensures Run(s, ops).out.Success? <==> NeverNegative(Count(s), ops)
    ensures Run(s, ops).out.Failure? ==>
              Run(s, ops).out.error == Negative && Count(Run(s, ops).slot) == 0
    ensures Run(s, ops).out.Success? ==> Count(Run(s, ops).slot) == Count(s) + Net(ops)
    ensures Run(s, ops).slot.owned == s.owned
    decreases |ops|
  {
    if |ops| == 0 {
      assert ops[..0] == [];
    } else {
      NeverNegativeStep(Count(s), ops);
      assert ops == ops[..|ops|];
      NetOfPrefix(ops, |ops|);
      assert ops[1..][..|ops| - 1] == ops[1..];
      match ops[0]
      case AddRef =>
        NeverOverflowsStep(Count(s), ops);
        RunCount(Add(s), ops[1..]);
      case DelRef =>
        if Count(s) > 0 {
          NeverOverflowsStep(Count(s), ops);
          RunCount(Del(s).slot, ops[1..]);
        }
    }
  }

  /** Replaying `a` then `b` is replaying `a`, then `b` from where `a` left
      off if it did not throw. */
  lemma {:induction false} RunConcat(s: ReffedChunk, a: seq<RefOp>, b: seq<RefOp>)
    ensures Run(s, a + b) ==
              (if Run(s, a).out.Failure? then Run(s, a) else Run(Run(s, a).slot, b))
    decreases |a|
  {
    if |a| == 0 {
      assert a + b == b;
    } else {
      assert (a + b)[0] == a[0];
      assert (a + b)[1..] == a[1..] + b;
      match a[0]
      case AddRef =>
        RunConcat(Add(s), a[1..], b);
      case DelRef =>
        if Del(s).out.Success? {
          RunConcat(Del(s).slot, a[1..], b);
        }
    }
  }

  /** `k` references taken by `k` holders and then released by them leave
      the slot exactly as it was. */
  lemma {:induction false} HoldersReleaseRestores(s: ReffedChunk, k: nat)
    requires Count(s) + k <= MAX
    ensures Run(s, Repeat(AddRef, k) + Repeat(DelRef, k)) == Step(s, Success(()))
  {
    RunConcat(s, Repeat(AddRef, k), Repeat(DelRef, k));
    RunAdds(s, k);
    RunDels(s.(refs := Count(s) + k), k);
  }

  /** `k` successive `add()` calls below the top of the range raise the
      count by `k`. */
  lemma {:induction false} RunAdds(s: ReffedChunk, k: nat)
    requires Count(s) + k <= MAX
    ensures Run(s, Repeat(AddRef, k)) == Step(s.(refs := Count(s) + k), Success(()))
    decreases k
  {
    if k > 0 {
      assert Repeat(AddRef, k)[1..] == Repeat(AddRef, k - 1);
      RunAdds(Add(s), k - 1);
    }
  }

  /** `k` successive `del()` calls on a slot holding at least `k` references
      lower the count by `k` without throwing. */
  lemma {:induction false} RunDels(s: ReffedChunk, k: nat)
    requires Count(s) >= k
    ensures Run(s, Repeat(DelRef, k)) == Step(s.(refs := Count(s) - k), Success(()))
    decreases k
  {
    if k > 0 {
      assert Repeat(DelRef, k)[1..] == Repeat(DelRef, k - 1);
      RunDels(Del(s).slot, k - 1);
    }
  }
}
