/**
 * The generator bank as the C code keeps it: one 624-word state vector and
 * one read index per thread slot, updated in place. An `MtSlot` is the
 * pair `mt[tid]`, `mti[tid]`; an `MtBank` is the array of MaxThreads slots.
 * Each method is proved against the value-level functions of module Mt.
 */
module MtBanks {
  import opened Mt

  class MtSlot {
    /** The state vector `mt[tid]`. */
    const mt: array<bv32>
    /** The read index `mti[tid]`; N + 1 means "never seeded". */
    var mti: int

    ghost predicate Valid()
      reads this
    {
      mt.Length == N && 0 <= mti <= Unseeded
    }

    /** The abstract value of the slot. */
    ghost function State(): MtState
      reads this, mt
    {
      MtState(mt[..], mti)
    }

    /** A slot as static storage starts: zero words and the sentinel index. */
    constructor ()
      ensures Valid() && fresh(mt)
      ensures State() == InitialState()
    {
      mt := new bv32[N](_ => 0);
      mti := Unseeded;
    }

    /** init_genrand: fills the vector from the scalar seed s; the index ends at N. */
    method InitGenrand(s: nat)
      requires Valid()
      modifies this, mt
      ensures Valid()
      ensures State() == MtState(SeedTable(s), N)
    {
      mt[0] := Low32(s);
      mti := 1;
      while mti < N
        invariant 1 <= mti <= N
        invariant mt[0] == Low32(s)
        invariant forall t :: 1 <= t < mti ==> mt[t] == SeedWord(mt[t - 1], t)
      {
        var i := mti;
        mt[i] := SeedWord(mt[i - 1], i);
        mti := i + 1;
      }
      SeedTableUnique(s, mt[..]);
    }

    /**
     * init_by_array: seeds with 19650218, then runs max(N, |key|) key-mixing
     * iterations and N - 1 further iterations, and finally sets word 0 to
     * 0x80000000. The two loops are the methods MixKey and MixTail.
     */
    method InitByArray(key: seq<bv32>)
      requires Valid() && 1 <= |key| <= MaxKeyLength
      modifies this, mt
      ensures Valid()
      ensures State() == KeyedState(key)
    {
      InitGenrand(ArraySeed);
      ghost var t := mt[..];
      var i, j := MixKey(key, t);
      MixTail(key, t, i, j);
    }

    /** The first loop of init_by_array: max(N, |key|) key-mixing iterations. */
    method MixKey(key: seq<bv32>, ghost t: seq<bv32>) returns (i: nat, j: nat)
      requires 1 <= |key| <= MaxKeyLength && mt.Length == N && mt[..] == t
      modifies mt
      ensures Mix(mt[..], i, j) == KeyPass(t, key, KeyPassLength(key))
    {
      i, j := 1, 0;
      var k := if N > |key| then N else |key|;
      ghost var n: nat := 0;
      while k > 0
        invariant 0 <= k && k + n == KeyPassLength(key)
        invariant Mix(mt[..], i, j) == KeyPass(t, key, n)
      {
        i, j := KeyMixStep(key, t, n, i, j);
        n, k := n + 1, k - 1;
      }
      assert n == KeyPassLength(key);
    }

    /** One iteration of the first loop of init_by_array. */
    method KeyMixStep(key: seq<bv32>, ghost t: seq<bv32>, ghost n: nat, i: nat, j: nat) returns (i': nat, j': nat)
      requires 1 <= |key| <= MaxKeyLength && |t| == N && mt.Length == N
      requires Mix(mt[..], i, j) == KeyPass(t, key, n)
      modifies mt
      ensures Mix(mt[..], i', j') == KeyPass(t, key, n + 1)
    {
      ghost var before := Mix(mt[..], i, j);
      var cur, prev := mt[i], mt[i - 1];
      mt[i] := KeyMixWord(cur, prev, key[j], j);
      ghost var w1 := mt[..];
      if i + 1 >= N {
        mt[0] := mt[N - 1];
        i' := 1;
      } else {
        i' := i + 1;
      }
      j' := if j + 1 >= |key| then 0 else j + 1;
      KeyLoopStep(t, key, n, before, w1, mt[..], i', j');
    }

    /** The second loop of init_by_array (N - 1 iterations), then word 0 := 0x80000000. */
    method MixTail(key: seq<bv32>, ghost t: seq<bv32>, i0: nat, j: nat)
      requires 1 <= |key| <= MaxKeyLength && |t| == N && mt.Length == N
      requires Mix(mt[..], i0, j) == KeyPass(t, key, KeyPassLength(key))
      modifies mt
      ensures mt[..] == TailPass(t, key, N - 1).w[0 := 0x8000_0000]
    {
      TailPassStart(t, key);
      var i: nat := i0;
      var k := N - 1;
      ghost var n: nat := 0;
      while k > 0
        invariant 0 <= k && k + n == N - 1
        invariant Mix(mt[..], i, j) == TailPass(t, key, n)
      {
        i := TailMixStep(key, t, n, i, j);
        n, k := n + 1, k - 1;
      }
      assert n == N - 1;
      mt[0] := 0x8000_0000;
    }

    /** One iteration of the second loop of init_by_array. */
    method TailMixStep(key: seq<bv32>, ghost t: seq<bv32>, ghost n: nat, i: nat, j: nat) returns (i': nat)
      requires 1 <= |key| <= MaxKeyLength && |t| == N && mt.Length == N
      requires Mix(mt[..], i, j) == TailPass(t, key, n)
      modifies mt
      ensures Mix(mt[..], i', j) == TailPass(t, key, n + 1)
    {
      ghost var before := Mix(mt[..], i, j);
      var cur, prev := mt[i], mt[i - 1];
      mt[i] := TailMixWord(cur, prev, i);
      ghost var w1 := mt[..];
      if i + 1 >= N {
        mt[0] := mt[N - 1];
        i' := 1;
      } else {
        i' := i + 1;
      }
      TailLoopStep(t, key, n, before, w1, mt[..], i', j);
    }

    /**
     * The in-place refill of the whole vector, position 0 first; the three
     * loops of the C code, split where the tap index wraps around.
     */
    method Refill()
      requires Valid()
      modifies mt
      ensures mt[..] == Mt.Refill(old(mt[..]))
    {
      ghost var w := mt[..];
      var kk := 0;
      while kk < N - M
        invariant 0 <= kk <= N - M
        invariant mt[..] == RefillUpTo(w, kk)
      {
        ghost var before := mt[..];
        var cur, next, tap := mt[kk], mt[kk + 1], mt[kk + M];
        mt[kk] := Twist(cur, next, tap);
        assert mt[..] == before[kk := Twist(cur, next, tap)];
        RefillAdvance(w, kk, before, mt[..]);
        kk := kk + 1;
      }
      while kk < N - 1
        invariant N - M <= kk <= N - 1
        invariant mt[..] == RefillUpTo(w, kk)
      {
        ghost var before := mt[..];
        var cur, next, tap := mt[kk], mt[kk + 1], mt[kk + M - N];
        mt[kk] := Twist(cur, next, tap);
        assert mt[..] == before[kk := Twist(cur, next, tap)];
        RefillAdvance(w, kk, before, mt[..]);
        kk := kk + 1;
      }
      ghost var before := mt[..];
      var cur, next, tap := mt[N - 1], mt[0], mt[M - 1];
      mt[N - 1] := Twist(cur, next, tap);
      assert mt[..] == before[N - 1 := Twist(cur, next, tap)];
      RefillAdvance(w, N - 1, before, mt[..]);
    }

    /**
     * genrand_int32: refills when the index is N or more (seeding with the
     * default seed first if the slot was never seeded), then returns the
     * tempered word at the index and advances the index.
     */
    method GenrandInt32() returns (y: bv32)
      requires Valid()
      modifies this, mt
      ensures Valid()
      ensures Genrand(old(State())) == Draw(y, State())
    {
      if mti >= N {
        if mti == N + 1 {
          InitGenrand(DefaultSeed);
        }
        Refill();
        mti := 0;
      }
      var word := mt[mti];
      mti := mti + 1;
      y := TemperShift11(word);
      y := TemperShift7(y);
      y := TemperShift15(y);
      y := TemperShift18(y);
    }
  }

  /** The loop body of the first mixing pass performs one more KeyPass iteration. */
  lemma {:induction false} KeyLoopStep(t: seq<bv32>, key: seq<bv32>, n: nat, m: Mix, w1: seq<bv32>, w: seq<bv32>, i: nat, j: nat)
    requires |t| == N && 1 <= |key| <= MaxKeyLength && m == KeyPass(t, key, n)
    requires w1 == m.w[m.i := KeyMixWord(m.w[m.i], m.w[m.i - 1], key[m.j], m.j)]
    requires w == (if m.i + 1 >= N then w1[0 := w1[N - 1]] else w1)
    requires i == (if m.i + 1 >= N then 1 else m.i + 1)
    requires j == (if m.j + 1 >= |key| then 0 else m.j + 1)
    ensures Mix(w, i, j) == KeyPass(t, key, n + 1)
  {
  }

  /** The loop body of the second mixing pass performs one more TailPass iteration. */
  lemma {:induction false} TailLoopStep(t: seq<bv32>, key: seq<bv32>, n: nat, m: Mix, w1: seq<bv32>, w: seq<bv32>, i: nat, j: nat)
    requires |t| == N && 1 <= |key| <= MaxKeyLength && m == TailPass(t, key, n)
    requires w1 == m.w[m.i := TailMixWord(m.w[m.i], m.w[m.i - 1], m.i)]
    requires w == (if m.i + 1 >= N then w1[0 := w1[N - 1]] else w1)
    requires i == (if m.i + 1 >= N then 1 else m.i + 1) && j == m.j
    ensures Mix(w, i, j) == TailPass(t, key, n + 1)
  {
  }

  /**
   * The static tables `mt[MAX_THREADS][N]` and `mti[MAX_THREADS]`: one slot
   * per thread, no two slots sharing an object or a vector.
   */
  class MtBank {
    const slots: seq<MtSlot>

    ghost predicate Valid()
      reads this, slots
    {
      |slots| == MaxThreads &&
      (forall t :: 0 <= t < MaxThreads ==> slots[t].Valid()) &&
      (forall t, u :: 0 <= t < u < MaxThreads ==> slots[t] != slots[u] && slots[t].mt != slots[u].mt)
    }

    /** Every object the bank's methods may touch. */
    ghost function Repr(): set<object>
      reads this
    {
      (set t | 0 <= t < |slots| :: slots[t]) + (set t | 0 <= t < |slots| :: slots[t].mt)
    }

    constructor ()
      ensures Valid() && fresh(Repr())
      ensures forall t :: 0 <= t < MaxThreads ==> slots[t].State() == InitialState()
    {
      var s: seq<MtSlot> := [];
      while |s| < MaxThreads
        invariant |s| <= MaxThreads
        invariant forall t :: 0 <= t < |s| ==> fresh(s[t]) && fresh(s[t].mt)
        invariant forall t :: 0 <= t < |s| ==> s[t].Valid() && s[t].State() == InitialState()
        invariant forall t, u :: 0 <= t < u < |s| ==> s[t] != s[u] && s[t].mt != s[u].mt
      {
        var g := new MtSlot();
        s := s + [g];
      }
      slots := s;
    }

    /** init_genrand(tid, s): only slot tid changes. */
    method InitGenrand(tid: int, s: nat)
      requires Valid() && 0 <= tid < MaxThreads
      modifies slots[tid], slots[tid].mt
      ensures Valid()
      ensures slots[tid].State() == MtState(SeedTable(s), N)
      ensures forall u :: 0 <= u < MaxThreads && u != tid ==> slots[u].State() == old(slots[u].State())
    {
      slots[tid].InitGenrand(s);
    }

    /** init_by_array(tid, key): only slot tid changes. */
    method InitByArray(tid: int, key: seq<bv32>)
      requires Valid() && 0 <= tid < MaxThreads && 1 <= |key| <= MaxKeyLength
      modifies slots[tid], slots[tid].mt
      ensures Valid()
      ensures slots[tid].State() == KeyedState(key)
      ensures forall u :: 0 <= u < MaxThreads && u != tid ==> slots[u].State() == old(slots[u].State())
    {
      slots[tid].InitByArray(key);
    }

    /** genrand_int32(tid): reads and advances slot tid only. */
    method GenrandInt32(tid: int) returns (y: bv32)
      requires Valid() && 0 <= tid < MaxThreads
      modifies slots[tid], slots[tid].mt
      ensures Valid()
      ensures Genrand(old(slots[tid].State())) == Draw(y, slots[tid].State())
      ensures forall u :: 0 <= u < MaxThreads && u != tid ==> slots[u].State() == old(slots[u].State())
    {
      y := slots[tid].GenrandInt32();
    }
  }
}
