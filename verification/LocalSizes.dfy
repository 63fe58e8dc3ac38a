/** Sizes on one node: what an expand leaves behind, 64-bit wrap-around included. */
module LocalSizes {
  import opened Text
  import opened Driver
  import opened LocalId
  import opened Zfs
  import opened LocalOps
  import opened LocalRuns
  import opened LocalTheorems

  // ----- Rounding -----

  ghost predicate LeastMultiple(size: int, required: int, block: int)
    requires block > 0
  {
    size % block == 0 && required <= size && size - block < required
  }

  lemma SmallMultiple(d: int, block: int)
    requires block > 0 && -block < d * block < block
    ensures d == 0
  {
    assert d >= 1 ==> d * block >= block;
    assert d <= -1 ==> d * block <= -block;
  }

  lemma Distribute(p: int, q: int, block: int)
    ensures (p - q) * block == p * block - q * block
  {
  }

  lemma MultipleMod(q: int, block: int)
    requires block > 0
    ensures (q * block) % block == 0
  {
    var m := q * block;
    var k, r := m / block, m % block;
    assert m == k * block + r;
    Distribute(q, k, block);
    SmallMultiple(q - k, block);
  }

  lemma RoundUpLeast(size: int, block: int)
    requires block > 0
    ensures LeastMultiple(RoundUp(size, block), size, block)
    ensures RoundUp(size, block) == size <==> size % block == 0
  {
    RoundUpBounds(size, block);
    MultipleMod((size + block - 1) / block, block);
    if size % block == 0 {
      LeastMultipleUnique(RoundUp(size, block), size, size, block);
    }
  }

  lemma LeastMultipleUnique(s: int, t: int, required: int, block: int)
    requires block > 0 && LeastMultiple(s, required, block) && LeastMultiple(t, required, block)
    ensures s == t
  {
    var p, q := s / block, t / block;
    assert s == p * block && t == q * block;
    Distribute(p, q, block);
    SmallMultiple(p - q, block);
  }

  lemma WrapSmall(n: int)
    requires MIN_INT64 <= n <= MAX_INT64
    ensures Wrap64(n) == n
  {
  }

  /** The 64-bit rounding of a positive request either is the least multiple, or has wrapped to
      something that is not positive. */
  lemma RoundedRequestCases(required: int, block: int)
    requires 0 < required <= MAX_INT64 && 0 < block <= MAX_INT64
    ensures var size := RoundedRequest(required, block);
            size <= 0 || LeastMultiple(size, required, block)
  {
    var sum := required + block - 1;
    if sum <= MAX_INT64 {
      WrapSmall(sum);
      RoundUpLeast(required, block);
      DivTimes(sum, block);
      WrapSmall(sum / block * block);
    } else {
      WrapLarge(sum);
      var w := Wrap64(sum);
      DivTimes(-w, block);
      var q := (-w) / block;
      NegTimes(q, block);
      WrapSmall(-(q * block));
    }
  }

  lemma WrapLarge(n: int)
    requires MAX_INT64 < n <= MAX_INT64 + MAX_INT64
    ensures Wrap64(n) == n - 0x1_0000_0000_0000_0000
  {
  }

  lemma DivTimes(n: int, block: int)
    requires n >= 0 && block > 0
    ensures 0 <= n / block * block <= n
  {
    assert n == n / block * block + n % block;
    var q := n / block;
    assert q >= 0;
    Product(q, block);
  }

  lemma Product(q: int, block: int)
    requires q >= 0 && block > 0
    ensures q * block >= 0
  {
  }

  lemma NegTimes(q: int, block: int)
    ensures (-q) * block == -(q * block)
  {
  }

  // ----- Expanding -----

  ghost predicate Sized(z: Z, ds: string)
  {
    ds in z.vols ==> z.vols[ds].size <= MAX_INT64 && z.vols[ds].block <= MAX_INT64
  }

  /** For every positive 64-bit request, wrap-around included: a successful expand leaves the
      volume at the least multiple of its own block size that is at least the request, within the
      limit, and no smaller than before; and that is the size it reports. */
  lemma ExpandLeavesLeastMultiple(z: Z, id: string, required: int, limit: int)
    requires Inv(z) && 0 < required <= MAX_INT64
    requires ParseExternalID(id).Ok? ==> Sized(z, ParseExternalID(id).value.dataset)
    ensures var (z', r) := ExpandDo(z, id, required, limit);
            r.Ok? ==>
              && ParseExternalID(id).Ok?
              && var ds := ParseExternalID(id).value.dataset;
                 && ds in z.vols && ds in z'.vols
                 && z'.vols[ds].size == r.value
                 && LeastMultiple(r.value, required, z.vols[ds].block)
                 && z.vols[ds].size <= r.value
                 && (limit > 0 ==> r.value <= limit)
  {
    hide SetVolsizeDo, ParseExternalID, RoundedRequest, GoodSnap, LeastMultiple, RoundUp;
    var eid := ParseExternalID(id);
    if eid.Ok? && eid.value.dataset in z.vols {
      var ds := eid.value.dataset;
      var v := z.vols[ds];
      assert GoodVol(ds, v);
      RoundedRequestCases(required, v.block);
      var size := RoundedRequest(required, v.block);
      if v.size <= size {
        LeastMultipleRounds(size, required, v.block);
        TickKeeps(z);
        TickKeeps(Tick(z));
        SetVolsizeKeeps(Tick(Tick(z)), ds, size);
      }
    }
  }

  lemma LeastMultipleRounds(size: int, required: int, block: int)
    requires block > 0 && LeastMultiple(size, required, block)
    ensures RoundUp(size, block) == size
  {
    RoundUpLeast(size, block);
  }

  /** An expand to the size the volume has: two queries, no change. */
  lemma ExpandToSameSize(z: Z, id: string, required: int, limit: int)
    requires ParseExternalID(id).Ok? && ParseExternalID(id).value.dataset in z.vols
    requires var v := z.vols[ParseExternalID(id).value.dataset];
             v.block > 0 && RoundedRequest(required, v.block) == v.size && (limit > 0 ==> v.size <= limit)
    ensures var (z', r) := ExpandDo(z, id, required, limit);
            && Like(z', z)
            && r == if TakesEffect(FaultAt(z, 0)) && TakesEffect(FaultAt(z, 1))
                    then Ok(z.vols[ParseExternalID(id).value.dataset].size) else Err(CodeInternal)
  {
    hide SetVolsizeDo, ParseExternalID, RoundedRequest, RoundUp;
  }

  lemma ExpandKeepsBlock(z: Z, id: string, required: int, limit: int, ds: string)
    requires Inv(z) && ds in z.vols
    ensures ds in ExpandDo(z, id, required, limit).0.vols ==>
        ExpandDo(z, id, required, limit).0.vols[ds].block == z.vols[ds].block
  {
    hide ExpandDo, GoodSnap, GoodVol;
    ExpandKeeps(z, id, required, limit);
  }

  /** After a successful expand, repeating it changes nothing, whatever fails in the repeat; it
      reports the same size if and only if its two queries answer. */
  lemma ExpandTwice(z: Z, id: string, required: int, limit: int)
    requires Inv(z) && 0 < required <= MAX_INT64
    requires ParseExternalID(id).Ok? ==> Sized(z, ParseExternalID(id).value.dataset)
    requires ExpandDo(z, id, required, limit).1.Ok?
    ensures var (z', r) := ExpandDo(z, id, required, limit);
            var (z'', again) := ExpandDo(z', id, required, limit);
            && Like(z'', z')
            && again == if TakesEffect(FaultAt(z', 0)) && TakesEffect(FaultAt(z', 1)) then r else Err(CodeInternal)
  {
    hide ExpandDo, ParseExternalID, RoundedRequest, GoodSnap, LeastMultiple, FaultAt;
    ExpandLeavesLeastMultiple(z, id, required, limit);
    var (z', r) := ExpandDo(z, id, required, limit);
    var ds := ParseExternalID(id).value.dataset;
    var v := z.vols[ds];
    assert GoodVol(ds, v);
    ExpandKeepsBlock(z, id, required, limit, ds);
    RoundedRequestCases(required, v.block);
    RoundedIsLeast(z, id, required, limit);
    LeastMultipleUnique(RoundedRequest(required, v.block), r.value, required, v.block);
    ExpandToSameSize(z', id, required, limit);
  }

  lemma RoundedIsLeast(z: Z, id: string, required: int, limit: int)
    requires Inv(z) && ExpandDo(z, id, required, limit).1.Ok?
    ensures ParseExternalID(id).Ok? && ParseExternalID(id).value.dataset in z.vols
    ensures var v := z.vols[ParseExternalID(id).value.dataset]; v.block > 0 && RoundedRequest(required, v.block) > 0
  {
    hide SetVolsizeDo, ParseExternalID, RoundedRequest, GoodSnap, RoundUp;
    var ds := ParseExternalID(id).value.dataset;
    assert ds in z.vols ==> GoodVol(ds, z.vols[ds]);
  }
}
