/** Segment fitting against the packet size limit (svspubsub.cpp, prepareSegmentedPackets). */
module Segmentation {
  import opened Names
  import opened Tlv

  const MAX_DATA_SIZE := 8000
  const MAX_PASSES := 16

  const SEGMENT: ComponentType := 50
  const VERSION: ComponentType := 54

  /**
   * The parts of a signed segment whose size does not depend on the segment: name components
   * before the segment number, MetaInfo without the FinalBlockId, and signature blocks.
   */
  datatype Layout = Layout(
    innerName: nat, outerName: nat, innerMeta: nat, outerMeta: nat, innerSignature: nat, outerSignature: nat)

  /** Size of a block with a one-byte type around a value of that size. */
  function TlvSize(n: nat): nat { 1 + VarSize(n) + n }

  /** A signed Data packet, given the widths of its segment and final segment number fields. */
  function DataSize(name: nat, meta: nat, signature: nat, segmentWidth: nat, finalWidth: nat, content: nat): nat {
    TlvSize(TlvSize(name + TlvSize(segmentWidth)) + TlvSize(meta + TlvSize(TlvSize(finalWidth)))
            + TlvSize(content) + signature)
  }

  /** The outer packet of a segment: its content is the encoded inner packet. */
  function OuterSize(l: Layout, segmentWidth: nat, finalWidth: nat, content: nat): nat {
    DataSize(l.outerName, l.outerMeta, l.outerSignature, segmentWidth, finalWidth,
             DataSize(l.innerName, l.innerMeta, l.innerSignature, segmentWidth, finalWidth, content))
  }

  predicate Fits(l: Layout, segmentNo: nat, final: nat, content: nat) {
    OuterSize(l, NniWidth(segmentNo), NniWidth(final), content) <= MAX_NDN_PACKET_SIZE
  }

  lemma TlvSizeMonotone(m: nat, n: nat)
    requires m <= n
    ensures TlvSize(m) <= TlvSize(n)
  {
  }

  lemma DataSizeMonotone(name: nat, meta: nat, signature: nat, s: nat, f: nat, c: nat, s': nat, f': nat, c': nat)
    requires s <= s' && f <= f' && c <= c'
    ensures DataSize(name, meta, signature, s, f, c) <= DataSize(name, meta, signature, s', f', c')
  {
    TlvSizeMonotone(s, s');
    TlvSizeMonotone(name + TlvSize(s), name + TlvSize(s'));
    TlvSizeMonotone(f, f');
    TlvSizeMonotone(TlvSize(f), TlvSize(f'));
    TlvSizeMonotone(meta + TlvSize(TlvSize(f)), meta + TlvSize(TlvSize(f')));
    TlvSizeMonotone(c, c');
  }

  /** A smaller content under a narrower final number fits wherever the larger one does. */
  lemma FitsMonotone(l: Layout, segmentNo: nat, final: nat, final': nat, c: nat, c': nat)
    requires NniWidth(final) <= NniWidth(final') && c <= c' && Fits(l, segmentNo, final', c')
    ensures Fits(l, segmentNo, final, c)
  {
    var s, f, f' := NniWidth(segmentNo), NniWidth(final), NniWidth(final');
    DataSizeMonotone(l.innerName, l.innerMeta, l.innerSignature, s, f, c, s, f', c');
    DataSizeMonotone(l.outerName, l.outerMeta, l.outerSignature,
                     s, f, DataSize(l.innerName, l.innerMeta, l.innerSignature, s, f, c),
                     s, f', DataSize(l.innerName, l.innerMeta, l.innerSignature, s, f', c'));
  }

  // ---------- binary search ----------

  /** The largest size up to `upper` that fits, 0 when none does. */
  ghost predicate IsBestFit(l: Layout, segmentNo: nat, final: nat, upper: nat, best: nat) {
    && best <= upper
    && (best > 0 ==> Fits(l, segmentNo, final, best))
    && forall c :: best < c <= upper ==> !Fits(l, segmentNo, final, c)
  }

  ghost function BestFit(l: Layout, segmentNo: nat, final: nat, upper: nat): (best: nat)
    ensures IsBestFit(l, segmentNo, final, upper, best)
  {
    if upper == 0 || Fits(l, segmentNo, final, upper) then upper else BestFit(l, segmentNo, final, upper - 1)
  }

  method FitSegment(l: Layout, segmentNo: nat, final: nat, upper: nat) returns (best: nat)
    ensures IsBestFit(l, segmentNo, final, upper, best)
  {
    var low, high := 1, upper;
    best := 0;
    while low <= high
      invariant 1 <= low <= high + 1 && high <= upper
      invariant best == low - 1
      invariant best > 0 ==> Fits(l, segmentNo, final, best)
      invariant forall c :: high < c <= upper ==> !Fits(l, segmentNo, final, c)
    {
      var candidate := low + (high - low) / 2;
      if Fits(l, segmentNo, final, candidate) {
        best := candidate;
        low := candidate + 1;
      } else {
        forall c | candidate <= c <= upper ensures !Fits(l, segmentNo, final, c) {
          if Fits(l, segmentNo, final, c) { FitsMonotone(l, segmentNo, final, final, candidate, c); }
        }
        high := candidate - 1;
      }
    }
  }

  // ---------- one greedy pass ----------

  function Min(a: nat, b: nat): nat { if a < b then a else b }

  /** Content sizes of the segments from number `segmentNo` on, None when some segment cannot hold a byte. */
  ghost function Pack(l: Layout, final: nat, remaining: nat, segmentNo: nat): Option<seq<nat>> {
    if remaining == 0 then Some([])
    else
      var best := BestFit(l, segmentNo, final, Min(MAX_DATA_SIZE, remaining));
      if best == 0 then None
      else
        var rest := Pack(l, final, remaining - best, segmentNo + 1);
        if rest.None? then None else Some([best] + rest.value)
  }

  function Sum(sizes: seq<nat>): nat {
    if sizes == [] then 0 else sizes[0] + Sum(sizes[1..])
  }

  /** Every segment is non-empty, within the content limit and fits; together they cover everything. */
  lemma {:induction false} PackSizes(l: Layout, final: nat, remaining: nat, segmentNo: nat)
    requires Pack(l, final, remaining, segmentNo).Some?
    ensures var sizes := Pack(l, final, remaining, segmentNo).value;
            && Sum(sizes) == remaining && |sizes| <= remaining
            && forall i :: 0 <= i < |sizes| ==>
                1 <= sizes[i] <= MAX_DATA_SIZE && Fits(l, segmentNo + i, final, sizes[i])
    decreases remaining
  {
    hide Fits, OuterSize, DataSize, TlvSize, NniWidth;
    if remaining > 0 {
      var best := BestFit(l, segmentNo, final, Min(MAX_DATA_SIZE, remaining));
      PackSizes(l, final, remaining - best, segmentNo + 1);
      var rest := Pack(l, final, remaining - best, segmentNo + 1).value;
      var sizes := [best] + rest;
      assert sizes[1..] == rest;
      forall i | 0 <= i < |sizes| ensures 1 <= sizes[i] <= MAX_DATA_SIZE && Fits(l, segmentNo + i, final, sizes[i]) {
        if i > 0 { assert sizes[i] == rest[i - 1] && Fits(l, segmentNo + 1 + (i - 1), final, rest[i - 1]); }
      }
    }
  }

  /** Segment i is the largest that fits, up to 8000 bytes and what is left. */
  ghost predicate LargestAt(l: Layout, final: nat, segmentNo: nat, sizes: seq<nat>, i: nat)
    requires i < |sizes|
  {
    IsBestFit(l, segmentNo + i, final, Min(8000, Sum(sizes[i..])), sizes[i])
  }

  ghost predicate Greedy(l: Layout, final: nat, segmentNo: nat, sizes: seq<nat>) {
    forall i :: 0 <= i < |sizes| ==> LargestAt(l, final, segmentNo, sizes, i)
  }

  lemma {:induction false} PackIsGreedy(l: Layout, final: nat, remaining: nat, segmentNo: nat)
    requires Pack(l, final, remaining, segmentNo).Some?
    ensures Greedy(l, final, segmentNo, Pack(l, final, remaining, segmentNo).value)
    decreases remaining
  {
    hide Fits, NniWidth, IsBestFit;
    PackSizes(l, final, remaining, segmentNo);
    if remaining > 0 {
      var best := BestFit(l, segmentNo, final, Min(MAX_DATA_SIZE, remaining));
      PackIsGreedy(l, final, remaining - best, segmentNo + 1);
      var rest := Pack(l, final, remaining - best, segmentNo + 1).value;
      var sizes := [best] + rest;
      assert sizes[0..] == sizes;
      forall i | 0 <= i < |sizes| ensures LargestAt(l, final, segmentNo, sizes, i) {
        if i > 0 {
          assert sizes[i] == rest[i - 1] && sizes[i..] == rest[i - 1..];
          assert LargestAt(l, final, segmentNo + 1, rest, i - 1);
        }
      }
    }
  }

  lemma {:induction false} PackLowerBound(l: Layout, final: nat, remaining: nat, segmentNo: nat)
    requires Pack(l, final, remaining, segmentNo).Some?
    ensures remaining <= MAX_DATA_SIZE * |Pack(l, final, remaining, segmentNo).value|
    decreases remaining
  {
    hide Fits, OuterSize, DataSize, TlvSize, NniWidth;
    if remaining > 0 {
      var best := BestFit(l, segmentNo, final, Min(MAX_DATA_SIZE, remaining));
      PackLowerBound(l, final, remaining - best, segmentNo + 1);
    }
  }

  lemma BestFitUnique(l: Layout, segmentNo: nat, final: nat, upper: nat, a: nat, b: nat)
    requires IsBestFit(l, segmentNo, final, upper, a) && IsBestFit(l, segmentNo, final, upper, b)
    ensures a == b
  {
  }

  /** One segment under a narrower final number never leaves more behind. */
  lemma FitProgress(l: Layout, segmentNo: nat, narrow: nat, wide: nat, r: nat, r': nat)
    requires NniWidth(narrow) <= NniWidth(wide) && 0 < r <= r'
    requires BestFit(l, segmentNo, wide, Min(MAX_DATA_SIZE, r')) > 0
    ensures var best := BestFit(l, segmentNo, narrow, Min(MAX_DATA_SIZE, r));
            0 < best && r - best <= r' - BestFit(l, segmentNo, wide, Min(MAX_DATA_SIZE, r'))
  {
    hide Fits, OuterSize, DataSize, TlvSize, NniWidth;
    var best' := BestFit(l, segmentNo, wide, Min(MAX_DATA_SIZE, r'));
    var candidate := Min(best', Min(MAX_DATA_SIZE, r));
    FitsMonotone(l, segmentNo, narrow, wide, candidate, best');
  }

  /** Widening the final number never lets a payload get by with fewer segments. */
  lemma {:induction false} PackMonotone(l: Layout, narrow: nat, wide: nat, r: nat, r': nat, segmentNo: nat)
    requires NniWidth(narrow) <= NniWidth(wide) && r <= r'
    requires Pack(l, wide, r', segmentNo).Some?
    ensures Pack(l, narrow, r, segmentNo).Some?
    ensures |Pack(l, narrow, r, segmentNo).value| <= |Pack(l, wide, r', segmentNo).value|
    decreases r'
  {
    hide Fits, OuterSize, DataSize, TlvSize, NniWidth;
    if r > 0 {
      FitProgress(l, segmentNo, narrow, wide, r, r');
      var best := BestFit(l, segmentNo, narrow, Min(MAX_DATA_SIZE, r));
      var best' := BestFit(l, segmentNo, wide, Min(MAX_DATA_SIZE, r'));
      PackMonotone(l, narrow, wide, r - best, r' - best', segmentNo + 1);
    }
  }

  /** What is packed so far is a prefix of the whole packing. */
  ghost predicate Continues(l: Layout, final: nat, total: nat, offset: nat, sizes: seq<nat>)
    requires offset <= total
  {
    var rest := Pack(l, final, total - offset, |sizes|);
    Pack(l, final, total, 0) == if rest.None? then None else Some(sizes + rest.value)
  }

  lemma PackStep(l: Layout, final: nat, total: nat, offset: nat, sizes: seq<nat>, best: nat)
    requires offset < total && Continues(l, final, total, offset, sizes)
    requires 0 < best == BestFit(l, |sizes|, final, Min(MAX_DATA_SIZE, total - offset))
    ensures Continues(l, final, total, offset + best, sizes + [best])
  {
    hide Fits, IsBestFit;
    var rest := Pack(l, final, total - offset - best, |sizes| + 1);
    assert rest.Some? ==> sizes + ([best] + rest.value) == (sizes + [best]) + rest.value;
  }

  method PackPass(l: Layout, final: nat, total: nat) returns (sizes: seq<nat>, ok: bool)
    ensures ok <==> Pack(l, final, total, 0).Some?
    ensures ok ==> sizes == Pack(l, final, total, 0).value
    ensures !ok ==> exists s :: 0 <= s < total && !Fits(l, s, final, 1)
  {
    hide Fits, OuterSize, DataSize, TlvSize, NniWidth;
    sizes, ok := [], true;
    var offset := 0;
    assert Continues(l, final, total, 0, []) by {
      var all := Pack(l, final, total, 0);
      assert all.Some? ==> [] + all.value == all.value;
    }
    while offset < total
      invariant offset <= total && |sizes| <= offset
      invariant Continues(l, final, total, offset, sizes)
    {
      var upper := Min(MAX_DATA_SIZE, total - offset);
      var best := FitSegment(l, |sizes|, final, upper);
      BestFitUnique(l, |sizes|, final, upper, best, BestFit(l, |sizes|, final, upper));
      if best == 0 {
        assert !Fits(l, |sizes|, final, 1);
        return sizes, false;
      }
      PackStep(l, final, total, offset, sizes, best);
      sizes := sizes + [best];
      offset := offset + best;
    }
    assert Pack(l, final, 0, |sizes|) == Some([]) && sizes + [] == sizes;
  }

  // ---------- the FinalBlock fixed point ----------

  /** Final segment number found when fitting with a guess; None when fitting fails. */
  ghost function Refit(l: Layout, total: nat, guess: nat): Option<nat>
    requires total > 0
  {
    var sizes := Pack(l, guess, total, 0);
    if sizes.None? then None else Some(|sizes.value| - 1)
  }

  function WidthIndex(n: nat): nat {
    if n < 0x100 then 0 else if n < 0x1_0000 then 1 else if n < 0x1_0000_0000 then 2 else 3
  }

  /** The guess is a lower bound of what fitting with it yields. */
  ghost predicate Rising(l: Layout, total: nat, guess: nat)
    requires total > 0
  {
    Refit(l, total, guess).Some? ==> guess <= Refit(l, total, guess).value
  }

  lemma FirstGuessRises(l: Layout, total: nat)
    requires total > 0
    ensures Rising(l, total, (total - 1) / MAX_DATA_SIZE)
  {
    hide Fits, OuterSize, DataSize, TlvSize, NniWidth, Pack;
    var guess := (total - 1) / MAX_DATA_SIZE;
    if Refit(l, total, guess).Some? {
      PackLowerBound(l, guess, total, 0);
    }
  }

  /**
   * Refitting keeps the guess a lower bound; it either widens the number field or arrives at a
   * guess that the next pass confirms.
   */
  lemma RefitProgress(l: Layout, total: nat, guess: nat)
    requires total > 0 && Rising(l, total, guess) && Refit(l, total, guess).Some?
    ensures var next := Refit(l, total, guess).value;
            && Rising(l, total, next)
            && (WidthIndex(next) > WidthIndex(guess) || Refit(l, total, next) == Some(next))
  {
    hide Fits, OuterSize, DataSize, TlvSize, Pack;
    var next := Refit(l, total, guess).value;
    if Refit(l, total, next).Some? {
      PackMonotone(l, guess, next, total, total, 0);
    }
    if WidthIndex(next) == WidthIndex(guess) {
      PackMonotone(l, next, guess, total, total, 0);
      PackMonotone(l, guess, next, total, total, 0);
    }
  }

  /** A final segment number that its own fitting confirms. */
  ghost predicate SelfConsistent(l: Layout, total: nat, final: nat)
    requires total > 0
  {
    Refit(l, total, final) == Some(final)
  }

  /** No self-consistent final number lies below the guess. */
  ghost predicate BelowAll(l: Layout, total: nat, guess: nat)
    requires total > 0
  {
    forall final: nat :: SelfConsistent(l, total, final) ==> guess <= final
  }

  lemma FirstGuessBelowAll(l: Layout, total: nat)
    requires total > 0
    ensures BelowAll(l, total, (total - 1) / MAX_DATA_SIZE)
  {
    hide Fits, Pack;
    forall final: nat | SelfConsistent(l, total, final) ensures (total - 1) / MAX_DATA_SIZE <= final {
      PackLowerBound(l, final, total, 0);
    }
  }

  /** From below, refitting cannot jump over a self-consistent number, nor fail while there is one. */
  lemma RefitBelowAll(l: Layout, total: nat, guess: nat)
    requires total > 0 && BelowAll(l, total, guess)
    ensures var next := Refit(l, total, guess);
      if next.None? then forall final: nat :: !SelfConsistent(l, total, final) else BelowAll(l, total, next.value)
  {
    hide Fits, Pack;
    forall final: nat | SelfConsistent(l, total, final)
      ensures Refit(l, total, guess).Some? && Refit(l, total, guess).value <= final
    {
      PackMonotone(l, guess, final, total, total, 0);
    }
  }

  datatype Fitting = Fitted(sizes: seq<nat>, passes: nat) | EmptyPublication | SegmentTooLarge | NotConverged

  /**
   * The whole fitting loop. It never runs into its pass limit: five passes suffice, because each
   * unsuccessful pass but the last widens the final segment number. It fails exactly when no final
   * number is self-consistent, and otherwise finds the least one.
   */
  method FitAll(l: Layout, total: nat) returns (r: Fitting)
    ensures r.EmptyPublication? <==> total == 0
    ensures !r.NotConverged?
    ensures r.Fitted? ==> r.passes <= 5 && |r.sizes| > 0 && Pack(l, |r.sizes| - 1, total, 0) == Some(r.sizes)
    ensures r.Fitted? ==> SelfConsistent(l, total, |r.sizes| - 1) && BelowAll(l, total, |r.sizes| - 1)
    ensures r.SegmentTooLarge? <==> total > 0 && forall final: nat :: !SelfConsistent(l, total, final)
    ensures r.SegmentTooLarge? ==> exists s, f :: 0 <= s < total && 0 <= f < total && !Fits(l, s, f, 1)
  {
    hide Fits, OuterSize, DataSize, TlvSize, NniWidth, Pack, BelowAll;
    if total == 0 { return EmptyPublication; }
    var finalGuess: nat := (total - 1) / MAX_DATA_SIZE;
    FirstGuessRises(l, total);
    FirstGuessBelowAll(l, total);
    for pass := 0 to MAX_PASSES
      invariant Rising(l, total, finalGuess) && BelowAll(l, total, finalGuess) && finalGuess < total
      invariant 0 <= finalGuess && pass <= 4
      invariant pass <= WidthIndex(finalGuess) || Refit(l, total, finalGuess) == Some(finalGuess)
    {
      var sizes, ok := PackPass(l, finalGuess, total);
      RefitBelowAll(l, total, finalGuess);
      if !ok { return SegmentTooLarge; }
      PackSizes(l, finalGuess, total, 0);
      var actualFinal := |sizes| - 1;
      if actualFinal == finalGuess {
        assert SelfConsistent(l, total, finalGuess);
        return Fitted(sizes, pass + 1);
      }
      RefitProgress(l, total, finalGuess);
      finalGuess := actualFinal;
    }
    assert false;
  }
}
