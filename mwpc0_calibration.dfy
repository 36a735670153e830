/** Pad-charge calibration of the MWPC0 detector: every mapped hit (plane, pad,
    raw charge Q) has the pedestal of its pad subtracted in 16-bit unsigned
    arithmetic, and the hit is written to the calibrated-data buffer when the
    16-bit difference is nonzero.

    The specification functions (IndexAfter, CalHitAt, Calibrate) describe what
    one event produces; the class Mwpc0Mapped2Cal holds the task's state and
    its Exec method walks the hits step by step and is proved to produce
    exactly Calibrate of its input. */
module Mwpc0Calibration {

  /** An unsigned 8-bit value (UChar_t). */
  type Byte = x: int | 0 <= x < 0x100

  /** An unsigned 16-bit value (UShort_t). */
  type UShort = x: int | 0 <= x < 0x1_0000

  /** Conversion of an integer to UChar_t: keeps the value modulo 2^8. */
  function ToByte(x: int): Byte { x % 0x100 }

  /** Conversion of an integer to UShort_t: keeps the value modulo 2^16. */
  function ToUShort(x: int): UShort { x % 0x1_0000 }

  /** A mapped hit as the task reads it: plane, pad and raw charge, each as
      its getter returns it (they are narrowed to UChar_t / UShort_t by Exec). */
  datatype MappedHit = MappedHit(plane: int, pad: int, q: int)

  /** A calibrated hit. */
  datatype CalHit = CalHit(plane: Byte, pad: Byte, charge: UShort)

  /** The calibration parameter container: pad counts, number of fit
      parameters per pad and the flat table of pedestal constants. */
  datatype CalPar = CalPar(numPadsX: int, numPadsY: int, numParametersFit: int, padCalParams: seq<int>)

  // ---------------------------------------------------------------------------
  // Specification
  // ---------------------------------------------------------------------------

  /** The pedestal index (`nbpad`) after one hit, given its value before it:
      plane 1 pads come first in the table, plane 3 pads after the NumPadX
      pads of plane 1, each pad owning NumParams consecutive entries; any
      other plane leaves the index as it was. */
  function PedestalIndex(planeId: Byte, padId: Byte, numPadX: int, numParams: int, previous: int): int
  {
    if planeId == 1 then padId * numParams
    else if planeId == 3 then (padId + numPadX) * numParams
    else previous
  }

  /** The pedestal index after walking `hits` in order, starting from 0. */
  function IndexAfter(hits: seq<MappedHit>, numPadX: int, numParams: int): int
    decreases |hits|
  {
    if hits == [] then 0
    else
      var h := hits[|hits| - 1];
      PedestalIndex(ToByte(h.plane), ToByte(h.pad), numPadX, numParams,
                    IndexAfter(hits[..|hits| - 1], numPadX, numParams))
  }

  /** The pedestal index used for hit `i`. */
  function IndexAt(hits: seq<MappedHit>, i: int, numPadX: int, numParams: int): int
    requires 0 <= i < |hits|
  {
    IndexAfter(hits[..i + 1], numPadX, numParams)
  }

  /** Every pedestal index the walk computes lies inside a table of `size` entries. */
  predicate IndicesInTable(hits: seq<MappedHit>, numPadX: int, numParams: int, size: int)
  {
    forall i :: 0 <= i < |hits| ==> 0 <= IndexAt(hits, i, numPadX, numParams) < size
  }

  /** The calibrated charge: raw charge minus the pedestal (itself narrowed to
      16 bits), narrowed to 16 bits. */
  function CalCharge(q: int, pedestal: int): UShort
  {
    ToUShort(q - ToUShort(pedestal))
  }

  /** The calibrated hit that hit `i` gives (kept only when its charge is nonzero). */
  function CalHitAt(hits: seq<MappedHit>, i: int, numPadX: int, numParams: int, table: seq<int>): CalHit
    requires 0 <= i < |hits|
    requires IndicesInTable(hits, numPadX, numParams, |table|)
  {
    var h := hits[i];
    CalHit(ToByte(h.plane), ToByte(h.pad), CalCharge(h.q, table[IndexAt(hits, i, numPadX, numParams)]))
  }

  /** Hit `i` survives calibration. */
  predicate Kept(hits: seq<MappedHit>, i: int, numPadX: int, numParams: int, table: seq<int>)
    requires 0 <= i < |hits|
    requires IndicesInTable(hits, numPadX, numParams, |table|)
  {
    CalHitAt(hits, i, numPadX, numParams, table).charge != 0
  }

  lemma IndicesInTablePrefix(hits: seq<MappedHit>, k: int, numPadX: int, numParams: int, size: int)
    requires 0 <= k <= |hits|
    requires IndicesInTable(hits, numPadX, numParams, size)
    ensures IndicesInTable(hits[..k], numPadX, numParams, size)
  {
    forall i | 0 <= i < k
      ensures 0 <= IndexAt(hits[..k], i, numPadX, numParams) < size
    {
      assert hits[..k][..i + 1] == hits[..i + 1];
      assert IndexAt(hits[..k], i, numPadX, numParams) == IndexAt(hits, i, numPadX, numParams);
    }
  }

  /** The calibrated hits of one event, in input order. */
  function Calibrate(hits: seq<MappedHit>, numPadX: int, numParams: int, table: seq<int>): (cal: seq<CalHit>)
    requires IndicesInTable(hits, numPadX, numParams, |table|)
    ensures |cal| <= |hits|
    ensures forall c :: c in cal ==> c.charge != 0
    decreases |hits|
  {
    if hits == [] then []
    else
      var n := |hits| - 1;
      IndicesInTablePrefix(hits, n, numPadX, numParams, |table|);
      var earlier := Calibrate(hits[..n], numPadX, numParams, table);
      var c := CalHitAt(hits, n, numPadX, numParams, table);
      if c.charge != 0 then earlier + [c] else earlier
  }

  // ---------------------------------------------------------------------------
  // Properties
  // ---------------------------------------------------------------------------

  /** The index used for hit `i` follows the table layout for planes 1 and 3;
      for any other plane the hit is not skipped, it reuses the index of the
      hit before it, or 0 for the first hit. */
  lemma IndexAtByPlane(hits: seq<MappedHit>, i: int, numPadX: int, numParams: int)
    requires 0 <= i < |hits|
    ensures ToByte(hits[i].plane) == 1 ==>
              IndexAt(hits, i, numPadX, numParams) == ToByte(hits[i].pad) * numParams
    ensures ToByte(hits[i].plane) == 3 ==>
              IndexAt(hits, i, numPadX, numParams) == (ToByte(hits[i].pad) + numPadX) * numParams
    ensures ToByte(hits[i].plane) != 1 && ToByte(hits[i].plane) != 3 ==>
              IndexAt(hits, i, numPadX, numParams) ==
                (if i == 0 then 0 else IndexAt(hits, i - 1, numPadX, numParams))
  {
    assert hits[..i + 1][..i] == hits[..i];
    var pre := hits[..i + 1];
    assert pre[|pre| - 1] == hits[i];
    assert IndexAt(hits, i, numPadX, numParams) ==
      PedestalIndex(ToByte(hits[i].plane), ToByte(hits[i].pad), numPadX, numParams,
                    IndexAfter(hits[..i], numPadX, numParams));
    if i == 0 {
      assert hits[..i] == [];
    }
  }

  lemma MulBelow(a: int, b: int, p: int)
    requires 0 <= a < b && 0 < p
    ensures 0 <= a * p < b * p
  {
  }

  /** With NumParams > 0, plane 1 pads below NumPadX and plane 3 pads below
      NumPadY, every pedestal index lies below (NumPadX + NumPadY) * NumParams,
      the table size the parameter setup allocates. */
  lemma {:induction false} IndexAfterBelowTableSize(hits: seq<MappedHit>, numPadX: int, numPadY: int, numParams: int)
    requires 0 <= numPadX && 0 <= numPadY && 0 < numPadX + numPadY && 0 < numParams
    requires forall h :: h in hits && ToByte(h.plane) == 1 ==> ToByte(h.pad) < numPadX
    requires forall h :: h in hits && ToByte(h.plane) == 3 ==> ToByte(h.pad) < numPadY
    ensures 0 <= IndexAfter(hits, numPadX, numParams) < (numPadX + numPadY) * numParams
    decreases |hits|
  {
    MulBelow(0, numPadX + numPadY, numParams);
    if hits != [] {
      var n := |hits| - 1;
      var h := hits[n];
      assert h in hits;
      assert forall g :: g in hits[..n] ==> g in hits;
      IndexAfterBelowTableSize(hits[..n], numPadX, numPadY, numParams);
      if ToByte(h.plane) == 1 {
        MulBelow(ToByte(h.pad), numPadX + numPadY, numParams);
      } else if ToByte(h.plane) == 3 {
        MulBelow(ToByte(h.pad) + numPadX, numPadX + numPadY, numParams);
      }
    }
  }

  /** Under the same conditions every index the walk computes is inside a
      table of (NumPadX + NumPadY) * NumParams entries. */
  lemma IndicesBelowTableSize(hits: seq<MappedHit>, numPadX: int, numPadY: int, numParams: int)
    requires 0 <= numPadX && 0 <= numPadY && 0 < numPadX + numPadY && 0 < numParams
    requires forall h :: h in hits && ToByte(h.plane) == 1 ==> ToByte(h.pad) < numPadX
    requires forall h :: h in hits && ToByte(h.plane) == 3 ==> ToByte(h.pad) < numPadY
    ensures IndicesInTable(hits, numPadX, numParams, (numPadX + numPadY) * numParams)
  {
    forall i | 0 <= i < |hits|
      ensures 0 <= IndexAt(hits, i, numPadX, numParams) < (numPadX + numPadY) * numParams
    {
      assert forall g :: g in hits[..i + 1] ==> g in hits;
      IndexAfterBelowTableSize(hits[..i + 1], numPadX, numPadY, numParams);
    }
  }

  /** The pedestal table handed over by the parameter container replaces the
      sized one, so `Exec`'s lookups are in range whenever that table holds at
      least (NumPadX + NumPadY) * NumParams entries. */
  lemma IndicesInContainerTable(hits: seq<MappedHit>, numPadX: int, numPadY: int, numParams: int, table: seq<int>)
    requires 0 <= numPadX && 0 <= numPadY && 0 < numPadX + numPadY && 0 < numParams
    requires forall h :: h in hits && ToByte(h.plane) == 1 ==> ToByte(h.pad) < numPadX
    requires forall h :: h in hits && ToByte(h.plane) == 3 ==> ToByte(h.pad) < numPadY
    requires (numPadX + numPadY) * numParams <= |table|
    ensures IndicesInTable(hits, numPadX, numParams, |table|)
  {
    IndicesBelowTableSize(hits, numPadX, numPadY, numParams);
  }

  /** A raw charge at or above the (16-bit) pedestal gives the plain difference. */
  lemma ChargeAbovePedestal(q: UShort, pedestal: int)
    requires ToUShort(pedestal) <= q
    ensures CalCharge(q, pedestal) == q - ToUShort(pedestal)
  {
  }

  /** A raw charge below the (16-bit) pedestal wraps around to a large value,
      which is nonzero: such a hit is kept. */
  lemma ChargeBelowPedestalWraps(q: UShort, pedestal: int)
    requires q < ToUShort(pedestal)
    ensures CalCharge(q, pedestal) == q - ToUShort(pedestal) + 0x1_0000
    ensures CalCharge(q, pedestal) != 0
  {
  }

  /** The calibrated charge is zero exactly when raw charge and pedestal agree
      modulo 2^16: only those hits are dropped. */
  lemma ChargeZeroIff(q: int, pedestal: int)
    ensures CalCharge(q, pedestal) == 0 <==> ToUShort(q) == ToUShort(pedestal)
  {
  }

  /** Calibrating a prefix of the hits gives a prefix of the calibrated hits:
      output order follows input order. */
  lemma {:induction false} CalibratePrefix(hits: seq<MappedHit>, k: int, numPadX: int, numParams: int, table: seq<int>)
    requires 0 <= k <= |hits|
    requires IndicesInTable(hits, numPadX, numParams, |table|)
    ensures IndicesInTable(hits[..k], numPadX, numParams, |table|)
    ensures Calibrate(hits[..k], numPadX, numParams, table) <= Calibrate(hits, numPadX, numParams, table)
    decreases |hits| - k
  {
    IndicesInTablePrefix(hits, k, numPadX, numParams, |table|);
    if k < |hits| {
      var n := |hits| - 1;
      IndicesInTablePrefix(hits, n, numPadX, numParams, |table|);
      assert hits[..n][..k] == hits[..k];
      CalibratePrefix(hits[..n], k, numPadX, numParams, table);
    } else {
      assert hits[..k] == hits;
    }
  }

  /** The last step of calibration: hit `i` is appended to the output of the
      hits before it exactly when it is kept, and nothing else is appended. */
  lemma CalibrateStep(hits: seq<MappedHit>, i: int, numPadX: int, numParams: int, table: seq<int>)
    requires 0 <= i < |hits|
    requires IndicesInTable(hits, numPadX, numParams, |table|)
    ensures IndicesInTable(hits[..i], numPadX, numParams, |table|)
    ensures IndicesInTable(hits[..i + 1], numPadX, numParams, |table|)
    ensures Calibrate(hits[..i + 1], numPadX, numParams, table) ==
              Calibrate(hits[..i], numPadX, numParams, table) +
              (if Kept(hits, i, numPadX, numParams, table)
               then [CalHitAt(hits, i, numPadX, numParams, table)] else [])
  {
    IndicesInTablePrefix(hits, i, numPadX, numParams, |table|);
    IndicesInTablePrefix(hits, i + 1, numPadX, numParams, |table|);
    var pre := hits[..i + 1];
    assert pre[..i] == hits[..i];
    assert pre[..i + 1] == hits[..i + 1];
    assert CalHitAt(pre, i, numPadX, numParams, table) == CalHitAt(hits, i, numPadX, numParams, table);
  }

  /** Every kept hit `i` lands in the output at the position given by the
      number of kept hits before it, with its own plane and pad. */
  lemma CalibratePlacement(hits: seq<MappedHit>, i: int, numPadX: int, numParams: int, table: seq<int>)
    requires 0 <= i < |hits|
    requires IndicesInTable(hits, numPadX, numParams, |table|)
    requires Kept(hits, i, numPadX, numParams, table)
    ensures IndicesInTable(hits[..i], numPadX, numParams, |table|)
    ensures var pos := |Calibrate(hits[..i], numPadX, numParams, table)|;
            var cal := Calibrate(hits, numPadX, numParams, table);
            pos < |cal| && cal[pos] == CalHitAt(hits, i, numPadX, numParams, table) &&
            cal[pos].plane == ToByte(hits[i].plane) && cal[pos].pad == ToByte(hits[i].pad)
  {
    CalibrateStep(hits, i, numPadX, numParams, table);
    CalibratePrefix(hits, i + 1, numPadX, numParams, table);
  }

  /** Every calibrated hit comes from some kept input hit. */
  lemma {:induction false} CalibrateSound(hits: seq<MappedHit>, numPadX: int, numParams: int, table: seq<int>, c: CalHit)
    requires IndicesInTable(hits, numPadX, numParams, |table|)
    requires c in Calibrate(hits, numPadX, numParams, table)
    ensures exists i :: 0 <= i < |hits| && Kept(hits, i, numPadX, numParams, table) &&
                        c == CalHitAt(hits, i, numPadX, numParams, table)
    decreases |hits|
  {
    var n := |hits| - 1;
    CalibrateStep(hits, n, numPadX, numParams, table);
    assert hits[..n + 1] == hits;
    if c in Calibrate(hits[..n], numPadX, numParams, table) {
      CalibrateSound(hits[..n], numPadX, numParams, table, c);
      var i :| 0 <= i < n && Kept(hits[..n], i, numPadX, numParams, table) &&
               c == CalHitAt(hits[..n], i, numPadX, numParams, table);
      assert hits[..n][..i + 1] == hits[..i + 1];
      assert CalHitAt(hits[..n], i, numPadX, numParams, table) == CalHitAt(hits, i, numPadX, numParams, table);
    } else {
      assert Kept(hits, n, numPadX, numParams, table);
    }
  }

  /** Example: plane 1, pad 5, two parameters per pad, pedestal 50
      at entry 10, raw charge 80 gives one calibrated hit of charge 30. */
  lemma ExampleSinglePad(table: seq<int>)
    requires |table| == 11 && table[10] == 50
    ensures IndicesInTable([MappedHit(1, 5, 80)], 0, 2, |table|)
    ensures Calibrate([MappedHit(1, 5, 80)], 0, 2, table) == [CalHit(1, 5, 30)]
  {
  }

  // ---------------------------------------------------------------------------
  // The task
  // ---------------------------------------------------------------------------

  /** The MWPC0 mapped-to-calibrated task: its parameters and its output buffer. */
  class Mwpc0Mapped2Cal {
    var numPadX: int
    var numPadY: int
    var numParams: int
    /** Pedestal table, indexed by `PedestalIndex`. */
    var calParams: seq<int>
    /** The calibrated-data output buffer, filled anew for every event. */
    var calData: seq<CalHit>

    constructor ()
      ensures numPadX == 0 && numPadY == 0 && numParams == 0
      ensures calParams == [] && calData == []
    {
      numPadX, numPadY, numParams := 0, 0, 0;
      calParams := [];
      calData := [];
    }

    /** Takes pad counts, fit-parameter count and pedestal table from the
        parameter container. */
    method SetParameter(par: CalPar)
      modifies this`numPadX, this`numPadY, this`numParams, this`calParams
      ensures numPadX == par.numPadsX && numPadY == par.numPadsY && numParams == par.numParametersFit
      ensures calParams == par.padCalParams
    {
      numPadX := par.numPadsX;
      numPadY := par.numPadsY;
      numParams := par.numParametersFit;
      // The table of (numPadX + numPadY) * numParams entries allocated first
      // is replaced at once by the container's own table.
      calParams := par.padCalParams;
    }

    /** Empties the output buffer. */
    method Reset()
      modifies this`calData
      ensures calData == []
    {
      calData := [];
    }

    /** Appends one calibrated hit at the end of the output buffer. */
    method AddCalData(plane: Byte, pad: Byte, charge: UShort)
      modifies this`calData
      ensures calData == old(calData) + [CalHit(plane, pad, charge)]
    {
      calData := calData + [CalHit(plane, pad, charge)];
    }

    /** Processes one event: clears the buffer, then calibrates the mapped
        hits in order. `warned` tells whether the too-many-hits warning was
        issued; it has no effect on the output. */
    method Exec(mapped: seq<MappedHit>) returns (warned: bool)
      requires IndicesInTable(mapped, numPadX, numParams, |calParams|)
      modifies this`calData
      ensures warned <==> |mapped| > numPadX + numPadY && |mapped| > 0
      ensures calData == Calibrate(mapped, numPadX, numParams, calParams)
    {
      Reset();
      var nHits := |mapped|;
      warned := nHits > numPadX + numPadY && nHits > 0;
      if nHits == 0 {
        return;
      }
      var pedestal: UShort := 0;
      var nbpad := 0;
      var i := 0;
      while i < nHits
        invariant 0 <= i <= nHits
        invariant IndicesInTable(mapped[..i], numPadX, numParams, |calParams|)
        invariant nbpad == IndexAfter(mapped[..i], numPadX, numParams)
        invariant calData == Calibrate(mapped[..i], numPadX, numParams, calParams)
      {
        CalibrateStep(mapped, i, numPadX, numParams, calParams);
        assert mapped[..i + 1][..i] == mapped[..i];
        var planeId := ToByte(mapped[i].plane);
        var padId := ToByte(mapped[i].pad);
        if planeId == 1 {
          nbpad := padId * numParams;
        } else if planeId == 3 {
          nbpad := (padId + numPadX) * numParams;
        }
        // any other plane is reported and the previous nbpad is kept
        pedestal := ToUShort(calParams[nbpad]);
        var charge := ToUShort(mapped[i].q - pedestal);
        if charge > 0 {
          AddCalData(planeId, padId, charge);
        }
        i := i + 1;
      }
      assert mapped[..nHits] == mapped;
    }
  }
}
