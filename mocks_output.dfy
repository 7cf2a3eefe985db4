/**
 * The output lists built by the mock-catalogue extension
 * (xi_mocks/python_bindings/_countpairs_mocks.c) from the engines' result
 * structures.  The engines are not part of this model: their results are
 * inputs, and each builder is a method whose loops append records to the
 * list `ret` while carrying the previous bin's upper edge in `rlow`.
 * Floating-point values are modelled as reals.
 */
module MocksOutput {

  /**
   * Floating-point division as the builders perform it.  A zero divisor
   * (an infinity or NaN in IEEE arithmetic) is not modelled and gives 0.0.
   */
  function RealDiv(a: real, b: real): real {
    if b == 0.0 then 0.0 else a / b
  }

  function Max0(n: int): nat {
    if n < 0 then 0 else n
  }

  // ---------------------------------------------------------------------
  // rp-pi pair counts
  // ---------------------------------------------------------------------

  /**
   * The rp-pi engine's results: `nbin` radial upper edges (entry 0 is the
   * lower sentinel) and, per radial bin, `npibin + 1` cells of pair counts
   * and average separations stored row-major.
   */
  datatype RpPiResults = RpPiResults(nbin: nat, npibin: nat, rupp: seq<real>, rpavg: seq<real>, npairs: seq<nat>)
  {
    predicate WellFormed() {
      && nbin >= 1
      && |rupp| == nbin
      && |rpavg| == nbin * (npibin + 1)
      && |npairs| == nbin * (npibin + 1)
    }
  }

  /** One element of the rp-pi list: (rlow, rhigh, rpavg, pi_upper, npairs). */
  datatype RpPiRecord = RpPiRecord(rpLow: real, rpHigh: real, rpAvg: real, piUpper: real, npairs: nat)

  /** The histogram cell read for radial bin i and pi bin j. */
  function Cell(npibin: nat, i: nat, j: nat): nat {
    i * (npibin + 1) + j
  }

  /** The position in the list of the record for radial bin i and pi bin j. */
  function Position(npibin: nat, i: nat, j: nat): nat
    requires i >= 1
  {
    (i - 1) * npibin + j
  }

  /** Number of records the rp-pi list holds. */
  function RpPiCount(res: RpPiResults): nat
    requires res.WellFormed()
  {
    (res.nbin - 1) * res.npibin
  }

  /**
   * Every cell the builder reads lies inside the histogram, never in row 0
   * (the sentinel bin) and never in column npibin.
   */
  lemma {:induction false} CellInBounds(nbin: nat, npibin: nat, i: nat, j: nat)
    requires 1 <= i < nbin && j < npibin
    ensures npibin + 1 <= Cell(npibin, i, j) < nbin * (npibin + 1)
    ensures Cell(npibin, i, j) / (npibin + 1) == i
    ensures Cell(npibin, i, j) % (npibin + 1) == j
  {
    var w := npibin + 1;
    MulMonotone(1, i, w);
    MulMonotone(i + 1, nbin, w);
    DivModUnique(Cell(npibin, i, j), w, i, j);
  }

  lemma {:induction false} MulMonotone(a: nat, b: nat, w: nat)
    requires a <= b
    ensures a * w <= b * w
  {
    if a < b {
      MulMonotone(a, b - 1, w);
    }
  }

  /** Division and remainder are determined by any decomposition c == q * w + r with r < w. */
  lemma DivModUnique(c: nat, w: nat, q: nat, r: nat)
    requires r < w && c == q * w + r
    ensures c / w == q && c % w == r
  {
    var q', r' := c / w, c % w;
    assert c == q' * w + r';
    if q' < q {
      MulMonotone(q' + 1, q, w);
    } else if q' > q {
      MulMonotone(q + 1, q', w);
    }
  }

  /** The record the list holds for radial bin i and pi bin j. */
  function RpPiExpected(res: RpPiResults, pimax: real, i: nat, j: nat): RpPiRecord
    requires res.WellFormed() && 1 <= i < res.nbin && j < res.npibin
  {
    CellInBounds(res.nbin, res.npibin, i, j);
    var c := Cell(res.npibin, i, j);
    RpPiRecord(res.rupp[i - 1], res.rupp[i], res.rpavg[c],
               (j + 1) as real * RealDiv(pimax, res.npibin as real), res.npairs[c])
  }

  /** `ret` holds the record of (i, j) at that pair's position. */
  predicate EmitsCell(ret: seq<RpPiRecord>, res: RpPiResults, pimax: real, i: nat, j: nat)
    requires res.WellFormed() && 1 <= i < res.nbin && j < res.npibin
  {
    Position(res.npibin, i, j) < |ret| && ret[Position(res.npibin, i, j)] == RpPiExpected(res, pimax, i, j)
  }

  /**
   * The rp-pi output list: radial bins 1..nbin-1 outer, pi bins
   * 0..npibin-1 inner; each record chains the previous radial upper edge
   * as its lower edge.
   */
  method BuildRpPiList(res: RpPiResults, pimax: real) returns (ret: seq<RpPiRecord>)
    requires res.WellFormed()
    ensures |ret| == RpPiCount(res)
    ensures forall i: nat, j: nat :: 1 <= i < res.nbin && j < res.npibin ==> EmitsCell(ret, res, pimax, i, j)
  {
    ret := [];
    var rlow := res.rupp[0];
    var dpi := RealDiv(pimax, res.npibin as real);
    var i := 1;
    while i < res.nbin
      invariant 1 <= i <= res.nbin
      invariant |ret| == Position(res.npibin, i, 0)
      invariant rlow == res.rupp[i - 1]
      invariant forall i': nat, j': nat :: 1 <= i' < i && j' < res.npibin ==> EmitsCell(ret, res, pimax, i', j')
    {
      ret := AppendPiBins(ret, res, pimax, dpi, i, rlow);
      RowEnd(res.npibin, i);
      rlow := res.rupp[i];
      i := i + 1;
    }
  }

  /** The inner loop of the rp-pi builder: the records of radial bin i, pi bins 0..npibin-1. */
  method AppendPiBins(ret0: seq<RpPiRecord>, res: RpPiResults, pimax: real, dpi: real, i: nat, rlow: real)
    returns (ret: seq<RpPiRecord>)
    requires res.WellFormed() && 1 <= i < res.nbin
    requires rlow == res.rupp[i - 1] && dpi == RealDiv(pimax, res.npibin as real)
    requires |ret0| == Position(res.npibin, i, 0)
    requires forall i': nat, j': nat :: 1 <= i' < i && j' < res.npibin ==> EmitsCell(ret0, res, pimax, i', j')
    ensures |ret| == Position(res.npibin, i, res.npibin)
    ensures forall i': nat, j': nat :: 1 <= i' <= i && j' < res.npibin ==> EmitsCell(ret, res, pimax, i', j')
  {
    ret := ret0;
    var j := 0;
    while j < res.npibin
      invariant 0 <= j <= res.npibin
      invariant |ret| == Position(res.npibin, i, j)
      invariant forall i': nat, j': nat :: 1 <= i' <= i && j' < res.npibin && (i' < i || j' < j)
                  ==> EmitsCell(ret, res, pimax, i', j')
    {
      CellInBounds(res.nbin, res.npibin, i, j);
      var binIndex := Cell(res.npibin, i, j);
      var record := RpPiRecord(rlow, res.rupp[i], res.rpavg[binIndex], (j + 1) as real * dpi, res.npairs[binIndex]);
      AppendKeepsCells(ret, record, res, pimax, i, j);
      ret := ret + [record];
      j := j + 1;
    }
  }

  /** The position after the last pi bin of radial bin i is the first position of radial bin i+1. */
  lemma RowEnd(npibin: nat, i: nat)
    requires i >= 1
    ensures Position(npibin, i, npibin) == Position(npibin, i + 1, 0)
  {
  }

  /** Appending the record of (i, j) at its position keeps every earlier cell in place. */
  lemma AppendKeepsCells(ret: seq<RpPiRecord>, record: RpPiRecord, res: RpPiResults, pimax: real, i: nat, j: nat)
    requires res.WellFormed() && 1 <= i < res.nbin && j < res.npibin
    requires |ret| == Position(res.npibin, i, j) && record == RpPiExpected(res, pimax, i, j)
    requires forall i': nat, j': nat :: 1 <= i' <= i && j' < res.npibin && (i' < i || j' < j)
               ==> EmitsCell(ret, res, pimax, i', j')
    ensures |ret + [record]| == Position(res.npibin, i, j + 1)
    ensures forall i': nat, j': nat :: 1 <= i' <= i && j' < res.npibin && (i' < i || j' < j + 1)
              ==> EmitsCell(ret + [record], res, pimax, i', j')
  {
    forall i': nat, j': nat | 1 <= i' <= i && j' < res.npibin && (i' < i || j' < j + 1)
      ensures EmitsCell(ret + [record], res, pimax, i', j')
    {
      if i' < i || j' < j {
        assert EmitsCell(ret, res, pimax, i', j');
      }
    }
  }

  /**
   * Positions are the row-major order of (i, j): each position below
   * RpPiCount belongs to exactly one pair, and the pairs come in ascending
   * lexicographic order.
   */
  lemma {:induction false} PositionIsRowMajor(npibin: nat, i: nat, j: nat)
    requires i >= 1 && j < npibin
    ensures Position(npibin, i, j) / npibin == i - 1
    ensures Position(npibin, i, j) % npibin == j
  {
    DivModUnique(Position(npibin, i, j), npibin, i - 1, j);
  }

  lemma {:induction false} PositionAscending(npibin: nat, i: nat, j: nat, i': nat, j': nat)
    requires i >= 1 && i' >= 1 && j < npibin && j' < npibin
    ensures Position(npibin, i, j) < Position(npibin, i', j') <==> i < i' || (i == i' && j < j')
  {
    if i < i' {
      MulMonotone(i, i' - 1, npibin);
    } else if i > i' {
      MulMonotone(i', i - 1, npibin);
    }
  }

  lemma {:induction false} EveryPositionIsEmitted(res: RpPiResults, p: nat)
    requires res.WellFormed() && p < RpPiCount(res)
    ensures res.npibin > 0
    ensures 1 <= 1 + p / res.npibin < res.nbin && p % res.npibin < res.npibin
    ensures Position(res.npibin, 1 + p / res.npibin, p % res.npibin) == p
  {
    var w := res.npibin;
    var q := p / w;
    if q >= res.nbin - 1 {
      MulMonotone(res.nbin - 1, q, w);
    }
  }

  /** The upper pi edge of pi bin j is (j+1)*pimax/npibin; the last one is pimax. */
  lemma PiUpperEdges(res: RpPiResults, pimax: real, i: nat, j: nat)
    requires res.WellFormed() && 1 <= i < res.nbin && j < res.npibin
    ensures RpPiExpected(res, pimax, i, j).piUpper * res.npibin as real == (j + 1) as real * pimax
    ensures j == res.npibin - 1 ==> RpPiExpected(res, pimax, i, j).piUpper == pimax
  {
    var n := res.npibin as real;
    assert RpPiExpected(res, pimax, i, j).piUpper == (j + 1) as real * (pimax / n);
  }

  // ---------------------------------------------------------------------
  // theta pair counts
  // ---------------------------------------------------------------------

  /** The theta engine's results: `nbin` angular upper edges (entry 0 is the lower sentinel), averages and counts. */
  datatype ThetaResults = ThetaResults(nbin: nat, thetaUpp: seq<real>, thetaAvg: seq<real>, npairs: seq<nat>)
  {
    predicate WellFormed() {
      nbin >= 1 && |thetaUpp| == nbin && |thetaAvg| == nbin && |npairs| == nbin
    }
  }

  /** One element of the theta list: (theta_low, theta_high, theta_avg, npairs). */
  datatype ThetaRecord = ThetaRecord(thetaLow: real, thetaHigh: real, thetaAvg: real, npairs: nat)

  /** The theta output list: record i-1 describes angular bin i, for i = 1..nbin-1. */
  method BuildThetaList(res: ThetaResults) returns (ret: seq<ThetaRecord>)
    requires res.WellFormed()
    ensures |ret| == res.nbin - 1
    ensures forall i :: 1 <= i < res.nbin ==>
              ret[i - 1] == ThetaRecord(res.thetaUpp[i - 1], res.thetaUpp[i], res.thetaAvg[i], res.npairs[i])
    ensures forall k :: 0 <= k < |ret| - 1 ==> ret[k].thetaHigh == ret[k + 1].thetaLow
  {
    ret := [];
    var rlow := res.thetaUpp[0];
    var i := 1;
    while i < res.nbin
      invariant 1 <= i <= res.nbin
      invariant |ret| == i - 1
      invariant rlow == res.thetaUpp[i - 1]
      invariant forall k :: 0 <= k < i - 1 ==>
                  ret[k] == ThetaRecord(res.thetaUpp[k], res.thetaUpp[k + 1], res.thetaAvg[k + 1], res.npairs[k + 1])
    {
      var thetaAvg := res.thetaAvg[i];
      ret := ret + [ThetaRecord(rlow, res.thetaUpp[i], thetaAvg, res.npairs[i])];
      rlow := res.thetaUpp[i];
      i := i + 1;
    }
    forall k | 0 <= k < |ret| - 1
      ensures ret[k].thetaHigh == ret[k + 1].thetaLow
    {
      assert ret[k] == ThetaRecord(res.thetaUpp[k], res.thetaUpp[k + 1], res.thetaAvg[k + 1], res.npairs[k + 1]);
      assert ret[k + 1] == ThetaRecord(res.thetaUpp[k + 1], res.thetaUpp[k + 2], res.thetaAvg[k + 2], res.npairs[k + 2]);
    }
  }

  // ---------------------------------------------------------------------
  // counts-in-spheres (VPF)
  // ---------------------------------------------------------------------

  /** The sphere engine's results: `nbin` shells, each with its probabilities p0, p1, ... */
  datatype VpfResults = VpfResults(nbin: nat, pN: seq<seq<real>>)
  {
    predicate WellFormed(numPN: int) {
      |pN| == nbin && forall b :: 0 <= b < nbin ==> |pN[b]| >= numPN
    }
  }

  /** The radius of shell b when rmax is split into `nbin` equal steps: (b+1)*rmax/nbin. */
  function ShellRadius(rmax: real, nbin: int, b: nat): (r: real)
    ensures nbin != 0 ==> r * nbin as real == (b + 1) as real * rmax
  {
    (b + 1) as real * RealDiv(rmax, nbin as real)
  }

  /** Shell radii grow with the shell index, and the last of `nbin` shells has radius rmax. */
  lemma ShellRadiiAscend(rmax: real, nbin: int, b: nat, b': nat)
    requires rmax > 0.0 && nbin > 0 && b < b'
    ensures 0.0 < ShellRadius(rmax, nbin, b) < ShellRadius(rmax, nbin, b')
  {
    var step := rmax / nbin as real;
    assert step > 0.0;
    assert ShellRadius(rmax, nbin, b') - ShellRadius(rmax, nbin, b) == (b' - b) as real * step;
  }

  lemma LastShellIsRmax(rmax: real, nbin: int)
    requires nbin > 0
    ensures ShellRadius(rmax, nbin, nbin - 1) == rmax
  {
  }

  /**
   * The VPF output list: one row per shell of the engine's results, the
   * shell's radius followed by its num_pN probabilities.  `nbin` is the
   * caller's argument, which fixes the radius step.
   */
  method BuildVpfList(res: VpfResults, rmax: real, nbin: int, numPN: int) returns (ret: seq<seq<real>>)
    requires res.WellFormed(numPN)
    ensures |ret| == res.nbin
    ensures forall b :: 0 <= b < res.nbin ==>
              && |ret[b]| == 1 + Max0(numPN)
              && ret[b][0] == ShellRadius(rmax, nbin, b)
              && ret[b][1..] == res.pN[b][..Max0(numPN)]
  {
    ret := [];
    var rstep := RealDiv(rmax, nbin as real);
    var ibin := 0;
    while ibin < res.nbin
      invariant 0 <= ibin <= res.nbin
      invariant |ret| == ibin
      invariant forall b :: 0 <= b < ibin ==>
                  ret[b] == [ShellRadius(rmax, nbin, b)] + res.pN[b][..Max0(numPN)]
    {
      var r := (ibin + 1) as real * rstep;
      var item := [r];
      var p := 0;
      while p < numPN
        invariant 0 <= p <= Max0(numPN)
        invariant item == [r] + res.pN[ibin][..p]
      {
        item := item + [res.pN[ibin][p]];
        p := p + 1;
      }
      assert p == Max0(numPN);
      assert r == ShellRadius(rmax, nbin, ibin);
      ret := ret + [item];
      ibin := ibin + 1;
    }
  }
}
