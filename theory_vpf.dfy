/**
 * The Python wrapper `vpf` of the counts-in-cells extension
 * (Corrfunc/theory/vpf.py): the particle volume, the guard that refuses
 * more sphere volume than particle volume, the check of the extension's
 * result, the reshape of the extension's rows into the results table, and
 * the shape of the return value.  The extension itself is not modelled:
 * what it returns (its rows, or None, and the time it reports) is an input.
 */
module TheoryVpf {
  import opened Wrappers

  /** Python's math.pi, as a real. */
  const Pi: real := 3.141592653589793

  /** The exceptions vpf raises itself. */
  datatype VpfError =
    | EmptyCoordinates                                 // ValueError raised by max()/min() of an empty X, Y or Z
    | NotEnoughVolume(requested: real, volume: real)   // ValueError: the spheres need more volume than the particles span
    | AnswerNotAPair                                   // TypeError: the extension returned a bare None, which cannot be unpacked
    | ExtensionFailed                                  // RuntimeError: the first value of the extension's pair is None
    | ShortRow                                         // IndexError: a returned row has fewer than 1 + num_pN entries

  // ---------------------------------------------------------------------
  // Volume and guard
  // ---------------------------------------------------------------------

  /** Python's max() of a non-empty sequence. */
  function SeqMax(s: seq<real>): (m: real)
    requires |s| > 0
    ensures m in s
    ensures forall v :: v in s ==> v <= m
  {
    if |s| == 1 then s[0]
    else
      var rest := SeqMax(s[1..]);
      assert s == [s[0]] + s[1..];
      if s[0] >= rest then s[0] else rest
  }

  /** Python's min() of a non-empty sequence. */
  function SeqMin(s: seq<real>): (m: real)
    requires |s| > 0
    ensures m in s
    ensures forall v :: v in s ==> m <= v
  {
    if |s| == 1 then s[0]
    else
      var rest := SeqMin(s[1..]);
      assert s == [s[0]] + s[1..];
      if s[0] <= rest then s[0] else rest
  }

  /** max(s) - min(s): the smallest width that holds every coordinate. */
  function Extent(s: seq<real>): (e: real)
    requires |s| > 0
    ensures e >= 0.0
    ensures forall a, b :: a in s && b in s ==> a - b <= e
    ensures exists a, b :: a in s && b in s && a - b == e
  {
    SeqMax(s) - SeqMin(s)
  }

  /**
   * The particle volume: boxsize cubed for a positive boxsize, otherwise
   * the volume of the particles' bounding box, whose max() and min() raise
   * on an empty coordinate array.
   */
  function ParticleVolume(boxsize: real, x: seq<real>, y: seq<real>, z: seq<real>): (r: Result<real, VpfError>)
    ensures boxsize > 0.0 ==> r == Success(boxsize * boxsize * boxsize)
    ensures boxsize <= 0.0 ==> (r.Failure? <==> |x| == 0 || |y| == 0 || |z| == 0)
    ensures r.Failure? ==> r.error == EmptyCoordinates
    ensures r.Success? ==> r.value >= 0.0
    ensures boxsize <= 0.0 && r.Success? ==> r.value == BoundingBoxVolume(x, y, z)
  {
    if boxsize > 0.0 then
      ProductNonNegative(boxsize, boxsize, boxsize);
      Success(boxsize * boxsize * boxsize)
    else if |x| == 0 || |y| == 0 || |z| == 0 then
      Failure(EmptyCoordinates)
    else
      Success(BoundingBoxVolume(x, y, z))
  }

  /** The volume of the particles' axis-aligned bounding box. */
  function BoundingBoxVolume(x: seq<real>, y: seq<real>, z: seq<real>): (v: real)
    requires |x| > 0 && |y| > 0 && |z| > 0
    ensures v >= 0.0
  {
    var ex, ey, ez := Extent(x), Extent(y), Extent(z);
    ProductNonNegative(ex, ey, ez);
    ex * ey * ez
  }

  lemma ProductNonNegative(a: real, b: real, c: real)
    requires a >= 0.0 && b >= 0.0 && c >= 0.0
    ensures a * b * c >= 0.0
  {
    assert a * b >= 0.0;
  }

  /** The volume of one sphere of radius rmax, 4/3 * pi * rmax^3. */
  function SphereVolume(rmax: real): (v: real)
    ensures rmax > 0.0 ==> v > 0.0
    ensures rmax == 0.0 ==> v == 0.0
    ensures rmax < 0.0 ==> v < 0.0
  {
    ScaledCubeSign(4.0 / 3.0 * Pi, rmax);
    4.0 / 3.0 * Pi * rmax * rmax * rmax
  }

  lemma ScaledCubeSign(k: real, r: real)
    requires k > 0.0
    ensures r > 0.0 ==> k * r * r * r > 0.0
    ensures r < 0.0 ==> k * r * r * r < 0.0
  {
    if r > 0.0 {
      assert k * r > 0.0;
      assert k * r * r > 0.0;
    } else if r < 0.0 {
      assert k * r < 0.0;
      assert k * r * r > 0.0;
    }
  }

  /**
   * What vpf does before it calls the extension: compute the particle
   * volume and refuse a request whose spheres' total volume exceeds it.
   * On success the particle volume is returned.
   */
  function CheckBeforeExtension(rmax: real, nspheres: int, x: seq<real>, y: seq<real>, z: seq<real>, boxsize: real)
    : (r: Result<real, VpfError>)
    ensures r.Success? <==> ParticleVolume(boxsize, x, y, z).Success?
                            && nspheres as real * SphereVolume(rmax) <= ParticleVolume(boxsize, x, y, z).value
    ensures r.Success? ==> r.value == ParticleVolume(boxsize, x, y, z).value
    ensures r.Failure? && r.error.NotEnoughVolume?
            <==> ParticleVolume(boxsize, x, y, z).Success?
                 && nspheres as real * SphereVolume(rmax) > ParticleVolume(boxsize, x, y, z).value
    ensures r.Failure? && r.error.NotEnoughVolume? ==> r.error.requested > r.error.volume >= 0.0
  {
    match ParticleVolume(boxsize, x, y, z)
    case Failure(e) => Failure(e)
    case Success(volume) =>
      var requested := nspheres as real * SphereVolume(rmax);
      if requested > volume then Failure(NotEnoughVolume(requested, volume)) else Success(volume)
  }

  // ---------------------------------------------------------------------
  // Reshape of the extension's rows
  // ---------------------------------------------------------------------

  /** One row of the results table: the sphere radius and its num_pN probabilities. */
  datatype VpfRow = VpfRow(rmax: real, pN: seq<real>)

  /** The row np.zeros puts in every slot. */
  function ZeroRow(numPN: nat): VpfRow {
    VpfRow(0.0, seq(numPN, _ => 0.0))
  }

  /** Every row the extension returned has a radius and num_pN probabilities. */
  predicate RowsFit(extn: seq<seq<real>>, numPN: nat) {
    forall ii :: 0 <= ii < |extn| ==> |extn[ii]| >= 1 + numPN
  }

  /** Row ii of the table holds row ii of the extension: its radius and the next num_pN values. */
  predicate ReshapedAsIntended(extn: seq<seq<real>>, numPN: nat, rows: seq<VpfRow>) {
    && RowsFit(extn, numPN)
    && |rows| == |extn|
    && forall ii :: 0 <= ii < |extn| ==> rows[ii] == VpfRow(extn[ii][0], extn[ii][1..1 + numPN])
  }

  /**
   * The table as vpf.py builds it: for num_pN == 1 every iteration
   * assigns r[1] to the whole pN column, so every row ends with the last
   * extension row's p0.
   */
  predicate ReshapedAsWritten(extn: seq<seq<real>>, numPN: nat, rows: seq<VpfRow>) {
    && RowsFit(extn, numPN)
    && |rows| == |extn|
    && (forall ii :: 0 <= ii < |extn| ==> rows[ii].rmax == extn[ii][0])
    && (numPN == 1 ==> forall ii :: 0 <= ii < |extn| ==> rows[ii].pN == [extn[|extn| - 1][1]])
    && (numPN != 1 ==> forall ii :: 0 <= ii < |extn| ==> rows[ii].pN == extn[ii][1..1 + numPN])
  }

  /** The reshape loop as written: a zero-filled table updated in place, row by row. */
  method ReshapeAsWritten(extn: seq<seq<real>>, numPN: nat) returns (rows: seq<VpfRow>)
    requires numPN >= 1 && RowsFit(extn, numPN)
    ensures ReshapedAsWritten(extn, numPN, rows)
  {
    var results := new VpfRow[|extn|](_ => ZeroRow(numPN));
    for ii := 0 to |extn|
      invariant forall k :: 0 <= k < ii ==> results[k].rmax == extn[k][0]
      invariant forall k :: 0 <= k < |extn| ==> |results[k].pN| == numPN
      invariant numPN == 1 && ii > 0 ==> forall k :: 0 <= k < |extn| ==> results[k].pN == [extn[ii - 1][1]]
      invariant numPN != 1 ==> forall k :: 0 <= k < ii ==> results[k].pN == extn[k][1..1 + numPN]
    {
      var r := extn[ii];
      results[ii] := results[ii].(rmax := r[0]);
      if numPN == 1 {
        BroadcastPN(results, r[1]);
      } else {
        FillRow(results, ii, r, numPN);
      }
    }
    rows := results[..];
  }

  /** `results['pN'] = v` for a one-wide pN column: numpy broadcasts v into every row. */
  method BroadcastPN(results: array<VpfRow>, v: real)
    modifies results
    ensures forall k :: 0 <= k < results.Length ==> results[k] == old(results[k]).(pN := [v])
  {
    forall k | 0 <= k < results.Length {
      results[k] := results[k].(pN := [v]);
    }
  }

  /** The inner loop `for j in range(num_pN): results['pN'][ii][j] = r[1 + j]`. */
  method FillRow(results: array<VpfRow>, ii: nat, r: seq<real>, numPN: nat)
    requires ii < results.Length && |results[ii].pN| == numPN && |r| >= 1 + numPN
    modifies results
    ensures results[ii] == VpfRow(old(results[ii].rmax), r[1..1 + numPN])
    ensures forall k :: 0 <= k < results.Length && k != ii ==> results[k] == old(results[k])
  {
    for j := 0 to numPN
      invariant results[ii].rmax == old(results[ii].rmax)
      invariant |results[ii].pN| == numPN
      invariant forall q :: 0 <= q < j ==> results[ii].pN[q] == r[1 + q]
      invariant forall k :: 0 <= k < results.Length && k != ii ==> results[k] == old(results[k])
    {
      results[ii] := results[ii].(pN := results[ii].pN[j := r[1 + j]]);
    }
    assert results[ii].pN == r[1..1 + numPN];
  }

  /** The reshape loop as evidently intended: row ii's pN receives row ii's values for every num_pN. */
  method Reshape(extn: seq<seq<real>>, numPN: nat) returns (rows: seq<VpfRow>)
    requires numPN >= 1 && RowsFit(extn, numPN)
    ensures ReshapedAsIntended(extn, numPN, rows)
  {
    var results := new VpfRow[|extn|](_ => ZeroRow(numPN));
    for ii := 0 to |extn|
      invariant forall k :: 0 <= k < |extn| ==>
                  results[k] == if k < ii then VpfRow(extn[k][0], extn[k][1..1 + numPN]) else ZeroRow(numPN)
    {
      var r := extn[ii];
      results[ii] := results[ii].(rmax := r[0]);
      FillRow(results, ii, r, numPN);
    }
    rows := results[..];
  }

  /** The intended table is determined by the extension's rows. */
  lemma ReshapedAsIntendedIsUnique(extn: seq<seq<real>>, numPN: nat, rows: seq<VpfRow>, rows': seq<VpfRow>)
    requires ReshapedAsIntended(extn, numPN, rows) && ReshapedAsIntended(extn, numPN, rows')
    ensures rows == rows'
  {
    forall ii | 0 <= ii < |rows|
      ensures rows[ii] == rows'[ii]
    {
      assert rows[ii] == VpfRow(extn[ii][0], extn[ii][1..1 + numPN]);
    }
  }

  /** For num_pN != 1 the written loop builds the intended table. */
  lemma AsWrittenIsIntendedUnlessSinglePN(extn: seq<seq<real>>, numPN: nat, rows: seq<VpfRow>)
    requires numPN != 1 && ReshapedAsWritten(extn, numPN, rows)
    ensures ReshapedAsIntended(extn, numPN, rows)
  {
    forall ii | 0 <= ii < |extn|
      ensures rows[ii] == VpfRow(extn[ii][0], extn[ii][1..1 + numPN])
    {
      assert rows[ii].rmax == extn[ii][0] && rows[ii].pN == extn[ii][1..1 + numPN];
    }
  }

  /** For num_pN == 1 the written loop is right only when every row has the last row's p0. */
  lemma SinglePNIsIntendedOnlyIfConstant(extn: seq<seq<real>>, rows: seq<VpfRow>)
    requires ReshapedAsWritten(extn, 1, rows)
    ensures ReshapedAsIntended(extn, 1, rows)
            <==> forall ii :: 0 <= ii < |extn| ==> extn[ii][1] == extn[|extn| - 1][1]
  {
    if forall ii :: 0 <= ii < |extn| ==> extn[ii][1] == extn[|extn| - 1][1] {
      forall ii | 0 <= ii < |extn|
        ensures rows[ii] == VpfRow(extn[ii][0], extn[ii][1..2])
      {
        assert extn[ii][1..2] == [extn[ii][1]];
        assert rows[ii].pN == [extn[|extn| - 1][1]];
      }
    } else {
      var ii :| 0 <= ii < |extn| && extn[ii][1] != extn[|extn| - 1][1];
      assert rows[ii].pN == [extn[|extn| - 1][1]];
      assert extn[ii][1..2][0] == extn[ii][1];
    }
  }

  /** Two shells with different p0: the written loop gives the first shell the second shell's p0. */
  lemma BroadcastCounterexample(rows: seq<VpfRow>)
    requires ReshapedAsWritten([[1.0, 0.5], [2.0, 0.25]], 1, rows)
    ensures rows[0] == VpfRow(1.0, [0.25])
    ensures !ReshapedAsIntended([[1.0, 0.5], [2.0, 0.25]], 1, rows)
  {
    SinglePNIsIntendedOnlyIfConstant([[1.0, 0.5], [2.0, 0.25]], rows);
  }

  // ---------------------------------------------------------------------
  // The wrapper
  // ---------------------------------------------------------------------

  /** vpf's return value: the table, with the extension's timing when c_api_timer is set. */
  datatype VpfReturn = Results(table: seq<VpfRow>) | ResultsAndTime(table: seq<VpfRow>, apiTime: real)

  /** A pair the extension may return: its rows (or None) and the C-side timing. */
  datatype ExtnPair = ExtnPair(rows: Option<seq<seq<real>>>, apiTime: real)

  /**
   * vpf: guard, call the extension (its answer is given: None for a bare
   * None, otherwise the pair), unpack it, refuse a None first value,
   * reshape, and return.  `extnCalled` tells whether the extension was
   * reached.
   */
  method Vpf(rmax: real, nspheres: int, numPN: nat, x: seq<real>, y: seq<real>, z: seq<real>,
             boxsize: real, cApiTimer: bool, answer: Option<ExtnPair>)
    returns (outcome: Result<VpfReturn, VpfError>, extnCalled: bool)
    requires numPN >= 1
    ensures extnCalled <==> CheckBeforeExtension(rmax, nspheres, x, y, z, boxsize).Success?
    ensures !extnCalled ==> outcome == Failure(CheckBeforeExtension(rmax, nspheres, x, y, z, boxsize).error)
    ensures extnCalled && answer.None? ==> outcome == Failure(AnswerNotAPair)
    ensures extnCalled && answer.Some? && answer.value.rows.None? ==> outcome == Failure(ExtensionFailed)
    ensures extnCalled && answer.Some? && answer.value.rows.Some? ==>
              if RowsFit(answer.value.rows.value, numPN) then outcome.Success? else outcome == Failure(ShortRow)
    ensures outcome.Success? ==> extnCalled && answer.Some? && answer.value.rows.Some?
                                 && ReshapedAsIntended(answer.value.rows.value, numPN, outcome.value.table)
    ensures outcome.Success? ==> (outcome.value.ResultsAndTime? <==> cApiTimer)
    ensures outcome.Success? && cApiTimer ==> outcome.value.apiTime == answer.value.apiTime
  {
    var check := CheckBeforeExtension(rmax, nspheres, x, y, z, boxsize);
    if check.Failure? {
      return Failure(check.error), false;
    }
    extnCalled := true;
    if answer.None? {
      return Failure(AnswerNotAPair), extnCalled;
    }
    var extnResults, apiTime := answer.value.rows, answer.value.apiTime;
    if extnResults.None? {
      return Failure(ExtensionFailed), extnCalled;
    }
    var extn := extnResults.value;
    if !RowsFit(extn, numPN) {
      return Failure(ShortRow), extnCalled;
    }
    var table := Reshape(extn, numPN);
    if !cApiTimer {
      outcome := Success(Results(table));
    } else {
      outcome := Success(ResultsAndTime(table, apiTime));
    }
  }
}
