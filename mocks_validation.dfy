/**
 * Input-shape validation at the boundary of the mock-catalogue extension
 * (xi_mocks/python_bindings/_countpairs_mocks.c).
 *
 * `check_dims_and_datatype` inspects three numpy arrays and returns either
 * their common length or C's EXIT_FAILURE, setting the module's error on the
 * failure paths.  Its three callers (rp-pi, theta and VPF) test that return
 * value against 0.  This module models the validator, the callers' test as
 * they are written, and a corrected validator/caller pair whose failure value
 * cannot be mistaken for a length.
 */
module MocksValidation {
  import opened Wrappers

  /** numpy's type numbers of the two accepted element types (float32, float64). */
  const NpyFloat: int := 11
  const NpyDouble: int := 12

  /** The value of C's EXIT_FAILURE on the platforms the package supports. */
  const ExitFailure: int := 1

  /**
   * What the validator reads of one numpy array: the number of dimensions,
   * the element type number, and the extent of the first dimension.
   */
  datatype ArrayInfo = ArrayInfo(ndim: int, typeNum: int, len: nat)

  /** The three messages the validator can place in the module error. */
  datatype ShapeError =
    | NotOneDimensional(nxdims: int, nydims: int, nzdims: int)
    | NotFloatingPoint(xType: int, yType: int, zType: int)
    | LengthMismatch(nx: nat, ny: nat, nz: nat)

  /** One validator call: the int64 it returns and the module error it set, if any. */
  datatype CheckOutcome = CheckOutcome(ret: int, error: Option<ShapeError>)

  predicate IsFloatType(t: int) {
    t == NpyFloat || t == NpyDouble
  }

  predicate AllOneDimensional(x: ArrayInfo, y: ArrayInfo, z: ArrayInfo) {
    x.ndim == 1 && y.ndim == 1 && z.ndim == 1
  }

  predicate AllFloating(x: ArrayInfo, y: ArrayInfo, z: ArrayInfo) {
    IsFloatType(x.typeNum) && IsFloatType(y.typeNum) && IsFloatType(z.typeNum)
  }

  predicate SameLength(x: ArrayInfo, y: ArrayInfo, z: ArrayInfo) {
    x.len == y.len == z.len
  }

  /** The shape the engines need: three 1-D floating-point arrays of one length. */
  predicate WellShaped(x: ArrayInfo, y: ArrayInfo, z: ArrayInfo) {
    AllOneDimensional(x, y, z) && AllFloating(x, y, z) && SameLength(x, y, z)
  }

  /**
   * check_dims_and_datatype: dimensionality is checked first, then the
   * element types, then the lengths; the first check that fails sets the
   * module error and the function returns EXIT_FAILURE.
   */
  function CheckDimsAndDatatype(x: ArrayInfo, y: ArrayInfo, z: ArrayInfo): (r: CheckOutcome)
    ensures r.error.None? <==> WellShaped(x, y, z)
    ensures r.error.None? ==> r.ret == x.len && SameLength(x, y, z)
    ensures r.error.Some? ==> r.ret == ExitFailure
    ensures r.error.Some? && r.error.value.NotOneDimensional? <==> !AllOneDimensional(x, y, z)
    ensures r.error.Some? && r.error.value.NotFloatingPoint?
            <==> AllOneDimensional(x, y, z) && !AllFloating(x, y, z)
    ensures r.error.Some? && r.error.value.LengthMismatch?
            <==> AllOneDimensional(x, y, z) && AllFloating(x, y, z) && !SameLength(x, y, z)
  {
    if x.ndim != 1 || y.ndim != 1 || z.ndim != 1 then
      CheckOutcome(ExitFailure, Some(NotOneDimensional(x.ndim, y.ndim, z.ndim)))
    else if !(IsFloatType(x.typeNum) && IsFloatType(y.typeNum) && IsFloatType(z.typeNum)) then
      CheckOutcome(ExitFailure, Some(NotFloatingPoint(x.typeNum, y.typeNum, z.typeNum)))
    else if x.len == y.len && y.len == z.len then
      CheckOutcome(x.len, None)
    else
      CheckOutcome(ExitFailure, Some(LengthMismatch(x.len, y.len, z.len)))
  }

  /**
   * What an entry point does after validating its two coordinate sets:
   * go on to convert the arrays and call the engine with the two lengths,
   * or return None.  `pendingError` is the module error left set at that
   * point (PyErr_SetString replaces an earlier error).
   */
  datatype Admission =
    | Proceed(nd1: int, nd2: int, pendingError: Option<ShapeError>)
    | ReturnNone(pendingError: Option<ShapeError>)

  /** The error indicator after two calls that may each set it. */
  function Latest(first: Option<ShapeError>, second: Option<ShapeError>): Option<ShapeError> {
    if second.Some? then second else first
  }

  /**
   * The callers as written: each validator result is compared with 0 only.
   * rp-pi and VPF pass (ra, dec, cz) of each set; theta passes (ra, dec, ra).
   */
  function AdmitAsWritten(x1: ArrayInfo, y1: ArrayInfo, z1: ArrayInfo,
                          x2: ArrayInfo, y2: ArrayInfo, z2: ArrayInfo): (a: Admission)
    ensures a.Proceed? ==> a.nd1 >= 1 && a.nd2 >= 1
    ensures a.Proceed? ==> (WellShaped(x1, y1, z1) ==> a.nd1 == x1.len) && (WellShaped(x2, y2, z2) ==> a.nd2 == x2.len)
    ensures a.Proceed? ==> (!WellShaped(x1, y1, z1) ==> a.nd1 == ExitFailure) && (!WellShaped(x2, y2, z2) ==> a.nd2 == ExitFailure)
    ensures a.ReturnNone? ==> (a.pendingError.Some? <==> !WellShaped(x1, y1, z1))
    ensures a.Proceed? ==> (a.pendingError.Some? <==> !WellShaped(x1, y1, z1) || !WellShaped(x2, y2, z2))
    ensures a.Proceed? && !WellShaped(x2, y2, z2) ==> a.pendingError == CheckDimsAndDatatype(x2, y2, z2).error
    ensures a.Proceed? && !WellShaped(x1, y1, z1) && WellShaped(x2, y2, z2)
            ==> a.pendingError == CheckDimsAndDatatype(x1, y1, z1).error
  {
    var c1 := CheckDimsAndDatatype(x1, y1, z1);
    if c1.ret == 0 then
      ReturnNone(c1.error)
    else
      var c2 := CheckDimsAndDatatype(x2, y2, z2);
      if c2.ret == 0 then
        ReturnNone(Latest(c1.error, c2.error))
      else
        Proceed(c1.ret, c2.ret, Latest(c1.error, c2.error))
  }

  /**
   * As written, the callers return None exactly when a validated set is
   * empty (the second set only if the first one was not rejected), and in
   * that case no error is pending unless the first set had failed.
   */
  lemma AdmitAsWrittenReturnsNoneOnlyOnEmpty(x1: ArrayInfo, y1: ArrayInfo, z1: ArrayInfo,
                                             x2: ArrayInfo, y2: ArrayInfo, z2: ArrayInfo)
    ensures AdmitAsWritten(x1, y1, z1, x2, y2, z2).ReturnNone?
            <==> (WellShaped(x1, y1, z1) && x1.len == 0)
                 || (!(WellShaped(x1, y1, z1) && x1.len == 0) && WellShaped(x2, y2, z2) && x2.len == 0)
    ensures WellShaped(x1, y1, z1) && x1.len == 0
            ==> AdmitAsWritten(x1, y1, z1, x2, y2, z2) == ReturnNone(None)
    ensures WellShaped(x1, y1, z1) && x1.len > 0 && WellShaped(x2, y2, z2) && x2.len == 0
            ==> AdmitAsWritten(x1, y1, z1, x2, y2, z2) == ReturnNone(None)
  {
  }

  /**
   * A rejected first set does not stop the call: the validator's
   * EXIT_FAILURE passes the `== 0` test and is handed on as the length 1,
   * with the module error still set.
   */
  lemma FailedValidationIsTakenAsLengthOne(x1: ArrayInfo, y1: ArrayInfo, z1: ArrayInfo,
                                           x2: ArrayInfo, y2: ArrayInfo, z2: ArrayInfo)
    requires !WellShaped(x1, y1, z1)
    requires !(WellShaped(x2, y2, z2) && x2.len == 0)
    ensures AdmitAsWritten(x1, y1, z1, x2, y2, z2).Proceed?
    ensures AdmitAsWritten(x1, y1, z1, x2, y2, z2).nd1 == 1
    ensures AdmitAsWritten(x1, y1, z1, x2, y2, z2).pendingError.Some?
  {
  }

  /**
   * By its return value alone, a failure cannot be told apart from a
   * well-shaped set of one element.
   */
  lemma FailureCollidesWithLengthOne()
    ensures CheckDimsAndDatatype(ArrayInfo(1, NpyDouble, 1), ArrayInfo(1, NpyDouble, 1), ArrayInfo(1, NpyDouble, 1)).ret
         == CheckDimsAndDatatype(ArrayInfo(2, NpyDouble, 1), ArrayInfo(1, NpyDouble, 1), ArrayInfo(1, NpyDouble, 1)).ret
    ensures CheckDimsAndDatatype(ArrayInfo(1, NpyDouble, 1), ArrayInfo(1, NpyDouble, 1), ArrayInfo(1, NpyDouble, 1)).error.None?
    ensures CheckDimsAndDatatype(ArrayInfo(2, NpyDouble, 1), ArrayInfo(1, NpyDouble, 1), ArrayInfo(1, NpyDouble, 1)).error.Some?
  {
  }

  /** The theta caller validates (ra, dec, ra): the third slot repeats the first. */
  lemma ThetaCheckCoversTwoArrays(ra: ArrayInfo, dec: ArrayInfo)
    ensures CheckDimsAndDatatype(ra, dec, ra).error.None?
            <==> ra.ndim == 1 && dec.ndim == 1 && IsFloatType(ra.typeNum) && IsFloatType(dec.typeNum)
                 && ra.len == dec.len
  {
  }

  /**
   * The validator with a failure value that cannot collide with a length:
   * the same checks in the same order, reported as a Result.
   */
  function Validate(x: ArrayInfo, y: ArrayInfo, z: ArrayInfo): (r: Result<nat, ShapeError>)
    ensures r.Success? <==> WellShaped(x, y, z)
    ensures r.Success? ==> r.value == x.len == y.len == z.len
    ensures r.Failure? ==> CheckDimsAndDatatype(x, y, z).error == Some(r.error)
  {
    var c := CheckDimsAndDatatype(x, y, z);
    if c.error.Some? then Failure(c.error.value) else Success(x.len)
  }

  /**
   * The callers as evidently intended ("error has already been set ->
   * simply return"): stop at the first rejected set with its error set, and
   * accept empty sets like any other.
   */
  function Admit(x1: ArrayInfo, y1: ArrayInfo, z1: ArrayInfo,
                 x2: ArrayInfo, y2: ArrayInfo, z2: ArrayInfo): (a: Admission)
    ensures a.Proceed? <==> WellShaped(x1, y1, z1) && WellShaped(x2, y2, z2)
    ensures a.Proceed? ==> a.nd1 == x1.len && a.nd2 == x2.len && a.pendingError.None?
    ensures a.ReturnNone? ==> a.pendingError.Some?
    ensures !WellShaped(x1, y1, z1) ==> a.pendingError == CheckDimsAndDatatype(x1, y1, z1).error
    ensures WellShaped(x1, y1, z1) && !WellShaped(x2, y2, z2)
            ==> a == ReturnNone(CheckDimsAndDatatype(x2, y2, z2).error)
  {
    match Validate(x1, y1, z1)
    case Failure(e1) => ReturnNone(Some(e1))
    case Success(n1) =>
      match Validate(x2, y2, z2)
      case Failure(e2) => ReturnNone(Some(e2))
      case Success(n2) => Proceed(n1, n2, None)
  }

  /** The corrected callers agree with the written ones whenever both sets are well-shaped and non-empty. */
  lemma AdmitAgreesOnNonEmptyInput(x1: ArrayInfo, y1: ArrayInfo, z1: ArrayInfo,
                                   x2: ArrayInfo, y2: ArrayInfo, z2: ArrayInfo)
    requires WellShaped(x1, y1, z1) && WellShaped(x2, y2, z2)
    requires x1.len > 0 && x2.len > 0
    ensures Admit(x1, y1, z1, x2, y2, z2) == AdmitAsWritten(x1, y1, z1, x2, y2, z2)
  {
  }
}
