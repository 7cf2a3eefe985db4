# Corrfunc mock-catalogue bindings and the `vpf` wrapper, modelled in Dafny

This project models the boundary logic around Corrfunc's clustering engines:

- **`xi_mocks/python_bindings/_countpairs_mocks.c`** — the Python extension for mock catalogues.
  - `check_dims_and_datatype` validates the (ra, dec, cz) arrays of a point set. It returns their common length, or `EXIT_FAILURE` after setting the module error.
  - The three entry points (rp–pi, theta, VPF) each validate two point sets and compare the result with 0.
  - Each entry point then lays the engine's result structure out as a Python list:
    - rp–pi: `(rlow, rhigh, rpavg, pi_upper, npairs)` per (radial bin, pi bin);
    - theta: `(theta_low, theta_high, theta_avg, npairs)` per angular bin;
    - VPF: `[r, p0, …, p(num_pN-1)]` per shell.
- **`Corrfunc/theory/vpf.py`** — the Python wrapper `vpf`, which:
  - computes the particle volume;
  - raises `ValueError` when the spheres would need more volume than that;
  - raises `RuntimeError` when the first value the extension returns is `None` (a bare `None` answer fails earlier, with `TypeError`, when it is unpacked);
  - reshapes the extension's rows into a numpy results table;
  - returns the table, or the table with the C-side timing.

The engines (`countpairs_mocks`, `countpairs_theta_mocks`, `countspheres_mocks` and the theory VPF extension) are not part of this model. Their result structures are inputs: `RpPiResults`, `ThetaResults`, `VpfResults`, and the extension's answer (`ExtnPair`, or None for a bare `None`). Floating-point values are `real`s.

Files:
- `wrappers.dfy`: `Option` and `Result`.
- `mocks_validation.dfy` (module `MocksValidation`): the validator, the callers' test as written, and the corrected pair.
- `mocks_output.dfy` (module `MocksOutput`): the three list builders. These are methods with the source's nested loops and its running `rlow` edge.
- `theory_vpf.dfy` (module `TheoryVpf`): the `vpf` wrapper. The reshape updates a zero-filled array in place, as numpy does.

## Model

| member | source | states |
|---|---|---|
| `MocksValidation.CheckDimsAndDatatype` | xi_mocks/python_bindings/_countpairs_mocks.c:407-460 | No error is set exactly when all three arrays are 1-D, float32 or float64, and of one length; the result is then that length. Otherwise it returns EXIT_FAILURE (1), and the error says which check failed first, in the order: dimensions, element type, lengths. |
| `MocksValidation.FailureCollidesWithLengthOne` | xi_mocks/python_bindings/_countpairs_mocks.c:453-459 | A rejected set and a well-shaped set of one element return the same value (1). |
| `MocksValidation.AdmitAsWritten` | xi_mocks/python_bindings/_countpairs_mocks.c:497-507 | The callers' `== 0` test as written (also at 633-643 and 757-767). When a call goes on, both lengths handed to the engine are at least 1: a well-shaped set passes its length, a rejected one passes EXIT_FAILURE (1). A None return has an error set exactly when the first set was rejected. A call that goes on has an error pending exactly when either set was rejected: the second set's error when it was rejected, otherwise the first set's. `AdmitAsWrittenReturnsNoneOnlyOnEmpty` and `FailedValidationIsTakenAsLengthOne` describe it further. |
| `MocksValidation.AdmitAsWrittenReturnsNoneOnlyOnEmpty` | xi_mocks/python_bindings/_countpairs_mocks.c:497-507 | As written, a caller returns None exactly when a validated set is empty. An empty, well-shaped first set returns None with no error set. So does an empty, well-shaped second set after a well-shaped, non-empty first set. The VPF caller at 757-767 is the same code. |
| `MocksValidation.FailedValidationIsTakenAsLengthOne` | xi_mocks/python_bindings/_countpairs_mocks.c:497-507 | A rejected first set passes the `== 0` test and goes on as length 1 with the module error still set, unless the second set is well-shaped and empty. A rejected second set, even one with no elements, does not stop the call, because its validator returns EXIT_FAILURE (1). |
| `MocksValidation.ThetaCheckCoversTwoArrays` | xi_mocks/python_bindings/_countpairs_mocks.c:633-643 | The theta caller validates (ra, dec, ra), which succeeds exactly when ra and dec are 1-D floating arrays of equal length. |
| `MocksValidation.Validate` | xi_mocks/python_bindings/_countpairs_mocks.c:407-460 | Corrected validator: it succeeds exactly when the set is well-shaped, returning the length. A failure carries the same error the original sets. |
| `MocksValidation.Admit` | xi_mocks/python_bindings/_countpairs_mocks.c:497-507 | Corrected callers: they proceed exactly when both sets are well-shaped, passing both lengths (zero included) with no pending error. A refusal always has its error set: the first set's validator error when the first set is rejected, otherwise the second set's. |
| `MocksValidation.AdmitAgreesOnNonEmptyInput` | xi_mocks/python_bindings/_countpairs_mocks.c:497-507 | On well-shaped, non-empty sets the corrected callers behave exactly as the written ones. |
| `MocksOutput.BuildRpPiList` | xi_mocks/python_bindings/_countpairs_mocks.c:578-597 | The list has (nbin-1)*npibin records. For every radial bin i in 1..nbin-1 and pi bin j in 0..npibin-1, position (i-1)*npibin+j holds (rupp[i-1], rupp[i], rpavg[c], (j+1)*pimax/npibin, npairs[c]) with c = i*(npibin+1)+j. |
| `MocksOutput.AppendPiBins` | xi_mocks/python_bindings/_countpairs_mocks.c:584-595 | The inner loop appends the npibin records of radial bin i, so the list grows from (i-1)*npibin to i*npibin records. Each new record at position (i-1)*npibin+j carries the values of cell c = i*(npibin+1)+j, and the records of earlier radial bins are kept unchanged. |
| `MocksOutput.CellInBounds` | xi_mocks/python_bindings/_countpairs_mocks.c:583-585 | Every cell read satisfies npibin+1 <= c < nbin*(npibin+1), with c / (npibin+1) == i and c % (npibin+1) == j. So row 0 and column npibin are never emitted. |
| `MocksOutput.PositionIsRowMajor` | xi_mocks/python_bindings/_countpairs_mocks.c:583-584 | The position of (i, j) divides back into (i-1, j), so no two bins share a record. |
| `MocksOutput.PositionAscending` | xi_mocks/python_bindings/_countpairs_mocks.c:583-584 | Records come in ascending lexicographic (radial bin, pi bin) order. |
| `MocksOutput.EveryPositionIsEmitted` | xi_mocks/python_bindings/_countpairs_mocks.c:583-597 | Every position of the list is the position of some (i, j) in range, so the list holds nothing else. |
| `MocksOutput.PiUpperEdges` | xi_mocks/python_bindings/_countpairs_mocks.c:581-589 | pi_upper * npibin == (j+1) * pimax, and the last pi bin's upper edge is pimax. |
| `MocksOutput.BuildThetaList` | xi_mocks/python_bindings/_countpairs_mocks.c:701-716 | The list has nbin-1 records; record i-1 is (theta_upp[i-1], theta_upp[i], theta_avg[i], npairs[i]). Each record's upper edge is the next record's lower edge. |
| `MocksOutput.BuildVpfList` | xi_mocks/python_bindings/_countpairs_mocks.c:837-857 | One row per shell of the results. Row ibin has 1+num_pN entries: its shell radius, then pN[ibin][0..num_pN-1]. |
| `MocksOutput.ShellRadius` | xi_mocks/python_bindings/_countpairs_mocks.c:839-841 | The radius r of shell b satisfies r * nbin == (b+1) * rmax. |
| `MocksOutput.ShellRadiiAscend` | xi_mocks/python_bindings/_countpairs_mocks.c:839-841 | For rmax > 0, the shell radii are positive and strictly ascending. |
| `MocksOutput.LastShellIsRmax` | xi_mocks/python_bindings/_countpairs_mocks.c:839-841 | The last of nbin shells has radius rmax. |
| `TheoryVpf.SeqMax` | Corrfunc/theory/vpf.py:151-153 | `max()` of a non-empty array is an element and bounds every element from above. |
| `TheoryVpf.SeqMin` | Corrfunc/theory/vpf.py:151-153 | `min()` of a non-empty array is an element and bounds every element from below. |
| `TheoryVpf.Extent` | Corrfunc/theory/vpf.py:151-153 | max - min is non-negative, bounds every difference of two coordinates, and is attained. |
| `TheoryVpf.ParticleVolume` | Corrfunc/theory/vpf.py:148-153 | The volume is boxsize cubed when boxsize > 0. Otherwise it is the product of the X, Y and Z extents, and it fails (ValueError from max/min) exactly when one of the arrays is empty. It is never negative. |
| `TheoryVpf.BoundingBoxVolume` | Corrfunc/theory/vpf.py:151-153 | The product of the X, Y and Z extents (max - min) is never negative. |
| `TheoryVpf.SphereVolume` | Corrfunc/theory/vpf.py:155 | The sphere volume 4/3 * pi * rmax^3 has the sign of rmax: positive for rmax > 0, zero for rmax = 0, negative for rmax < 0. |
| `TheoryVpf.CheckBeforeExtension` | Corrfunc/theory/vpf.py:148-162 | A ValueError for too many spheres is raised exactly when nspheres * 4/3 * pi * rmax^3 exceeds the particle volume. The check passes exactly when the volume is defined and not exceeded. |
| `TheoryVpf.ReshapeAsWritten` | Corrfunc/theory/vpf.py:183-192 | The table has one row per extension row, and row ii's rmax is extn[ii][0]. For num_pN > 1, pN[j] = extn[ii][1+j]. For num_pN == 1, every row's pN is the last extension row's p0. |
| `TheoryVpf.FillRow` | Corrfunc/theory/vpf.py:190-192 | The inner loop sets row ii's pN to r[1..1+num_pN] and leaves its rmax and every other row unchanged. |
| `TheoryVpf.BroadcastPN` | Corrfunc/theory/vpf.py:189 | Assigning r[1] to the whole pN column of a one-wide table sets every row's pN to [r[1]] and leaves every rmax unchanged. |
| `TheoryVpf.Reshape` | Corrfunc/theory/vpf.py:183-192 | Corrected reshape: row ii is (extn[ii][0], extn[ii][1..1+num_pN]) for every num_pN >= 1. |
| `TheoryVpf.ReshapedAsIntendedIsUnique` | Corrfunc/theory/vpf.py:183-192 | The intended table is determined by the extension's rows. |
| `TheoryVpf.AsWrittenIsIntendedUnlessSinglePN` | Corrfunc/theory/vpf.py:190-192 | For num_pN != 1 the written loop builds the intended table. |
| `TheoryVpf.SinglePNIsIntendedOnlyIfConstant` | Corrfunc/theory/vpf.py:188-189 | For num_pN == 1 the written loop is correct exactly when every extension row has the last row's p0. |
| `TheoryVpf.BroadcastCounterexample` | Corrfunc/theory/vpf.py:188-189 | For rows [[1.0, 0.5], [2.0, 0.25]] and num_pN == 1, row 0 gets p0 = 0.25 instead of 0.5. |
| `TheoryVpf.Vpf` | Corrfunc/theory/vpf.py:148-197 | The extension is reached exactly when the volume check passes; otherwise its error is returned. A bare None answer gives TypeError at the unpack, and a pair whose first value is None gives RuntimeError. Otherwise the result is the intended table: on its own when c_api_timer is false, with the extension's api_time when it is true. |

## Findings

| source | as written | input that shows it | evidently intended | confidence | as-written member | corrected member |
|---|---|---|---|---|---|---|
| xi_mocks/python_bindings/_countpairs_mocks.c:497-507 | The callers treat only a return of 0 as failure, but `check_dims_and_datatype` returns EXIT_FAILURE (1) on failure. The same test is at 633-643 and 757-767. | A first set whose x array is 2-D: the validator sets the error and returns 1, and the caller goes on with ND1 = 1. Three well-shaped empty arrays: the caller returns None with no error set. | Return as soon as the validator reports a failure ("error has already been set"), and accept any length, including 0. | high (not executed) | `MocksValidation.FailedValidationIsTakenAsLengthOne` | `MocksValidation.Admit` |
| Corrfunc/theory/vpf.py:188-189 | For num_pN == 1, `results['pN'] = r[1]` assigns to the whole pN column on every iteration. | Extension rows [[1.0, 0.5], [2.0, 0.25]] with num_pN = 1 give a table whose row 0 has p0 = 0.25. | `results['pN'][ii] = r[1]`, so that each row keeps its own p0. | high (not executed) | `TheoryVpf.BroadcastCounterexample` | `TheoryVpf.Reshape` |

`TheoryVpf.Vpf` uses the corrected reshape. `MocksValidation.Admit` is the corrected admission. `MocksValidation.AdmitAsWritten` and `TheoryVpf.ReshapeAsWritten` keep the code as written.

## Left out

- Python/numpy C-API plumbing is not modelled: argument parsing, `PyArray_FromArray` conversion, reference counting, and the failure of list or tuple construction.
- Module state, module initialisation and the docstrings are not modelled. The module error is modelled only as the optional `ShapeError` an operation leaves set.
- The message of the type-check error is not modelled, including the variant printed when the dtype descriptor lookup fails. Only which check failed, and the offending values, are kept.
- The conversion check in the theta entry point tests only the first set's arrays (`_countpairs_mocks.c:656`). This belongs to the conversion plumbing and is not modelled.
- The engines `countpairs_mocks`, `countpairs_theta_mocks` and `countspheres_mocks` are not part of this model. Their results are inputs.
  - `WellFormed` states the array sizes those structures have: nbin upper edges and nbin*(npibin+1) cells for rp–pi; nbin entries for theta; at least num_pN probabilities per shell for VPF.
  - nbin >= 1 is assumed for rp–pi and theta, because the builders read `rupp[0]` and `theta_upp[0]` unconditionally.
- Thread release around the engine calls (`NPY_BEGIN_THREADS`) and the `nthreads` argument are not modelled.
- Floating-point arithmetic is modelled with reals:
  - The float/double (`DOUBLE_PREC`) distinction and the rounding of `pimax/npibin`, `rmax/nbin` and `4/3*pi*rmax^3` are not modelled.
  - `MocksOutput.RealDiv` gives 0.0 for a zero divisor where C gives an infinity or NaN. This only matters for the VPF radius when `nbin == 0` while the engine reports shells, because `dpi` is never used when `npibin == 0`.
  - Python's `math.pi` is the decimal 3.141592653589793.
- C `int` overflow is not modelled. For a large enough histogram, `bin_index = i*(npibin+1)+j` would overflow a 32-bit `int`.
- The `#if 0` debug-print blocks are dead code and are not modelled.
- Several parts of `vpf.py` are not modelled:
  - the extension import and `translate_isa_string_to_enum`;
  - the arguments forwarded only to the extension (`nbins`, `seed`, `verbose`, `periodic`, `isa`);
  - the `__main__` demonstration;
  - the identity of the returned numpy array. `TheoryVpf.Reshape` returns its contents as a sequence of rows.
- The model follows the evident intent of the reshape at two points where the code fails as written:
  - `vpf.py:180` uses `np`, which is imported only under `__main__` (line 201), so `vpf` raises NameError when used as a library.
  - `vpf.py:191` uses `xrange`, which does not exist in Python 3.
- num_pN < 1 is excluded by `requires numPN >= 1`, as the docstring demands.
- An extension row shorter than 1 + num_pN is reported as `ShortRow` (Python's IndexError) before any reshaping. Python would raise it part-way through the loop, but the table is discarded either way.
- `Corrfunc/call_correlation_functions.py` is an example script (file reading, calls into the extension, printing) and is not part of this model.
