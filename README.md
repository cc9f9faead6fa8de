# Ternary Cahn–Hilliard step engine — a Dafny model

This project models the numerical core of a ternary Cahn–Hilliard phase-separation simulation and proves its algebraic properties.
Three concentration fields c1, c2 and c3 = 1 − c1 − c2 live on a periodic N×N (or N×N×N) grid.
Each explicit time step moves them along the Laplacians of their chemical potentials.
A source field A transfers material from c3 into c2.

The model covers four parts.

* **The periodic discrete Laplacians** of `src/physics.py`:
  * the 5-point stencil `laplacian_2D` and the 7-point stencil `laplacian_3D`, as methods that fill a fresh `array2`/`array3` cell by cell. They are proved equal to the grid functions `Lap2`/`Lap3`;
  * the `np.roll` form `laplacian`, as a function on nested sequences, proved equal to the 5-point stencil with dx = 1.
* **The chemical potential and the step** (`chem_potential`, `CH_step`), as functions on flat row-major fields (`seq<real>`).
  * The Laplacian argument is a choice among the three operators (`Stepper.LapOp`), each applied with its default dx = 1.
* **The animation script's inlined step** (`src/attempt.py`), as a class `Attempt.Simulation`.
  * The class holds the two fields that `update` advances in place, `save_every` times per frame.
  * It is proved equal to `save_every` applications of `CH_step` with the roll Laplacian and A = 0.01·c3.
* **The frame ordering of the video script** (`src/video_script.py`): `extract_number`, the ".png" filter and the stable sort by frame number.

Floating-point numbers are modelled as exact `real`s. Every conservation and "adds up to 1" statement below therefore holds exactly in the model, and only up to rounding in the program.

Files:

* `fields.dfy` — flat fields, elementwise arithmetic, totals.
* `periodic.dfy` — wrapped neighbour indices.
* `grids.dfy` — nested grids and their row-major flattening.
* `laplacians.dfy` — the stencils, the roll form, the array methods and the `N = u.shape` finding.
* `stepper.dfy` — the chemical potential and `CH_step`.
* `attempt.dfy` — the script's mutable simulation.
* `frame_files.dfy` — the frame ordering.

## Model

| member | source | states |
|---|---|---|
| Periodic.Next | src/physics.py:23-24 | the "+1" neighbour `(i+1)%N` lies in [0, N); it is 0 for the last cell and i+1 otherwise, with no special-cased edge |
| Periodic.Prev | src/physics.py:23-24 | the "−1" neighbour `(i-1)%N` lies in [0, N); it is N−1 at cell 0 and i−1 otherwise (Python's floored `%` agrees with Dafny's for N > 0) |
| Periodic.NextPrevInverse | src/physics.py:59-61 | the "+1" and "−1" neighbours undo each other, so each wrapped shift is a permutation of the cells |
| Periodic.SumRotNext | src/physics.py:23-24 | reading a row through its "+1" neighbours keeps its total |
| Periodic.SumRotPrev | src/physics.py:23-24 | reading a row through its "−1" neighbours keeps its total |
| Laplacians.Lap2 | src/physics.py:20-27 | the 5-point periodic Laplacian over h2 = dx², cell (i, j) given by the stencil; the result is again N×N |
| Laplacians.Lap3 | src/physics.py:55-62 | the 7-point periodic Laplacian over h2 = dx²; the result is again N×N×N |
| Laplacians.Lap2OfConstant | src/physics.py:22-27 | the 2D Laplacian of a spatially constant field is exactly 0 in every cell |
| Laplacians.Lap3OfConstant | src/physics.py:58-62 | the 3D Laplacian of a spatially constant field is exactly 0 in every cell |
| Laplacians.StencilRow2Sum | src/physics.py:22-26 | along a row, the j-shifts cancel: the row total of the stencil is the 1D stencil of the row totals |
| Laplacians.Lap2SumZero | src/physics.py:20-27 | the cells of the 2D Laplacian of any field add up to 0 |
| Laplacians.Lap3LineSum | src/physics.py:55-62 | the total of a k-line of the 3D Laplacian is the 2D Laplacian of the line totals at (i, j) |
| Laplacians.Lap3SumZero | src/physics.py:55-62 | the cells of the 3D Laplacian of any field add up to 0 |
| Laplacians.RollLaplacian | src/physics.py:31-36 | the sum of four `np.roll` copies minus 4u has the shape of u |
| Laplacians.RollCellIsStencil | src/physics.py:31-36 | in each cell the roll form equals the 5-point stencil with dx = 1, because `np.roll(u, 1, axis=0)[i, j] = u[(i-1)%N, j]` |
| Laplacians.RollLaplacianIsStencil | src/physics.py:31-36 | on a square grid the roll form equals `laplacian_2D(u, 1.0)` as a whole grid |
| Laplacians.PowNonzero | src/physics.py:27 | a nonzero spacing has a nonzero `dx**2`, so the division is defined |
| Laplacians.Laplacian2D | src/physics.py:4-29 | with N = `u.shape[0]`, the nested loops return a fresh N×N array whose contents are exactly `Lap2(u, N, dx**2)` |
| Laplacians.FillLine3 | src/physics.py:57-62 | the innermost k-loop writes the Laplacian into cells (i, j, 0..N−1) and leaves every other cell of `lap` unchanged |
| Laplacians.Laplacian3D | src/physics.py:38-64 | the triple loop returns a fresh N×N×N array whose contents are exactly `Lap3(u, N, dx**2)` |
| Laplacians.RangeLength | src/physics.py:20-21 | `range(v)` runs for an int and fails for a tuple (numba cannot type it; plain Python raises TypeError) |
| Laplacians.Laplacian2DWith | src/physics.py:17-29 | with N bound to the shape tuple the routine fails at `range(N)`; with N = `shape[0]` it returns the 2D Laplacian |
| Laplacians.Laplacian2DAsWritten | src/physics.py:17-21 | as written (`N = u.shape`), every call fails at `range(N)` and returns no Laplacian |
| Laplacians.ShapeTupleBreaksLaplacian2D | src/physics.py:17-21 | on the 4×4 zero grid, the code as written fails, while `N = shape[0]` returns the all-zero Laplacian |
| Stepper.Apply | src/physics.py:107-111 | `lap(x)` on a flat field, for any of the three operators, keeps the number of cells |
| Stepper.ApplyRollIsStencil | src/attempt.py:7-12 | the script's roll Laplacian is the same operator as the 5-point stencil with dx = 1 |
| Stepper.ApplySumZero | src/physics.py:20-36 | every operator yields a field of total 0, whatever the field |
| Stepper.ApplyOfConstant | src/physics.py:22-27 | every operator maps a constant field to the zero field |
| Stepper.ChemPotential | src/physics.py:66-79 | `2c(1−c)(1−2c) − gamma·lap(c)` cell by cell; the result has the field's size |
| Stepper.ChemPotentialSum | src/physics.py:79 | the gradient term has total 0, so the potential totals the same as its double-well part |
| Stepper.ChemPotentialOfConstant | src/physics.py:79 | on a constant field v the potential is the constant `2v(1−v)(1−2v)` |
| Stepper.Third | src/physics.py:105 | `1 − c1 − c2` has the size of c1 |
| Stepper.ThirdFills | src/physics.py:105 | c1 + c2 + (1 − c1 − c2) = 1 in every cell |
| Stepper.PotentialLaplacians | src/physics.py:105-109 | lap(mu1), lap(mu2) and lap(mu3), for c3 = 1 − c1 − c2, each have total 0 |
| Stepper.CoupledSum | src/physics.py:111-112 | the (2, −1, −1) coupling has total 2Σa − Σb − Σc |
| Stepper.EulerSum | src/physics.py:111-112 | an update c + dt·d adds the total of dt·d |
| Stepper.EulerOfZero | src/physics.py:111-112 | an update by an all-zero increment leaves the field unchanged |
| Stepper.CHStep | src/physics.py:84-116 | the new c1 and c2 have the size of the input, and the new c3 is `1 − c1_new − c2_new` |
| Stepper.StepPartition | src/physics.py:114 | after a step c1 + c2 + c3 = 1 in every cell, for any inputs and any A |
| Stepper.ZeroStepIsIdentity | src/physics.py:105-116 | with dt = 0 the step returns c1 and c2 unchanged and c3 = 1 − c1 − c2 |
| Stepper.StepMass | src/physics.py:105-116 | a step keeps Σc1; Σc2 gains the total of dt·A and Σc3 loses it |
| Stepper.StepSourceTotal | src/physics.py:112 | Σc2_new − Σc2 = dt·ΣA |
| Stepper.ThirdSum | src/physics.py:105 | Σc3 = cells − Σc1 − Σc2 |
| Stepper.LapPotentialOfUniform | src/physics.py:107-111 | the Laplacian of the potential of a uniform field is 0 in every cell |
| Stepper.UniformFixedPoint | src/physics.py:105-116 | with A = 0 every spatially uniform state, c1 = c2 = 1/3 among them, is a fixed point of the step |
| Attempt.AttemptStep | src/attempt.py:47-55 | one inner iteration is `CH_step` with A = 0.01·c3 (c3 at the start of the iteration); sizes are kept and c3 is re-derived |
| Attempt.Run | src/attempt.py:45-55 | k inner iterations; sizes are kept and c3 = 1 − c1 − c2 |
| Attempt.AttemptStepMass | src/attempt.py:54-55 | each iteration keeps Σc1 and raises Σc2 by the total of dt·0.01·c3, lowering Σc3 by as much |
| Attempt.IterationIsAttemptStep | src/attempt.py:47-55 | the script's order (c3, the three potentials from the iteration-start fields, then `c1 +=`, `c2 +=`) computes exactly `CH_step`'s c1_new and c2_new |
| Attempt.RunConservesC1 | src/attempt.py:54 | any number of iterations keeps Σc1 |
| Attempt.TotalFrames | src/attempt.py:62 | `steps // save_every` is the largest frame count r with r·save_every ≤ steps |
| Attempt.Simulation.constructor | src/attempt.py:29-33 | the state holds the initial fields, the parameters and the roll Laplacian on the N×N grid |
| Attempt.Simulation.Iterate | src/attempt.py:47-55 | one pass of the loop body replaces (c1, c2) by the `AttemptStep` of the old fields |
| Attempt.Simulation.Update | src/attempt.py:43-59 | `update` performs exactly save_every iterations, with the fields ending at `Run(old fields, save_every)`; the returned c3 gives c1 + c2 + c3 = 1 in every cell; the time is frame_idx·save_every·dt |
| FrameFiles.FindMatch | src/video_script.py:18 | the leftmost position where "frame_" followed by a digit starts, and no match before it |
| FrameFiles.DigitRun | src/video_script.py:18 | the greedy `\d+`: a run of digits that is not followed by another digit |
| FrameFiles.ExtractNumber | src/video_script.py:17-19 | the result is never below −1 |
| FrameFiles.ExtractNumberMissing | src/video_script.py:18-19 | the result is −1 exactly when no position starts "frame_" followed by a digit |
| FrameFiles.FrameNameNumber | src/video_script.py:18-19 | for a name prefix + "frame_" + digits + suffix, with no earlier match and a suffix that does not extend the digits, the result is the value of those digits |
| FrameFiles.DecimalValue | src/video_script.py:19 | `int()` of the decimal digits of n is n |
| FrameFiles.FrameNumberOfName | src/video_script.py:17-19 | "…frame_<n>.png" is keyed by n |
| FrameFiles.PngFiles | src/video_script.py:22 | only names ending in ".png" are kept |
| FrameFiles.PngFilesCount | src/video_script.py:22 | every ".png" name is kept as often as the listing holds it, and nothing else is |
| FrameFiles.PngFilesAppend | src/video_script.py:22 | the filter keeps the listing order |
| FrameFiles.Insert | src/video_script.py:21-24 | inserting into a key-sorted list adds exactly that name and keeps it sorted |
| FrameFiles.SortByKey | src/video_script.py:21-24 | `sorted(..., key=...)`: a permutation of the input in non-decreasing key order |
| FrameFiles.InsertWithKey | src/video_script.py:21-24 | an inserted name goes ahead of the names that share its key |
| FrameFiles.SortByKeyStable | src/video_script.py:21-24 | for every key, the names with that key come out in their input order |
| FrameFiles.FrameOrder | src/video_script.py:21-24 | the frame list is sorted by `extract_number` and is a permutation of the ".png" names of the listing |
| FrameFiles.FrameOrderStable | src/video_script.py:21-24 | ".png" names with the same key (e.g. all names without "frame_", key −1) keep their listing order |

## Left out

- IEEE-754 float64 rounding: all arithmetic is exact `real`, so "sum = 1" and the conservation laws hold exactly here and only approximately in the program.
- `source_term` (src/physics.py:81-82) and `W` (src/attempt.py:14-15) use `np.exp`. The source of `CH_step` is an arbitrary field `a`. A scalar A corresponds to the constant field `Const(cells, A)`.
- The random Dirichlet initial fields (src/attempt.py:28-31) are library randomness. The constructor takes the initial fields as arguments.
- `compute_rgb`, the matplotlib figure, the displayed text and `FuncAnimation`/`ani.save` (src/attempt.py:17-26, 35-41, 57-58, 64-65) are rendering and I/O. `Update` returns the frame's c3 and time instead of drawing them.
- In `update`, `t` (src/attempt.py:46) is assigned and never read. It equals the returned time, which is also the same for every inner iteration.
- `os.listdir`, `imageio` reading and writing, and the `np.logspace` repeat schedule of `frames_to_video` (src/video_script.py:26-35) are I/O and float numerics. The listing is a parameter.
- numba `@njit` compilation is not modelled; the model is sequential.
- Laplacians.Laplacian2DWith: the failure outcome `RangeFailed` stands for both numba's typing error at compile time (the decorated function in src/physics.py:4) and the TypeError that `range` raises in plain Python. The model does not tell the two exception classes apart.
- Attempt.Simulation.Iterate: the numpy `+=` writes into the existing arrays. The model reassigns the field sequences, so aliasing of the arrays is not captured.
- Attempt.Run: the Laplacian is a parameter. Only the constructor fixes it to the roll form on the N×N grid, as in the script.
- Stepper.Apply: `CH_step` calls `lap(c)` with its default dx = 1. Other spacings are modelled only for the array methods (`Laplacians.Laplacian2D`/`Laplacian3D`), which require dx ≠ 0.
- Laplacians.Laplacian2D: requires dx ≠ 0. At dx = 0 the source divides by `dx**2` = 0 (src/physics.py:27) and raises ZeroDivisionError under numba's default Python error model; that error path is not modelled.
- Laplacians.Laplacian3D: requires dx ≠ 0. At dx = 0 the division at src/physics.py:62 raises ZeroDivisionError in the same way; that error path is not modelled.
- Attempt.AttemptStepMass: the gain of Σc2 is stated as the total of the field dt·(0.01·c3). `Fields.SumScale` turns that total into dt·0.01·Σc3, but the product form is not stated as a separate ensures.
- FrameFiles.ExtractNumber: `\d` and `int()` also accept non-ASCII Unicode digits. The model reads ASCII '0'–'9' only, which covers the names the program writes.
- FrameFiles.SortByKey: the sort is an insertion sort. Timsort is not modelled, only the result that Python's sort guarantees: ordered by key, a permutation, and stable.
- src/main_2D.py and src/main_3D.py are not part of this model; they are driver scripts around `CH_step`.

## Findings

| source | as written | input that shows it | evidently intended | confidence | as-written member | corrected member |
|---|---|---|---|---|---|---|
| src/physics.py:17 | `N = u.shape` binds N to the shape tuple, so `range(N)` at line 20 cannot be typed by numba under `@njit` (a typing error on the first call; without `@njit`, `range` raises TypeError) and `laplacian_2D` can never return | any square grid, e.g. the 4×4 zero grid | `N = u.shape[0]`, as `laplacian_3D` does at src/physics.py:52 | high, not executed | Laplacians.Laplacian2DAsWritten (exhibited by Laplacians.ShapeTupleBreaksLaplacian2D) | Laplacians.Laplacian2D |
