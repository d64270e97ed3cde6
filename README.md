# Fourier transformations and uncertainty, modelled in Dafny

`FourierCode2.0.py` is an interactive teaching program. It keeps seven display
parameters: a Gaussian centre `cen` and width `wid` in momentum space, a number of
component waves `num`, and the momentum and position plot ranges. A `go` command
calls `disp`, which does the following:

- samples the normalised Gaussian envelope `phi` on a momentum grid `k`;
- cuts out the window `k3`/`ph3` shown in a 3D view;
- picks `int(num)` evenly spaced frequencies and reads each one's amplitude off the envelope;
- adds the cosine components into the position-space waveform `tot`, in place;
- estimates the spreads `sigma_x` and `sigma_k` in both domains with rectangle-rule sums.

This project models two parts of the program.

**The synthesis engine of `disp`** is module `Synthesis`, in `synthesis.dfy`.
- The resolution constants `nstep`, `nstd3`, `nstdk` and `nstdx` are a `Config`. The program's own values are `Config.Source`.
- `cos`, `e**y` and `y**0.5` are the function fields of `Numerics.Math`. Only `Math.Valid()` constrains them: the exponential is positive and the square root is non-negative.
- The grid loop builds its lists by appending (`BuildGrids`).
- The component loop updates an `array<real>` in place (`SampleWave`, `AddWave`, `Components`).
- The two integral loops are accumulator loops (`Norms`, `Variances`).
- Every ZeroDivisionError the code can raise is an `Outcome.ZeroDivision` result of `Disp`:
  - `kwid == 0` at the envelope;
  - `int(num) == 1` at the frequency spacing;
  - a zero position norm at the variance, which is what `int(num) <= 0` leads to.

**The command interpreter of `main` and `reset`** is module `Repl`, in `repl.dfy`. It uses `Text`, in `text.dfy`, for `str.split` and `str.strip`.
- `Repl.Interpreter` is a class whose fields are `main`'s local variables.
- Its methods are the nested loops: lines, then `,`-pieces, then the `=`-dispatch. Each is proved against the functions `Exec`, `ExecAll` and `Session`. These say what a command, a line and a whole session do to the state, to the events shown and to the exception that ends the program.
- `float()` is a parameter `parse: string -> Option<real>`.
- The input lines are a parameter of `Run`.
- Printing is an `Event` appended to `out`.
- A `go` command is modelled as the emitted event `Display(params)`.
- The model records two of the exceptions that can end `main`, each as a `Failure`:
  - `pair[1]` on a field key without `=` (IndexError);
  - `input()` with no line left (EOFError).
- An exception raised inside `disp` during `go` also ends `main`, but the interpreter does not record it (see "Left out"): ZeroDivisionError for `sig=0` (line 47), `num=1` (line 63), `xhi=0` (line 111) or `num=0` (line 111), and OverflowError for `num=inf` (line 33).

## Model

| member | source | states |
|---|---|---|
| `Numerics.Trunc` | FourierCode2.0.py:33 | `int()` of a float truncates toward zero: the result is within one of its argument, on the argument's side of zero. |
| `Synthesis.BuildGrids` | FourierCode2.0.py:35-54 | `k`, `xp`, `xn` and `phi` each have nstep+1 entries. Entry i is the grid formula at i, `xn[i] == -xp[i]`, and `phi[i]` is the envelope at `k[i]`. `k3`/`ph3` are the entries whose index lies in [kmini, kmaxi]. |
| `Synthesis.MomentumGrid` | FourierCode2.0.py:37-41 | `k` is an arithmetic progression with step stepk. It runs from kcen-(nstdk/2)kwid to kcen+(nstdk/2)kwid, has kcen at index nstep/2 when nstep is even, and increases when kwid > 0. |
| `Synthesis.PositionGrid` | FourierCode2.0.py:38-44 | `xp` is an arithmetic progression with step stepx from 0 to nstdx*x2. It is non-negative when x2 > 0. |
| `Synthesis.PhiSymmetric` | FourierCode2.0.py:47 | The envelope is symmetric about the centre sample: `phi[i] == phi[nstep-i]`. |
| `Synthesis.Gauss` | FourierCode2.0.py:47 | The normalised Gaussian is never zero, and it is positive when kwid > 0. |
| `Synthesis.Phi` | FourierCode2.0.py:47 | No envelope sample is zero, and every sample is positive when kwid > 0. |
| `Synthesis.GaussPeak` | FourierCode2.0.py:47 | For kwid > 0 and a monotone exponential, the Gaussian is largest at its centre. |
| `Synthesis.PhiPeak` | FourierCode2.0.py:47 | For a monotone exponential and an even nstep, the centre sample is the largest. |
| `Synthesis.WindowRange` | FourierCode2.0.py:50-51 | 0 <= kmini <= nstep/2 <= kmaxi <= nstep. |
| `Synthesis.WindowBounds` | FourierCode2.0.py:50-52 | An index passes the window test exactly when it lies between the window's integer ends, and those ends lie within [0, nstep]. |
| `Synthesis.Select` | FourierCode2.0.py:52-54 | The window's selection from a list is no longer than the list, and every value it keeps is in the list. |
| `Synthesis.SelectAppend` | FourierCode2.0.py:52-54 | Appending sample i extends `k3`/`ph3` by it exactly when i lies in the window. |
| `Synthesis.SelectIsSlice` | FourierCode2.0.py:50-54 | `k3`/`ph3` are the contiguous slice of `k`/`phi` between the window's integer ends, in order. |
| `Synthesis.SourceWindow` | FourierCode2.0.py:50-54 | With the program's constants, kmini == 9000 and kmaxi == 11000, and the window keeps samples 9000..11000: 2001 entries. |
| `Synthesis.Frq` | FourierCode2.0.py:63 | The first frequency is kcen-nstd3*kwid and, for knum >= 2, the last (i = knum-1) is kcen+nstd3*kwid. |
| `Synthesis.FrqEvenlySpaced` | FourierCode2.0.py:63 | For knum >= 2, consecutive frequencies are one step of 2*nstd3*kwid/(knum-1) apart. |
| `Synthesis.SpacedPoint` | FourierCode2.0.py:64 | The i-th of knum evenly spaced points between two ends lies between them and meets them at i=0 and i=knum-1. |
| `Synthesis.AmpIndex` | FourierCode2.0.py:64 | For knum >= 2, every component's amplitude index lies between int(kmini) and int(kmaxi), so inside [0, nstep]. The first component reads the envelope at int(kmini), the last at int(kmaxi). |
| `Synthesis.CutLen` | FourierCode2.0.py:72 | The samples kept for the 3D plot are a prefix: j is kept exactly when j is below the cut length. |
| `Synthesis.SourceCut` | FourierCode2.0.py:72 | With the program's constants, the first 5002 samples are kept. |
| `Synthesis.SampleWave` | FourierCode2.0.py:69-74 | The inner loop adds amp*cos(frq*xp[j]) to every `tot[j]` in place. `x3`/`y3` are the kept prefix of `xp` and of the component's samples. |
| `Synthesis.AddWave` | FourierCode2.0.py:62-74 | One pass of the component loop adds the i-th component into `tot` and yields its frequency, amplitude and plotted samples. |
| `Synthesis.Superpose` | FourierCode2.0.py:71 | The sum of the first n components at a position. It is zero when the envelope is zero everywhere. |
| `Synthesis.Components` | FourierCode2.0.py:62-74 | knum == 1 divides by zero before `tot` changes. Otherwise there are max(knum, 0) components, and each `tot[j]` gains the sum over all components at xp[j]. |
| `Synthesis.Waveform` | FourierCode2.0.py:62-74 | `tot` starts as nstep+1 zeros, as line 48 builds it. knum == 1 divides by zero. Otherwise there are max(knum, 0) components and `tot` ends as the waveform `Total`. |
| `Synthesis.EndTerms` | FourierCode2.0.py:62-71 | With two components, the first is the cosine at kcen-nstd3*kwid with amplitude phi[int(kmini)], the second the cosine at kcen+nstd3*kwid with amplitude phi[int(kmaxi)]. |
| `Synthesis.TwoComponents` | FourierCode2.0.py:62-71 | With two components the total is the cosine at the lowest frequency plus the cosine at the highest. Their amplitudes are the envelope at int(kmini) and int(kmaxi), which are 9000 and 11000 with the program's constants. |
| `Synthesis.SumSqSign` | FourierCode2.0.py:105-106 | A sum of squares is non-negative and is zero exactly when every term is zero. |
| `Synthesis.NormSign` | FourierCode2.0.py:105-106 | A rectangle-rule norm has the sign of its weight, and is zero exactly when the weight is zero or every sample is. |
| `Synthesis.Norms` | FourierCode2.0.py:102-106 | The loop computes the two rectangle-rule norms, each non-negative when its step is positive. |
| `Synthesis.MomentumNormNonzero` | FourierCode2.0.py:106 | The momentum norm is never zero, and it is positive when kwid > 0. |
| `Synthesis.PositionNormZero` | FourierCode2.0.py:105 | The position norm is zero exactly when x2 == 0 or the waveform vanishes everywhere. It is always zero when knum <= 0. |
| `Synthesis.XWeights` | FourierCode2.0.py:111 | The x-moment weights 2*xp[i]^2 are non-negative. |
| `Synthesis.KWeights` | FourierCode2.0.py:112 | The k-moment weights (kcen-k[i])^2 are non-negative. |
| `Synthesis.WeightedNonneg` | FourierCode2.0.py:111-112 | A moment summand with a non-negative weight and a positive step-to-norm ratio is non-negative. |
| `Synthesis.MomentNonneg` | FourierCode2.0.py:111-112 | A second moment with non-negative weights and a positive step-to-norm ratio is non-negative. |
| `Synthesis.SpreadsNonneg` | FourierCode2.0.py:108-112 | When the norms are non-zero, both variances are non-negative. |
| `Synthesis.Variances` | FourierCode2.0.py:108-112 | The loop raises ZeroDivisionError exactly when a norm is zero. Otherwise it returns the two second moments, both non-negative. |
| `Synthesis.Finish` | FourierCode2.0.py:114-116 | The reported spreads are square roots: non-negative for non-negative variances and positive for positive ones. |
| `Synthesis.Spreads` | FourierCode2.0.py:102-116 | The integral loops fail with ZeroDivisionError exactly when the position norm is zero. Otherwise both norms are non-zero and the spreads are the square roots of the two second moments, all non-negative. |
| `Synthesis.Synthesize` | FourierCode2.0.py:33-116 | For kwid != 0, everything `disp` computes, with ZeroDivisionError exactly when int(num) == 1 or the position norm is zero. |
| `Synthesis.Disp` | FourierCode2.0.py:33-116 | ZeroDivisionError exactly when kwid == 0, int(num) == 1 or the position norm is zero. Otherwise the grids, the window, one wave per component, `tot` as the superposition, and the spreads from the two moments, all non-negative. |
| `Text.Split` | FourierCode2.0.py:176 | `split` gives at least one piece, and no piece holds the separator. |
| `Text.JoinSplit` | FourierCode2.0.py:176 | Joining the pieces with the separator gives back the line. |
| `Text.SplitJoin` | FourierCode2.0.py:176 | Splitting a join of separator-free pieces gives back the pieces. |
| `Text.SplitPrefix` | FourierCode2.0.py:182 | Splitting `a + "=" + b` puts a in front of b's pieces, so the key is what precedes the first `=`. |
| `Text.SplitCount` | FourierCode2.0.py:182 | A piece splits into exactly one part exactly when it holds no separator. |
| `Text.Lead` | FourierCode2.0.py:178 | The count of leading whitespace characters, which `strip` removes. |
| `Text.Trail` | FourierCode2.0.py:178 | The count of trailing whitespace characters, which `strip` removes. |
| `Text.Strip` | FourierCode2.0.py:178 | `strip`, here and at line 184, never lengthens a string, and what it returns neither starts nor ends with whitespace. |
| `Text.StripSlice` | FourierCode2.0.py:178 | `strip` keeps a contiguous middle part and removes only whitespace around it. What it keeps neither starts nor ends with whitespace. |
| `Text.StripTrimmed` | FourierCode2.0.py:178 | A string without whitespace at either end is left as it is. |
| `Text.StripIdempotent` | FourierCode2.0.py:178 | Stripping an already stripped piece changes nothing. |
| `Text.StripBlank` | FourierCode2.0.py:178 | A whitespace-only piece strips to the empty string. |
| `Repl.Reset` | FourierCode2.0.py:135-141 | The parsed value and no message when the text parses. Otherwise the old value and the "not a number" message. |
| `Repl.FieldKeys` | FourierCode2.0.py:189-208 | The seven keys and the seven fields correspond one to one. `go`, `bye` and the empty string are not field keys. |
| `Repl.GetSet` | FourierCode2.0.py:189-208 | Setting a field changes that field to the new value and leaves every other field as it was. |
| `Repl.StripEach` | FourierCode2.0.py:177-178 | The in-place strip loop leaves the list equal to every piece stripped. |
| `Repl.Pair` | FourierCode2.0.py:182-184 | A command has at least one part, so `pair[0]` always exists. |
| `Repl.Classify` | FourierCode2.0.py:186-217 | The dispatch on `pair[0]`: `go` exactly for the key `go`, `bye` for `bye`, and an assignment exactly for the seven field keys. An assignment sets the field of that key, with `pair[1]` as its value when there is one. Anything else is invalid. |
| `Repl.Exec` | FourierCode2.0.py:186-217 | One command: it fails (IndexError) exactly for a field key without a value, and then nothing changes. `done` becomes set only through `bye`. No field other than the one assigned changes. At most one message is shown. |
| `Repl.ExecAll` | FourierCode2.0.py:180-217 | The commands of one line: once `done` is set it stays set for the rest of the line, a line never raises EOFError, and each command shows at most one message. |
| `Repl.Session` | FourierCode2.0.py:160-217 | The whole `while not done` loop: without an exception it ends with `done` set, and an EOFError leaves `done` unset. A session that is not yet done shows the status block first. |
| `Repl.GoWithValue` | FourierCode2.0.py:182-187 | Only the part before the first `=` decides. Whatever follows `go=` (`go=5`, `go= x`, `go==`), the command is `go`. |
| `Repl.GoShows` | FourierCode2.0.py:186-187 | `go` shows the current parameters and changes nothing. |
| `Repl.FieldCommand` | FourierCode2.0.py:189-208 | A field key with a value sets that field (to the parsed value, or unchanged with a complaint) and leaves the other fields and `done` alone. |
| `Repl.KeyWithoutValue` | FourierCode2.0.py:190 | A field key without `=` raises IndexError and changes nothing. |
| `Repl.UnknownKey` | FourierCode2.0.py:215-217 | An unrecognised key is rejected as invalid and changes nothing. |
| `Repl.BlankCommand` | FourierCode2.0.py:182-217 | An empty or blank piece has the empty key, so it is rejected as invalid. |
| `Repl.ByeContinues` | FourierCode2.0.py:180-213 | `bye` sets `done`, but the commands after it on the same line still run. |
| `Repl.LineKeepsParams` | FourierCode2.0.py:180-217 | A line without field assignments leaves the parameters unchanged. |
| `Repl.GoLine` | FourierCode2.0.py:186-187 | A line of `go` commands shows the starting parameters once per command and changes nothing. |
| `Repl.Interpreter.constructor` | FourierCode2.0.py:151-158 | The initial values 10, 1, 11, 5, 15, -5 and 5, with `done` false. |
| `Repl.Interpreter.Dispatch` | FourierCode2.0.py:186-217 | The if-chain on `pair[0]` does what `Exec` says the classified command does. |
| `Repl.Interpreter.ApplyToken` | FourierCode2.0.py:182-217 | The body of the token loop splits the i-th piece on `=`, strips the parts and dispatches: the i-th command's `Exec`. |
| `Repl.Interpreter.ApplyTokens` | FourierCode2.0.py:180-217 | The token loop runs the commands in order and stops at the first exception: `ExecAll`. |
| `Repl.Interpreter.ApplyLine` | FourierCode2.0.py:176-217 | One line split on `,`, stripped, and its commands run: `ExecAll` over the line's commands. |
| `Repl.Interpreter.Pass` | FourierCode2.0.py:162-217 | One pass of the `while not done` loop: the status, then one line, or EOFError when none is left. |
| `Repl.Interpreter.MainLoop` | FourierCode2.0.py:160-217 | The `while not done` loop over the lines' commands: `Session`. |
| `Repl.Interpreter.Run` | FourierCode2.0.py:160-217 | `main` fed the given lines does what `Session` says of the commands those lines stand for. |

## Left out

- Plotting, the 3D view and the figure wait loop (lines 56-61, 75-100, 118-133): matplotlib rendering has no effect on the computed lists. `Wave` keeps what each component hands to the plot.
- Terminal I/O: the banner and prompts (145-175), `print` and `time.sleep`. Printing becomes an `Event`; the input lines are the parameter of `Run`.
- The result of `go`: `main` ignores what `disp` returns, so the interpreter records the call as `Display(params)` and does not run `Synthesis.Disp`. It does not model an exception raised inside `disp`, although one ends the program: the ZeroDivisionErrors that `Disp` reports (`sig=0`, `num=1`, `xhi=0` or `num=0`, then `go`), and the OverflowError of `int(inf)` at line 33 for `num=inf`, which the model cannot express because it works over reals.
- Floating point: the model computes over exact reals, so it does not capture rounding, the underflow of `e**y` to 0 far from the centre, or the truncated constants `e = 2.7182818` and `pi = 3.1415923` (pi is kept as a constant, but only as a factor under the abstract square root).
- `Synthesis.AmpIndex`: the model computes the index over reals. With floats, the division in line 64 can land one index lower at i = knum-1; the bounds still hold.
- Rounding of the reported spreads to three places (114-116): `Finish` returns the square roots.
- `cos`, `e**y` and `y**0.5` are abstract functions with only the positivity facts named above. `PhiPeak` also assumes a monotone exponential.
- The syntax that `float()` accepts: it is the parameter `parse`.
- `tot` is allocated as an array of nstep+1 zeros before the component loop, rather than grown by `append(0.)` in the grid loop. Its contents at the start of the component loop are the same.
- `Config.Valid`: the model requires 0 <= nstd3 <= nstdk/2, nstep > 0, nstdk > 0 and nstdx > 0, so that the window lies inside the grid. The program's constants satisfy it (`SourceWindow`).
- `Synthesis.Phi`: positivity is stated for kwid > 0; kwid < 0 only gives a non-zero envelope. The same holds for `Synthesis.Gauss`.
- `Text.Strip`: whitespace is judged by code point, following `str.isspace`; there is no Unicode database beyond that list.
- `Repl.Failure`: the program ends at the exception, and the model ends the trace there with the failure recorded. The traceback itself is not modelled.
