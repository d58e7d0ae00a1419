# Three-body Monte Carlo simulator: a verified model of its bookkeeping core

The simulator places three stars from a row of a sampled design and gives
them initial velocities. It integrates their motion until they collide, a
star escapes, or a time limit passes, and it appends one result record per
scenario to a table. This project models the exact, non-transcendental part
of that work over Dafny `real`s:

- **`Functions`**: the array helpers.
  - nearest-value lookup (`findIdx`);
  - the centre of mass and recentring (`findCM`);
  - pairwise difference vectors and squared distances;
  - the guarded sum inside `escapeSpeed`, where the diagonal `m/0` infinities are zeroed by `nan_to_num`;
  - the Runge-Kutta weight combination;
  - the grid draw of `randomSpeed`;
  - the "missing file loads as `{}`" rule of `fromPickle`.
- **`Floats`**: the IEEE division-by-zero results and `nan_to_num`.
- **`Grids`**: `np.linspace`, with and without its end point.
- **`Vectors`**: 3-vectors and numpy's row-wise broadcasting over them.
- **`Columns`** and **`Records`**: the 44 keys of a result record, their insertion order, and the record `_runMonteCarloScenario` fills key by key.
- **`Scenario`**: one step of the integration loop, the loop itself under two loop conditions, and the loop as a `while` method.
- **`Simulation`**: reading the initial values from a sample row, recentring in place, the whole scenario, the sample-space grids, and the `Simulation` object whose `data` grows by one record per scenario.
- **`BaseClass`**: attribute injection from a dictionary, the constructor's order (load, generate if missing, override), and the column-name lists.

Python dictionaries that are iterated are item sequences in insertion order
(`BaseClass.Dict`). An object's attributes are a `map`. A result record is a
`map` from key to cell. Values the helpers compute but cannot be written
exactly are parameters of the model. These are the spherical/Cartesian
conversions, the force law, the collision and ejection tests, the time step,
the radial-speed draw and the square root; `Scenario.Env` collects them.

### How the model reads code that cannot run as written

The source does not run as it stands. The model takes the evident reading of
each of these and keeps every other branch as written:

- `Simulation.py:174` passes the undefined names `posXYZ` and `M` to `escapeSpeed`. The model passes the recentred positions and the masses.
- `Simulation.py:196` initialises `time`, but lines 231 and 256 use `t`. The model has one time variable that starts at 0.
- `Simulation.py:204-205` calls `deepcopy`, which is never imported. Values are immutable in the model, so the copy is the value itself.
- `Functions.py:439` uses an undefined `maxSpeed`. The model uses the body's own entry `maxSpeed_i1[starIdx]`.
- `BaseClass.py:223` is missing a comma, which is a syntax error. The model uses the evident eight-entry `colNames` dictionary.
- `Functions.py:81` with a total mass of zero produces NaN or ±inf coordinates in numpy: NaN where the weighted sum is zero, ±inf where it is not. `Functions.FindCM` returns `None`, and the scenario stops with `ZeroTotalMass`.
- The sample row is read under `velTheta`/`velPhi` (`Simulation.py:182`), but the record is written under `velPolar`/`velAzimuthal` (`Simulation.py:282`). The model keeps both names, as the code does.
- `Simulation.py:96` reads `self.columns_`, which no line of the class sets. Unless a loaded state or a keyword argument supplies it, `_generateEmptyData` raises `AttributeError`. `Simulation.Simulation.GenerateEmptyData` raises exactly then.
- `_getSample` is called with no positional argument (`BaseClass.py:71`), and `args[0]` (`BaseClass.py:238`) raises `IndexError`. `BaseClass.Construct` and `BaseClass.BaseClass.Init` raise exactly then.

## Model

| member | source | states |
|---|---|---|
| Functions.Dist | pyFiles/Functions.py:57 | `abs(a - b)` is non-negative and is one of `a - b`, `b - a` |
| Functions.ArgMin | pyFiles/Functions.py:57 | the index is in range, its entry is at most every entry, and every earlier entry is strictly larger (first minimum) |
| Functions.FindIdx | pyFiles/Functions.py:40-58 | an index exists exactly for a non-empty array; it is in range, no entry is nearer to the value, and every earlier index is strictly farther |
| Functions.FindCM | pyFiles/Functions.py:64-82 | a centre exists exactly when the total mass is non-zero; total mass times the centre is the mass-weighted sum of the positions |
| Functions.RecentredCentreIsOrigin | pyFiles/Simulation.py:168-171 | after subtracting the centre of mass from every position, the mass-weighted sum is zero and the new centre of mass is the origin |
| Vectors.SubRow | pyFiles/Simulation.py:171 | `x -= CM` broadcasts: same length, each row minus the vector |
| Vectors.ShiftAll | pyFiles/Functions.py:281-282 | `x + h` adds the scalar to every coordinate of every row |
| Vectors.WeightedSum | pyFiles/Functions.py:81 | `(m * x).sum(axis=0)`: each coordinate is the sum over the rows of mass times that coordinate |
| Vectors.WeightedSumSubRow | pyFiles/Functions.py:81 | taking `v` off every row takes `(sum m) * v` off the mass-weighted sum |
| Functions.PairwiseDifferenceVector | pyFiles/Functions.py:270-272 | the result is N by N with entry `[i][j] == x_j - x_i` |
| Functions.PairwiseDifferenceAntisymmetric | pyFiles/Functions.py:271 | `[i][j] == -[j][i]`, and the diagonal is the zero vector |
| Functions.PairwiseDistanceSq | pyFiles/Functions.py:274-276 | N by N, entry `[i][j]` is the squared norm of `x_j - x_i` |
| Functions.PairwiseDistanceSqNonNegative | pyFiles/Functions.py:275 | every squared distance is non-negative |
| Functions.PairwiseDistanceSqSymmetric | pyFiles/Functions.py:275 | squared distance `[i][j] == [j][i]` |
| Functions.PairwiseDistanceSqDiagonal | pyFiles/Functions.py:275 | a body is at squared distance 0 from itself |
| Functions.PairwiseDistance | pyFiles/Functions.py:274-276 | each distance is the given square root of the squared distance |
| Functions.Distances | pyFiles/Functions.py:222-225 | the distance matrix escapeSpeed uses: N by N, `root` of the squared norm of `x_j - x_i` |
| Functions.DistancesDiagonal | pyFiles/Functions.py:225 | with `sqrt(0) == 0` the diagonal distance is 0 |
| Functions.DistancesNonNegative | pyFiles/Functions.py:225 | with a non-negative square root every distance is non-negative |
| Floats.Plus | pyFiles/Functions.py:228 | the IEEE sum of two doubles: the exact sum of finite values; NaN exactly when an operand is NaN or the two are opposite infinities; otherwise an infinite operand gives that infinity |
| Floats.Divide | pyFiles/Functions.py:228 | a non-zero divisor gives the exact quotient; a zero divisor gives `+inf`, `-inf` or NaN by the sign of the dividend |
| Floats.NanToNum | pyFiles/Functions.py:229 | finite values are kept, NaN and `+inf` become 0, `-inf` the most negative double |
| Floats.NanToNumInPlace | pyFiles/Functions.py:229 | every entry of the array is replaced in place by `nan_to_num` of its old value |
| Functions.Quotients | pyFiles/Functions.py:228 | an entry of `m_i1 / x_ij + m_i1.T / x_ij`: the exact `m_i/d + m_j/d` at a non-zero distance, never a finite number at distance 0 |
| Functions.PairTerms | pyFiles/Functions.py:228 | a fresh N by N array whose entry `[p, q]` is `m_p/d_pq + m_q/d_pq` in IEEE arithmetic |
| Functions.DiagonalTermZeroed | pyFiles/Functions.py:228-229 | for a positive mass, `m/0` and the sum of the two are `+inf`, and the zeroed term is 0 |
| Functions.TermValue | pyFiles/Functions.py:228-229 | for non-negative masses a zeroed term is 0 at distance 0 and `(m_i + m_j)/d` otherwise |
| Functions.AlphaIsReference | pyFiles/Functions.py:228-233 | for non-negative masses the guarded row sum equals the sum of `(m_i + m_j)/d_ij` over non-zero distances |
| Functions.Term | pyFiles/Functions.py:228-229 | a zeroed entry of `alpha_ij`: `m_i/d + m_j/d` at a non-zero distance; at distance 0 the most negative double when both masses are negative and 0 otherwise; non-negative for non-negative inputs |
| Functions.Alpha | pyFiles/Functions.py:228-233 | a partial row sum of the zeroed `alpha_ij`; for non-negative masses and distances it is non-negative |
| Functions.RowSums | pyFiles/Functions.py:233 | the row sums of the zeroed array are the guarded sums `alpha_i` |
| Functions.AlphaRows | pyFiles/Functions.py:233 | one guarded sum per body |
| Functions.SpeedsFromAlpha | pyFiles/Functions.py:236 | speed `i` is the square root of `2 G alpha_i` |
| Functions.EscapeSpeed | pyFiles/Functions.py:216-237 | the divisions, in-place zeroing and row sums give exactly `root(2 G alpha_i)` of the guarded sums over the distance matrix |
| Functions.EscapeSpeedRadicandNonNegative | pyFiles/Functions.py:236 | for non-negative `G`, masses and distances the square root is taken of a non-negative number |
| Functions.RungeKutta4 | pyFiles/Functions.py:278-285 | increment `i` is `dt/6 (k1 + 4 k23 + k4)`, with `k23` evaluated once at `x + dt/2` and `k4` at `x + dt` |
| Functions.RungeKutta4Constant | pyFiles/Functions.py:280-284 | the weights sum to 6: a constant slope `c` gives the increment `dt c` |
| Functions.RandomSpeed | pyFiles/Functions.py:426-449 | with draws in `0..n` as `randint(n + 1)` yields, the method fails exactly when some draw is `n`, one past the `n`-point grid, with the IndexError `(n, n)`; otherwise body `s` gets grid point `draws[s]` of `linspace(min, maxSpeed[s], n)`, which lies between the ends |
| Functions.FromPickle | pyFiles/Functions.py:153-185 | a missing file loads as the empty dictionary, and a stored one as its items |
| Grids.Linspace | pyFiles/Simulation.py:134-136 | `num` points, the first being `start` |
| Grids.LinspaceClosedEnds | pyFiles/Simulation.py:136 | with an end point and at least two points, the first is `start` and the last `stop` |
| Grids.LinspaceClosedBounds | pyFiles/Functions.py:443 | with an end point every point lies between `start` and `stop` |
| Grids.LinspaceHalfOpen | pyFiles/Simulation.py:134-135 | without the end point every point is at least `start` and strictly below `stop` |
| Columns.Render | pyFiles/Simulation.py:253-287 | the key written for a column: a mass key is `mass_(d)`, 8 characters with `_` at 4 and the star digit at 6; a per-star key has `_` right after its field name and the star digit two places later |
| Columns.FieldColumn | pyFiles/Simulation.py:157 | the column index `enumerate` gives each field of its name list |
| Columns.SampleKey | pyFiles/Simulation.py:158 | the key is the name, `_(`, the star digit and `,0)` |
| Columns.InitialColumnIsSampleKey | pyFiles/Simulation.py:273-275 | the key an initial value is written under is the key it was read from |
| Columns.ParseRender | pyFiles/Simulation.py:253-287 | every record key parses back to its column |
| Columns.RenderParse | pyFiles/Simulation.py:253-287 | every key that parses is the rendering of what it parses to |
| Columns.RenderInjective | pyFiles/Simulation.py:253-287 | different columns have different keys |
| Columns.ColumnIndexOfRecordColumn | pyFiles/Simulation.py:253-287 | the `i`-th key written has insertion position `i` |
| Columns.RecordColumnOfColumnIndex | pyFiles/Simulation.py:253-287 | every column is written at its insertion position |
| Columns.RecordKeyCount | pyFiles/Simulation.py:253-287 | 5 scalar keys plus 13 per star make 44 distinct keys |
| Columns.RecordKeysAreTheColumnKeys | pyFiles/Simulation.py:253-287 | the record keys are exactly the keys that parse into a column |
| Records.OutcomeTag | pyFiles/Simulation.py:260-265 | `collision` exactly on a collision, `ejection` exactly on an ejection without a collision, `fullRun` otherwise |
| Records.OutcomeTagIsOneOfThree | pyFiles/Simulation.py:260-265 | exactly one of the three tags holds |
| Records.ValueOf | pyFiles/Simulation.py:256-287 | the cell written under a column: a number for run time, masses and per-star values, a count for treatment, replicate and steps, a tag for the outcome |
| Records.WriteStep | pyFiles/Simulation.py:253-287 | writing the next key keeps a record holding exactly the first columns with their values |
| Records.FilledComplete | pyFiles/Simulation.py:253-287 | after all 44 writes the keys are the record keys, each holding its value |
| Records.GroupColumn | pyFiles/Simulation.py:273-287 | the column of one field group of one star |
| Records.AddScalars | pyFiles/Simulation.py:253-265 | the first five writes: run time, treatment, replicate, steps, outcome |
| Records.AddGroup | pyFiles/Simulation.py:273-287 | one inner loop writes its three columns of one star |
| Records.AddStar | pyFiles/Simulation.py:268-287 | one pass of the star loop writes the star's mass and 12 values |
| Records.BuildRecord | pyFiles/Simulation.py:253-287 | the key set is exactly the 44 record keys and each holds its value |
| Scenario.Start | pyFiles/Simulation.py:196-201 | before the loop: time 0, no steps, all three flags false |
| Scenario.KeepGoing | pyFiles/Simulation.py:211 | as written one false flag stops the loop and it goes on only when all three flags hold; the intended loop goes on exactly while no flag holds |
| Scenario.Step | pyFiles/Simulation.py:213-246 | one pass adds 1 to `steps` and `dt` to the time, sets `timeLimit` exactly when `t >= maxT`, adds the Runge-Kutta increment to the velocities, then `dt` times the new velocities to the positions; the collision and ejection checks and the next `dt` are taken on the updated state |
| Scenario.Run | pyFiles/Simulation.py:211-246 | the loop keeps three bodies and takes between zero and `fuel` passes |
| Scenario.Integrate | pyFiles/Simulation.py:196-246 | the `while` loop ends in the state the loop function gives from the start state |
| Scenario.AsWrittenLoopNeverRuns | pyFiles/Simulation.py:199-211 | with `all([...])` over three false flags the body runs zero times and the start state is returned |
| Scenario.IntendedLoopStops | pyFiles/Simulation.py:199-211 | under "loop while no flag holds" the loop ends with a flag set or the step cap reached |
| Scenario.IntendedTimeLimit | pyFiles/Simulation.py:240 | `timeLimit` holds on exit exactly when the time reached `maxT` |
| Scenario.Passes | pyFiles/Simulation.py:211-246 | the number of passes is at most the step cap, and zero exactly when the cap is 0 or the condition fails at the start |
| Scenario.RunCountsSteps | pyFiles/Simulation.py:246 | the step count grows by exactly the number of passes, so it is unchanged exactly when the body never runs |
| Simulation.PositionKey | pyFiles/Simulation.py:158 | the record key of an initial position is the sample key `{name}_({s},0)` |
| Simulation.InitialPositions | pyFiles/Simulation.py:155-159 | three rows, entry `[s][c]` being the value of `{name}_({s},0)` |
| Simulation.ReadPositions | pyFiles/Simulation.py:155-159 | succeeds exactly when all nine position keys are in the row, and then gives the row's initial positions; a failure names a missing key |
| Simulation.ReadMasses | pyFiles/Simulation.py:162 | succeeds exactly when the three mass keys are present, and mass `s` is the value of `mass_(s)`; a failure names a missing key |
| Simulation.ReadVelocities | pyFiles/Simulation.py:177-187 | column 0 holds the drawn radial speeds and columns 1 and 2 the `velTheta`/`velPhi` values; a failure names a missing key |
| Simulation.StartPositions | pyFiles/Simulation.py:165-171 | the converted initial positions minus their centre of mass: three bodies whose mass-weighted sum is zero |
| Simulation.InitialRadialSpeeds | pyFiles/Simulation.py:173-179 | one radial speed per star, drawn from the escape speeds of the recentred start |
| Simulation.InitialVelocities | pyFiles/Simulation.py:176-187 | three rows: the drawn radial speed, then the `velTheta` and `velPhi` values of the row |
| Simulation.VelocitiesRead | pyFiles/Simulation.py:176-187 | the velocities read from a readable row are the row's start velocities |
| Simulation.FinalState | pyFiles/Simulation.py:189-246 | the loop's final state, run under the chosen condition and step cap from the recentred start and the converted start velocities: three bodies |
| Simulation.RecentreInPlace | pyFiles/Simulation.py:171 | the array becomes its old rows minus the centre |
| Simulation.RunScenario | pyFiles/Simulation.py:152-287 | succeeds exactly for a readable row of non-zero total mass; the record has the 44 keys and hands back the initial positions, masses and angle values it read, the treatment and replicate, and as `velRadial_(s,0)` the speed drawn from the escape speeds of the recentred start; under either loop condition its steps, run time, outcome and final positions and velocities are those of the loop's final state; as written that is 0 steps, time 0, `fullRun`, and the recentred start and the start velocities converted back; under the intended loop a `fullRun` has time at least `maxT` or hit the step cap |
| Simulation.RecordFacts | pyFiles/Simulation.py:255-287 | the values of the record under the keys the scenario's contract names |
| Simulation.RecordStarFacts | pyFiles/Simulation.py:277-287 | the record holds the initial radial velocities under `velRadial_(s,0)` and the final positions and velocities under their `(s,-1)` keys |
| Simulation.IntendedEnd | pyFiles/Simulation.py:199-246 | the intended loop ends with a collision, an ejection, time at least `maxT`, or the step cap |
| Simulation.SampleSpace | pyFiles/Simulation.py:125-137 | keys radius, theta, phi and mass; radius as given, the others with `count` points |
| Simulation.SampleSpaceGrids | pyFiles/Simulation.py:134-136 | theta and phi start at min and stay strictly below max; the mass grid runs from min to max, both included |
| Simulation.ILoc | pyFiles/Simulation.py:152 | a row exists exactly for indices in `-N..N-1`, and negative ones count from the end |
| Simulation.Simulation.GenerateEmptyData | pyFiles/Simulation.py:96 | raises `AttributeError` on `columns_` exactly when that attribute was never set, changing nothing; otherwise data becomes empty with the columns `columns_`; nothing else changes |
| Simulation.Simulation.GenerateSampleSpace | pyFiles/Simulation.py:125-137 | the sample space becomes the four grids, nothing else changes |
| Simulation.Simulation.RunMonteCarloScenario | pyFiles/Simulation.py:149-291 | on success data is the old data plus exactly the new record, of the 44 keys; on failure nothing changes; it succeeds exactly for an in-range index whose row is readable and of non-zero total mass; the record hands back that row's positions, masses and angles, holds the radial speeds drawn for its recentred start, holds the steps, time, outcome and final positions and velocities of the loop's final state, as written 0 steps, time 0, `fullRun` and the start; under the intended loop a `fullRun` has time at least `maxT` or hit the step cap; an out-of-range row index is the failure `RowOutOfRange`; the record's treatment and replicate are the object's counters |
| BaseClass.Get | pyFiles/BaseClass.py:59-60 | a value exists exactly when some item has the key, and it is the value of the last item with that key, as a dictionary keeps it |
| BaseClass.Tail | pyFiles/BaseClass.py:166-170 | the attribute is `key_` with `addTail` and `key` without it |
| BaseClass.TailInjective | pyFiles/BaseClass.py:166-170 | different keys go to different attributes |
| BaseClass.Assign | pyFiles/BaseClass.py:162-170 | an empty dictionary leaves the attributes as they are; otherwise the attribute names become the old ones plus the attribute of every key |
| BaseClass.AssignGet | pyFiles/BaseClass.py:162-170 | after injection every key's attribute holds the key's value |
| BaseClass.AssignFrame | pyFiles/BaseClass.py:162-170 | an attribute no key goes to keeps its presence and value |
| BaseClass.AssignGrows | pyFiles/BaseClass.py:162-170 | injection never removes an attribute |
| BaseClass.BaseClass.Dict2Attributes | pyFiles/BaseClass.py:143-170 | the attributes become those of `setattr` over the items in order; an empty dictionary changes nothing |
| BaseClass.BaseClass.LoadState | pyFiles/BaseClass.py:84-104 | the saved items, or none when nothing is saved, are injected |
| BaseClass.Without | pyFiles/BaseClass.py:59-60 | no remaining item has the key, and every one was in the dictionary |
| BaseClass.WithoutGet | pyFiles/BaseClass.py:59-60 | popping a key removes exactly that key |
| BaseClass.WithoutAbsent | pyFiles/BaseClass.py:59-60 | popping an absent key changes nothing |
| BaseClass.Rest | pyFiles/BaseClass.py:58-60 | the remaining keyword arguments contain neither `verbose` nor `addTail` |
| BaseClass.BaseClass.PopFlags | pyFiles/BaseClass.py:58-60 | the flags move to `kwargs1` with their values, and the rest keeps everything else |
| BaseClass.Estimators | pyFiles/BaseClass.py:194-197 | the positional arguments in order, or the four defaults when there are none |
| BaseClass.SimColumn | pyFiles/BaseClass.py:217 | a 12-character name carrying its star and coordinate digits and its `pos`/`vel` initial |
| BaseClass.SimColumns | pyFiles/BaseClass.py:212-218 | 19 entries, `nSteps` first and then 12-character final-value names |
| BaseClass.BaseClass.BuildSimColumns | pyFiles/BaseClass.py:212-218 | the nested loops build `nSteps` followed by the columns in star, coordinate, name order |
| BaseClass.SimColumnsDiffer | pyFiles/BaseClass.py:214-217 | different loop positions give different names |
| BaseClass.SimColumnsShape | pyFiles/BaseClass.py:212-218 | `sim` has 19 distinct entries, `nSteps` first |
| BaseClass.ColumnNames | pyFiles/BaseClass.py:221-230 | the column-name dictionary has exactly the eight lists |
| BaseClass.ColumnNamesAll | pyFiles/BaseClass.py:222 | `all` is `constant`, `control`, `estimators`, the Monte Carlo columns, `random` and `sim`, each at its own slice in that order |
| BaseClass.ColumnNamesSample | pyFiles/BaseClass.py:228 | `sample` is the Monte Carlo columns, then `control`, then `estimators`, each at its own slice |
| BaseClass.SampleColumnsInAll | pyFiles/BaseClass.py:222-228 | every `sample` column is in `all` |
| BaseClass.WithColumnNames | pyFiles/BaseClass.py:221 | the attributes gain `colNames` and never `factors_` |
| BaseClass.BaseClass.GenerateColumnNames | pyFiles/BaseClass.py:172-230 | the only new attribute is `colNames`, holding the column-name dictionary |
| BaseClass.AddTailOf | pyFiles/BaseClass.py:162 | `addTail` is on exactly when the popped arguments hold a truthy `addTail`, and off when they hold none |
| BaseClass.Loaded | pyFiles/BaseClass.py:55-63 | with nothing saved only `name_` is set; otherwise the attributes are `name_` plus the attribute of every saved key |
| BaseClass.Generated | pyFiles/BaseClass.py:65-67 | with `factors_` present nothing changes; otherwise exactly `colNames` is added, holding the column-name dictionary, and every other attribute keeps its value |
| BaseClass.KwargsWin | pyFiles/BaseClass.py:73-75 | a keyword argument other than the flags ends up as its attribute, over any loaded or generated value |
| BaseClass.LoadedStateKept | pyFiles/BaseClass.py:63-75 | a loaded value survives unless a keyword argument or `colNames` lands on it |
| BaseClass.VerboseIgnored | pyFiles/BaseClass.py:58-60 | passing `verbose` changes neither the attributes nor whether the constructor raises |
| BaseClass.PoppedFlagsNotApplied | pyFiles/BaseClass.py:58-75 | the popped flags never become attributes from the keyword arguments |
| BaseClass.SampleGuard | pyFiles/BaseClass.py:69-71 | the constructor raises exactly when no loaded key lands on `sample_`, and always when nothing is saved |
| BaseClass.FactorsGuardStaysOpen | pyFiles/BaseClass.py:65-67 | unless loaded or passed, `factors_` stays missing after construction while `colNames` is set, so every construction regenerates the names |
| BaseClass.Construct | pyFiles/BaseClass.py:28-75 | the only error raised is the `IndexError` of `_getSample`; without it `sample_` is set; `name_` is always set, and `colNames` or `factors_` is |
| BaseClass.BaseClass.Init | pyFiles/BaseClass.py:28-75 | on a new instance, the attributes and the raised error are exactly those of the constructor order: name, load, guarded generation, then override |

## Left out

- The spherical/Cartesian conversions (`spc2xyz`, `xyz2spc`, `Functions.py:84-113`) are parameters of `Scenario.Env`, because they are trigonometry over floats.
- The force law `nBodyAcceleration` is a parameter of `Scenario.Env`, for the same reason.
- `checkCollision`, `checkEjection`, `randomVelSPC` and `timeStep` are parameters of `Scenario.Env`, because they are not implemented or not defined in the source.
- `stellarRadiiLookup` (`Simulation.py:193`) is not defined, and its result is never used, so the model leaves it out.
- Square roots are a parameter `root`, assumed only to give `root(0) == 0` and non-negative results.
- The radius grid (`Simulation.py:129-133`) is built with `exp` and `log`, so `Simulation.SampleSpace` takes it as an input.
- Random draws are inputs: the index draws of `Functions.RandomSpeed` and the radial speeds of `Scenario.Env`.
- Floating point: finite arithmetic is exact; rounding and overflow are not modelled. Only division by zero and `nan_to_num` are IEEE-accurate.
- Pickle files, `toPickle`/`saveState`, and every `print*` helper are left out as file and console output. The stored state enters as an optional dictionary.
- pandas internals are left out: the DataFrame `data_` is a sequence of records, and `append` is sequence concatenation.
- The CSV reading and column renaming of `_getSample` are left out. `_getSample` is reached only with no argument, where it raises.
- `run()` and the classes in `Plots.py` and `MetaModels/RFregression.py` are not part of this model.
- The `Input` module's factor constants are the parameter `BaseClass.InputFactors`.
- Python objects that are neither strings, booleans, numbers nor the column dictionary are `BaseClass.Value.Other`, assumed truthy.
- Scenario.Integrate: the source loop has no bound. The model also stops after `maxSteps` passes, so that the loop terminates.
- Scenario.Run: the same step cap applies.
- Functions.FindCM: with zero total mass it returns `None` instead of NaN or ±inf coordinates.
- Simulation.RunScenario: with zero total mass it fails with `ZeroTotalMass`, where the source would go on with non-finite coordinates.
- Simulation.Simulation.RunMonteCarloScenario: for the same reason it appends nothing where the source would append a record of non-finite values.
- Functions.FindIdx: on an empty array it returns `None` instead of raising.
- Simulation.RunScenario: `Simulation.py:174` runs into an undefined name. The model uses the recentred positions and the masses instead.
- Simulation.Simulation.GenerateEmptyData: the columns of `data_` are a list of labels; how pandas' `append` widens them is not tracked.
- Simulation.Simulation.constructor: `Simulation.__init__` runs `BaseClass.__init__`. The model keeps the two objects apart, and the constructor takes the sample, the counters, `columns_` and the data directly.
- Python's multiple inheritance and `hasattr` on class attributes are not modelled. Attributes are the instance's own `__dict__`.

## Findings

| source | as written | input that shows it | evidently intended | confidence | as-written member | corrected member |
|---|---|---|---|---|---|---|
| pyFiles/Simulation.py:211 | `while all([collision, ejection, timeLimit])` loops only while all three flags hold | any sample row: all three flags are `False` before the loop, so the body never runs and every record has 0 steps, time 0 and outcome `fullRun` | loop while none of the flags holds, `not any([...])` | not executed | Scenario.AsWrittenLoopNeverRuns | Scenario.IntendedLoopStops |
