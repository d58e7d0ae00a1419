/**
 * `Simulation._runMonteCarloScenario` and `Simulation._generateSampleSpace`:
 * reading one treatment row, recentring, integrating, and appending the
 * scenario record to the collected data.
 */
module Simulation {
  import opened Wrappers
  import opened Vectors
  import opened Columns
  import opened Records
  import Functions
  import Grids
  import opened Scenario

  /** A row of the sample table: column name to value. */
  type SampleRow = map<string, real>

  /**
   * The record key of the initial position coordinate `c` of star `s`; it
   * is the sample key `{name}_({s},0)` the runner reads it from.
   */
  function PositionKey(s: StarIdx, c: nat): (key: string)
    requires c < 3
    ensures key == SampleKey(FieldName(PositionFields[c]), s)
  {
    InitialColumnIsSampleKey(PositionFields[c], s);
    Render(Star(PositionFields[c], s, Initial))
  }

  /** The key `mass_({s})`. */
  function MassKey(s: StarIdx): string
  {
    Render(Mass(s))
  }

  /** The sample columns read for the two velocity angles. */
  const AngleNames: seq<string> := ["velTheta", "velPhi"]

  /** The key of velocity angle `n` (column `n + 1`) of star `s`. */
  function AngleKey(n: nat, s: StarIdx): string
    requires n < 2
  {
    SampleKey(AngleNames[n], s)
  }

  /**
   * The record key the velocity angle `n` of star `s` is written back under:
   * `velPolar_(s,0)` or `velAzimuthal_(s,0)`, not the name it was read from.
   */
  function AngleRecordKey(n: nat, s: StarIdx): string
    requires n < 2
  {
    Render(Star(VelocityFields[n + 1], s, Initial))
  }

  /** The record key `velRadial_(s,0)` of the drawn initial radial speed of star `s`. */
  function RadialKey(s: StarIdx): string
  {
    Render(Star(VelRadial, s, Initial))
  }

  /** The record key `{name}_({s},-1)` of final position coordinate `c` of star `s`. */
  function FinalPositionKey(s: StarIdx, c: nat): string
    requires c < 3
  {
    Render(Star(PositionFields[c], s, Final))
  }

  /** The record key `{name}_({s},-1)` of final velocity coordinate `c` of star `s`. */
  function FinalVelocityKey(s: StarIdx, c: nat): string
    requires c < 3
  {
    Render(Star(VelocityFields[c], s, Final))
  }

  predicate HasPositions(row: SampleRow)
  {
    forall s: StarIdx, c: nat | c < 3 :: PositionKey(s, c) in row
  }

  predicate HasMasses(row: SampleRow)
  {
    forall s: StarIdx :: MassKey(s) in row
  }

  predicate HasAngles(row: SampleRow)
  {
    forall n: nat, s: StarIdx | n < 2 :: AngleKey(n, s) in row
  }

  /** The three stars' rows of a 3 x 3 array. */
  function Rows(a: array2<real>): (r: seq<Vec3>)
    requires a.Length0 == 3 && a.Length1 == 3
    reads a
    ensures |r| == 3 && forall s, c :: 0 <= s < 3 && 0 <= c < 3 ==> Coord(r[s], c) == a[s, c]
  {
    seq(3, s requires 0 <= s < 3 reads a => Vec3(a[s, 0], a[s, 1], a[s, 2]))
  }

  /** The spherical start positions of a row that has every position column. */
  function InitialPositions(row: SampleRow): (spc: seq<Vec3>)
    requires HasPositions(row)
    ensures |spc| == 3 && forall s: StarIdx, c: nat | c < 3 :: Coord(spc[s], c) == row[PositionKey(s, c)]
  {
    seq(3, s requires 0 <= s < 3 => Vec3(row[PositionKey(s, 0)], row[PositionKey(s, 1)], row[PositionKey(s, 2)]))
  }

  /**
   * The nested loop filling `spc_i3` from `{name}_({s},0)`, stars outer and
   * radius/theta/phi inner; a missing column is a `KeyError` on its key.
   */
  method ReadPositions(row: SampleRow) returns (r: Result<seq<Vec3>, string>)
    ensures r.Success? <==> HasPositions(row)
    ensures r.Success? ==> |r.value| == 3
    ensures r.Success? ==> r.value == InitialPositions(row)
    ensures r.Failure? ==> r.error !in row && exists s: StarIdx, c: nat | c < 3 :: r.error == PositionKey(s, c)
  {
    var spc := new real[3, 3]((_, _) => 0.0);
    for starIdx := 0 to 3
      invariant forall s: StarIdx, c: nat | s < starIdx && c < 3 :: PositionKey(s, c) in row && spc[s, c] == row[PositionKey(s, c)]
    {
      for colIdx := 0 to 3
        invariant forall s: StarIdx, c: nat | (s < starIdx && c < 3) || (s == starIdx && c < colIdx) ::
          PositionKey(s, c) in row && spc[s, c] == row[PositionKey(s, c)]
      {
        var key := SampleKey(FieldName(PositionFields[colIdx]), starIdx);
        assert key == PositionKey(starIdx, colIdx);
        if key !in row {
          return Failure(key);
        }
        spc[starIdx, colIdx] := row[key];
      }
    }
    var rows := Rows(spc);
    forall s: StarIdx
      ensures rows[s] == InitialPositions(row)[s]
    {
      assert Coord(rows[s], 0) == Coord(InitialPositions(row)[s], 0);
      assert Coord(rows[s], 1) == Coord(InitialPositions(row)[s], 1);
      assert Coord(rows[s], 2) == Coord(InitialPositions(row)[s], 2);
    }
    r := Success(rows);
  }

  /** The list comprehension over `mass_({s})`; a missing column is a `KeyError`. */
  function ReadMasses(row: SampleRow): (r: Result<seq<real>, string>)
    ensures r.Success? <==> HasMasses(row)
    ensures r.Success? ==> |r.value| == 3 && forall s: StarIdx :: r.value[s] == row[MassKey(s)]
    ensures r.Failure? ==> r.error !in row && exists s: StarIdx :: r.error == MassKey(s)
  {
    if MassKey(0) !in row then Failure(MassKey(0))
    else if MassKey(1) !in row then Failure(MassKey(1))
    else if MassKey(2) !in row then Failure(MassKey(2))
    else Success([row[MassKey(0)], row[MassKey(1)], row[MassKey(2)]])
  }

  /**
   * `spcdot_i3`: the radial speeds in column 0, then the nested loop over
   * `velTheta`/`velPhi` (outer) and the stars (inner) for columns 1 and 2.
   */
  method ReadVelocities(row: SampleRow, radial: seq<real>) returns (r: Result<seq<Vec3>, string>)
    requires |radial| == 3
    ensures r.Success? <==> HasAngles(row)
    ensures r.Success? ==> |r.value| == 3
    ensures r.Success? ==> forall s: StarIdx :: Coord(r.value[s], 0) == radial[s]
    ensures r.Success? ==> forall n: nat, s: StarIdx | n < 2 :: Coord(r.value[s], n + 1) == row[AngleKey(n, s)]
    ensures r.Failure? ==> r.error !in row && exists n: nat, s: StarIdx | n < 2 :: r.error == AngleKey(n, s)
  {
    var spcdot := new real[3, 3]((_, _) => 0.0);
    for s := 0 to 3
      invariant forall k :: 0 <= k < s ==> spcdot[k, 0] == radial[k]
    {
      spcdot[s, 0] := radial[s];
    }
    for n := 0 to 2
      invariant forall k :: 0 <= k < 3 ==> spcdot[k, 0] == radial[k]
      invariant forall j: nat, k: StarIdx | j < n :: AngleKey(j, k) in row && spcdot[k, j + 1] == row[AngleKey(j, k)]
    {
      for starIdx := 0 to 3
        invariant forall k :: 0 <= k < 3 ==> spcdot[k, 0] == radial[k]
        invariant forall j: nat, k: StarIdx | j < n || (j == n && k < starIdx) ::
          AngleKey(j, k) in row && spcdot[k, j + 1] == row[AngleKey(j, k)]
      {
        var key := SampleKey(AngleNames[n], starIdx);
        assert key == AngleKey(n, starIdx);
        if key !in row {
          return Failure(key);
        }
        spcdot[starIdx, n + 1] := row[key];
      }
    }
    r := Success(Rows(spcdot));
  }

  /** `x_i3 -= CM_13`: the centre of mass taken off every position in place. */
  method RecentreInPlace(x: array<Vec3>, cm: Vec3)
    modifies x
    ensures x[..] == SubRow(old(x[..]), cm)
  {
    for i := 0 to x.Length
      invariant forall k :: 0 <= k < i ==> x[k] == Sub(old(x[k]), cm)
      invariant forall k :: i <= k < x.Length ==> x[k] == old(x[k])
    {
      x[i] := Sub(x[i], cm);
    }
  }

  /** The constants the runner takes from `Input` and the loop's bounds. */
  datatype Params = Params(
    radiusMin: real, G: real, maxT: real, maxSteps: nat, cond: LoopCondition)

  datatype ScenarioError =
    | RowOutOfRange(index: int, size: nat)
    | MissingKey(key: string)
    | ZeroTotalMass

  /** Every sample column the runner reads is in the row. */
  predicate Readable(row: SampleRow)
  {
    HasPositions(row) && HasMasses(row) && HasAngles(row)
  }

  /**
   * The Cartesian start positions of a readable row of non-zero total
   * mass: converted, then recentred, so that their centre of mass is the
   * origin.
   */
  function StartPositions(env: Env, row: SampleRow): (x: seq<Vec3>)
    requires ValidEnv(env) && HasPositions(row) && HasMasses(row) && Sum(ReadMasses(row).value) != 0.0
    ensures |x| == 3 && WeightedSum(x, ReadMasses(row).value) == Zero
  {
    var m := ReadMasses(row).value;
    var x0 := env.spc2xyz(InitialPositions(row));
    Functions.RecentredCentreIsOrigin(x0, m);
    SubRow(x0, Functions.FindCM(x0, m).value)
  }

  /** The radial speeds drawn for the escape speeds of the start positions. */
  function InitialRadialSpeeds(env: Env, p: Params, row: SampleRow): (v: seq<real>)
    requires ValidEnv(env) && HasPositions(row) && HasMasses(row) && Sum(ReadMasses(row).value) != 0.0
    ensures |v| == 3
  {
    var m := ReadMasses(row).value;
    env.randomRadialSpeed(Functions.SpeedsFromAlpha(p.G, env.root,
      Functions.AlphaRows(m, Functions.Distances(StartPositions(env, row), env.root))))
  }

  /**
   * The spherical start velocities: the drawn radial speed, then the
   * `velTheta` and `velPhi` values of the row.
   */
  function InitialVelocities(env: Env, p: Params, row: SampleRow): (v: seq<Vec3>)
    requires ValidEnv(env) && Readable(row) && Sum(ReadMasses(row).value) != 0.0
    ensures |v| == 3
    ensures forall s: StarIdx :: Coord(v[s], 0) == InitialRadialSpeeds(env, p, row)[s]
    ensures forall n: nat, s: StarIdx | n < 2 :: Coord(v[s], n + 1) == row[AngleKey(n, s)]
  {
    var radial := InitialRadialSpeeds(env, p, row);
    seq(3, s requires 0 <= s < 3 => Vec3(radial[s], row[AngleKey(0, s)], row[AngleKey(1, s)]))
  }

  /** What `ReadVelocities` reads from a readable row is the row's start velocities. */
  lemma VelocitiesRead(env: Env, p: Params, row: SampleRow, vel0: seq<Vec3>)
    requires ValidEnv(env) && Readable(row) && Sum(ReadMasses(row).value) != 0.0 && |vel0| == 3
    requires forall s: StarIdx :: Coord(vel0[s], 0) == InitialRadialSpeeds(env, p, row)[s]
    requires forall n: nat, s: StarIdx | n < 2 :: Coord(vel0[s], n + 1) == row[AngleKey(n, s)]
    ensures vel0 == InitialVelocities(env, p, row)
  {
    var v := InitialVelocities(env, p, row);
    forall s | 0 <= s < 3
      ensures vel0[s] == v[s]
    {
      assert Coord(vel0[s], 1) == row[AngleKey(0, s)] && Coord(vel0[s], 2) == row[AngleKey(1, s)];
      CoordsDetermine(vel0[s], v[s]);
    }
  }

  /**
   * The loop's final state for a readable row: the run, under the chosen
   * loop condition and step cap, from the recentred start, the converted
   * start velocities and the initial time step.
   */
  function FinalState(env: Env, p: Params, row: SampleRow): (f: State)
    requires ValidEnv(env) && Readable(row) && Sum(ReadMasses(row).value) != 0.0
    ensures |f.x| == 3 && |f.xdot| == 3
  {
    var v := env.spc2xyz(InitialVelocities(env, p, row));
    Run(env, ReadMasses(row).value, p.maxT, p.cond,
        Start(StartPositions(env, row), v, env.initialTimeStep(p.radiusMin, v)), p.maxSteps)
  }

  /**
   * The record holds the loop's final state: its time, step count and
   * outcome, and its positions and velocities converted back.
   */
  predicate RecordsEnd(rec: Record, env: Env, p: Params, row: SampleRow)
    requires ValidEnv(env) && Readable(row) && Sum(ReadMasses(row).value) != 0.0
  {
    var f := FinalState(env, p, row);
    "steps" in rec && rec["steps"] == Count(f.steps) &&
    "runTime" in rec && rec["runTime"] == Num(f.t) &&
    "outcome" in rec && rec["outcome"] == Tag(OutcomeTag(f.collision, f.ejection)) &&
    (forall s: StarIdx, c: nat {:trigger rec[FinalPositionKey(s, c)]} | c < 3 ::
      FinalPositionKey(s, c) in rec && rec[FinalPositionKey(s, c)] == Num(Coord(env.xyz2spc(f.x)[s], c))) &&
    (forall s: StarIdx, c: nat {:trigger rec[FinalVelocityKey(s, c)]} | c < 3 ::
      FinalVelocityKey(s, c) in rec && rec[FinalVelocityKey(s, c)] == Num(Coord(env.xyz2spc(f.xdot)[s], c)))
  }

  /** The record hands back the row it read: start positions, masses and the two sampled angles. */
  predicate CopiesRow(rec: Record, row: SampleRow)
    requires Readable(row)
  {
    (forall s: StarIdx, c: nat {:trigger rec[PositionKey(s, c)]} | c < 3 ::
      PositionKey(s, c) in rec && rec[PositionKey(s, c)] == Num(row[PositionKey(s, c)])) &&
    (forall s: StarIdx {:trigger rec[MassKey(s)]} :: MassKey(s) in rec && rec[MassKey(s)] == Num(row[MassKey(s)])) &&
    (forall n: nat, s: StarIdx {:trigger rec[AngleRecordKey(n, s)]} | n < 2 ::
      AngleRecordKey(n, s) in rec && rec[AngleRecordKey(n, s)] == Num(row[AngleKey(n, s)]))
  }

  /**
   * The record holds the radial speeds drawn from the escape speeds of the
   * recentred start and, when the loop never runs, that start again as the
   * final positions and velocities.
   */
  predicate RecordsStart(rec: Record, env: Env, p: Params, row: SampleRow)
    requires ValidEnv(env) && Readable(row) && Sum(ReadMasses(row).value) != 0.0
  {
    (forall s: StarIdx {:trigger rec[RadialKey(s)]} ::
      RadialKey(s) in rec && rec[RadialKey(s)] == Num(InitialRadialSpeeds(env, p, row)[s])) &&
    (p.cond == AsWritten ==> forall s: StarIdx, c: nat {:trigger rec[FinalPositionKey(s, c)]} | c < 3 ::
      FinalPositionKey(s, c) in rec &&
      rec[FinalPositionKey(s, c)] == Num(Coord(env.xyz2spc(StartPositions(env, row))[s], c))) &&
    (p.cond == AsWritten ==> forall s: StarIdx, c: nat {:trigger rec[FinalVelocityKey(s, c)]} | c < 3 ::
      FinalVelocityKey(s, c) in rec &&
      rec[FinalVelocityKey(s, c)] == Num(Coord(env.xyz2spc(env.spc2xyz(InitialVelocities(env, p, row)))[s], c)))
  }

  /**
   * One scenario from one sample row, up to the record that is appended:
   * the initial values are read by key, the positions converted and
   * recentred, the initial velocities drawn and read, the loop run, and the
   * results filled in key by key.
   */
  method RunScenario(env: Env, p: Params, row: SampleRow, treatment: int, replicate: int)
    returns (r: Result<Record, ScenarioError>)
    requires ValidEnv(env)
    ensures r.Success? <==> Readable(row) && Sum(ReadMasses(row).value) != 0.0
    ensures r.Failure? && r.error.MissingKey? ==> r.error.key !in row
    ensures r.Failure? ==> r.error.MissingKey? || r.error.ZeroTotalMass?
    ensures r.Success? ==> r.value.Keys == RecordKeys()
    ensures r.Success? ==> CopiesRow(r.value, row) && RecordsStart(r.value, env, p, row)
    ensures r.Success? ==> RecordsEnd(r.value, env, p, row)
    ensures r.Success? ==> "treatment" in r.value && r.value["treatment"] == Count(treatment)
    ensures r.Success? ==> "replicate" in r.value && r.value["replicate"] == Count(replicate)
    ensures r.Success? ==> "outcome" in r.value && r.value["outcome"] in {Tag("collision"), Tag("ejection"), Tag("fullRun")}
    ensures r.Success? && p.cond == AsWritten ==>
      "steps" in r.value && r.value["steps"] == Count(0) &&
      "runTime" in r.value && r.value["runTime"] == Num(0.0) &&
      "outcome" in r.value && r.value["outcome"] == Tag("fullRun")
    ensures r.Success? && p.cond == Intended && "outcome" in r.value && r.value["outcome"] == Tag("fullRun") ==>
      ("runTime" in r.value && r.value["runTime"].Num? && r.value["runTime"].r >= p.maxT) ||
      ("steps" in r.value && r.value["steps"] == Count(p.maxSteps))
  {
    var spcRead := ReadPositions(row);
    if spcRead.Failure? {
      return Failure(MissingKey(spcRead.error));
    }
    var spc := spcRead.value;
    var mRead := ReadMasses(row);
    if mRead.Failure? {
      return Failure(MissingKey(mRead.error));
    }
    var m := mRead.value;
    var x0 := env.spc2xyz(spc);
    var cm := Functions.FindCM(x0, m);
    if cm.None? {
      return Failure(ZeroTotalMass);
    }
    var xa := new Vec3[3](i requires 0 <= i < 3 => x0[i]);
    assert xa[..] == x0;
    RecentreInPlace(xa, cm.value);
    var x := xa[..];
    assert x == StartPositions(env, row);
    var escape := Functions.EscapeSpeed(x, m, p.G, env.root);
    assert env.randomRadialSpeed(escape) == InitialRadialSpeeds(env, p, row);
    var velRead := ReadVelocities(row, env.randomRadialSpeed(escape));
    if velRead.Failure? {
      return Failure(MissingKey(velRead.error));
    }
    var vel0 := velRead.value;
    VelocitiesRead(env, p, row, vel0);
    var xdot := env.spc2xyz(vel0);
    var dt := env.initialTimeStep(p.radiusMin, xdot);
    var final := Integrate(env, m, p.maxT, p.cond, x, xdot, dt, p.maxSteps);
    assert final == FinalState(env, p, row);
    var spcT := env.xyz2spc(final.x);
    var velT := env.xyz2spc(final.xdot);
    var d := RecordData(final.t, treatment, replicate, final.steps,
                        OutcomeTag(final.collision, final.ejection), m, spc, spcT, vel0, velT);
    var rec := BuildRecord(d);
    RecordFacts(rec, d);
    RecordStarFacts(rec, d);
    if p.cond == AsWritten {
      AsWrittenLoopNeverRuns(env, m, p.maxT, x, xdot, dt, p.maxSteps);
    } else {
      IntendedEnd(env, m, p.maxT, x, xdot, dt, p.maxSteps);
    }
    r := Success(rec);
  }

  /** What the record holds under the keys the runner's caller looks at. */
  lemma RecordFacts(rec: Record, d: RecordData)
    requires WellShaped(d)
    requires forall c :: Render(c) in rec && rec[Render(c)] == ValueOf(c, d)
    ensures forall s: StarIdx, c: nat | c < 3 ::
      PositionKey(s, c) in rec && rec[PositionKey(s, c)] == Num(Coord(d.spc0[s], c))
    ensures forall s: StarIdx :: MassKey(s) in rec && rec[MassKey(s)] == Num(d.mass[s])
    ensures forall n: nat, s: StarIdx | n < 2 ::
      AngleRecordKey(n, s) in rec &&
      rec[AngleRecordKey(n, s)] == Num(Coord(d.vel0[s], n + 1))
    ensures "runTime" in rec && rec["runTime"] == Num(d.runTime)
    ensures "steps" in rec && rec["steps"] == Count(d.steps)
    ensures "outcome" in rec && rec["outcome"] == Tag(d.outcome)
    ensures "treatment" in rec && rec["treatment"] == Count(d.treatment)
    ensures "replicate" in rec && rec["replicate"] == Count(d.replicate)
  {
    assert Render(RunTime) in rec && rec[Render(RunTime)] == ValueOf(RunTime, d);
    assert Render(Steps) in rec && rec[Render(Steps)] == ValueOf(Steps, d);
    assert Render(Outcome) in rec && rec[Render(Outcome)] == ValueOf(Outcome, d);
    assert Render(Treatment) in rec && rec[Render(Treatment)] == ValueOf(Treatment, d);
    assert Render(Replicate) in rec && rec[Render(Replicate)] == ValueOf(Replicate, d);
    forall s: StarIdx, c: nat | c < 3
      ensures PositionKey(s, c) in rec && rec[PositionKey(s, c)] == Num(Coord(d.spc0[s], c))
    {
      var f := PositionFields[c];
      assert Render(Star(f, s, Initial)) in rec && rec[Render(Star(f, s, Initial))] == ValueOf(Star(f, s, Initial), d);
    }
    forall s: StarIdx
      ensures MassKey(s) in rec && rec[MassKey(s)] == Num(d.mass[s])
    {
      assert Render(Mass(s)) in rec && rec[Render(Mass(s))] == ValueOf(Mass(s), d);
    }
    forall n: nat, s: StarIdx | n < 2
      ensures AngleRecordKey(n, s) in rec &&
        rec[AngleRecordKey(n, s)] == Num(Coord(d.vel0[s], n + 1))
    {
      var f := VelocityFields[n + 1];
      assert Render(Star(f, s, Initial)) in rec && rec[Render(Star(f, s, Initial))] == ValueOf(Star(f, s, Initial), d);
    }
  }

  /** What the record holds under the radial-speed and final-position keys. */
  lemma RecordStarFacts(rec: Record, d: RecordData)
    requires WellShaped(d)
    requires forall c :: Render(c) in rec && rec[Render(c)] == ValueOf(c, d)
    ensures forall s: StarIdx :: RadialKey(s) in rec && rec[RadialKey(s)] == Num(Coord(d.vel0[s], 0))
    ensures forall s: StarIdx, c: nat | c < 3 ::
      FinalPositionKey(s, c) in rec && rec[FinalPositionKey(s, c)] == Num(Coord(d.spcT[s], c))
    ensures forall s: StarIdx, c: nat | c < 3 ::
      FinalVelocityKey(s, c) in rec && rec[FinalVelocityKey(s, c)] == Num(Coord(d.velT[s], c))
  {
    forall s: StarIdx
      ensures RadialKey(s) in rec && rec[RadialKey(s)] == Num(Coord(d.vel0[s], 0))
    {
      assert Render(Star(VelRadial, s, Initial)) in rec && rec[Render(Star(VelRadial, s, Initial))] == ValueOf(Star(VelRadial, s, Initial), d);
    }
    forall s: StarIdx, c: nat | c < 3
      ensures FinalPositionKey(s, c) in rec && rec[FinalPositionKey(s, c)] == Num(Coord(d.spcT[s], c))
    {
      var f := PositionFields[c];
      assert Render(Star(f, s, Final)) in rec && rec[Render(Star(f, s, Final))] == ValueOf(Star(f, s, Final), d);
    }
    forall s: StarIdx, c: nat | c < 3
      ensures FinalVelocityKey(s, c) in rec && rec[FinalVelocityKey(s, c)] == Num(Coord(d.velT[s], c))
    {
      var f := VelocityFields[c];
      assert Render(Star(f, s, Final)) in rec && rec[Render(Star(f, s, Final))] == ValueOf(Star(f, s, Final), d);
    }
  }

  /**
   * Under the intended condition the loop from the start ends on a collision,
   * an ejection, a time at or past `maxT`, or after all `fuel` passes.
   */
  lemma IntendedEnd(env: Env, m: seq<real>, maxT: real, x0: seq<Vec3>, xdot0: seq<Vec3>, dt0: real, fuel: nat)
    requires ValidEnv(env) && |xdot0| == |x0|
    ensures var r := Run(env, m, maxT, Intended, Start(x0, xdot0, dt0), fuel);
      r.collision || r.ejection || r.t >= maxT || r.steps == fuel
  {
    if fuel > 0 {
      var s1 := Step(env, m, maxT, Start(x0, xdot0, dt0));
      IntendedLoopStops(env, m, maxT, s1, fuel - 1);
      IntendedTimeLimit(env, m, maxT, s1, fuel - 1);
    }
  }

  /** `(min, max, count)` for one `np.linspace` grid of the sample space. */
  datatype GridParams = GridParams(min: real, max: real, count: nat)

  /**
   * `sampleSpace_`: theta and phi on `count` points with the maximum left
   * out, the mass on `count` points with both ends; the radius grid, built
   * with `exp` and `log`, is passed in.
   */
  function SampleSpace(radius: seq<real>, theta: GridParams, phi: GridParams, mass: GridParams)
    : (space: map<string, seq<real>>)
    ensures space.Keys == {"radius", "theta", "phi", "mass"}
    ensures space["radius"] == radius
    ensures |space["theta"]| == theta.count && |space["phi"]| == phi.count && |space["mass"]| == mass.count
  {
    map["radius" := radius,
        "theta" := Grids.Linspace(theta.min, theta.max, theta.count, false),
        "phi" := Grids.Linspace(phi.min, phi.max, phi.count, false),
        "mass" := Grids.Linspace(mass.min, mass.max, mass.count, true)]
  }

  /**
   * The theta and phi grids start at their minimum and stay strictly below
   * their maximum; the mass grid runs from its minimum to its maximum.
   */
  lemma SampleSpaceGrids(radius: seq<real>, theta: GridParams, phi: GridParams, mass: GridParams)
    requires theta.min < theta.max && phi.min < phi.max && mass.min <= mass.max
    ensures var space := SampleSpace(radius, theta, phi, mass);
      (forall i :: 0 <= i < theta.count ==> theta.min <= space["theta"][i] < theta.max)
      && (forall i :: 0 <= i < phi.count ==> phi.min <= space["phi"][i] < phi.max)
      && (forall i :: 0 <= i < mass.count ==> mass.min <= space["mass"][i] <= mass.max)
      && (theta.count > 0 ==> space["theta"][0] == theta.min)
      && (phi.count > 0 ==> space["phi"][0] == phi.min)
      && (mass.count >= 2 ==> space["mass"][0] == mass.min && space["mass"][mass.count - 1] == mass.max)
  {
    forall i | 0 <= i < theta.count
      ensures theta.min <= Grids.Linspace(theta.min, theta.max, theta.count, false)[i] < theta.max
    {
      Grids.LinspaceHalfOpen(theta.min, theta.max, theta.count, i);
    }
    forall i | 0 <= i < phi.count
      ensures phi.min <= Grids.Linspace(phi.min, phi.max, phi.count, false)[i] < phi.max
    {
      Grids.LinspaceHalfOpen(phi.min, phi.max, phi.count, i);
    }
    forall i | 0 <= i < mass.count
      ensures mass.min <= Grids.Linspace(mass.min, mass.max, mass.count, true)[i] <= mass.max
    {
      Grids.LinspaceClosedBounds(mass.min, mass.max, mass.count, i);
    }
    if mass.count >= 2 {
      Grids.LinspaceClosedEnds(mass.min, mass.max, mass.count);
    }
  }

  /** `DataFrame.iloc[idx]` on the rows of a table: negative indices count from the end. */
  function ILoc<T>(rows: seq<T>, idx: int): (r: Option<T>)
    ensures r.Some? <==> -|rows| <= idx < |rows|
    ensures r.Some? && 0 <= idx ==> r.value == rows[idx]
    ensures r.Some? && idx < 0 ==> r.value == rows[|rows| + idx]
  {
    if 0 <= idx < |rows| then Some(rows[idx])
    else if -|rows| <= idx < 0 then Some(rows[|rows| + idx])
    else None
  }

  /** Python's `AttributeError`: an attribute was read before anything set it. */
  datatype AttributeError = AttributeError(attribute: string)

  /** The state a `Simulation` keeps between scenarios. */
  class Simulation {
    var sample: seq<SampleRow>
    var sampleRowIdx: int
    var replicateCounter: int
    var sampleSpace: map<string, seq<real>>
    /** `columns_`: set only by a loaded state or a keyword argument, if at all. */
    var columns: Option<seq<string>>
    /** The column labels of `data_`. */
    var dataColumns: seq<string>
    var data: seq<Record>

    /** An instance over a given sample, at a given treatment and replicate, with the data so far. */
    constructor (sample: seq<SampleRow>, sampleRowIdx: int, replicateCounter: int,
                 columns: Option<seq<string>>, dataColumns: seq<string>, data: seq<Record>)
      ensures this.sample == sample && this.sampleRowIdx == sampleRowIdx
      ensures this.replicateCounter == replicateCounter && this.columns == columns
      ensures this.dataColumns == dataColumns && this.data == data
      ensures sampleSpace == map[]
    {
      this.sample := sample;
      this.sampleRowIdx := sampleRowIdx;
      this.replicateCounter := replicateCounter;
      this.sampleSpace := map[];
      this.columns := columns;
      this.dataColumns := dataColumns;
      this.data := data;
    }

    /**
     * `_generateEmptyData`: an empty table with the columns `columns_`; it
     * raises, changing nothing, when that attribute was never set.
     */
    method GenerateEmptyData() returns (raised: Option<AttributeError>)
      modifies this
      ensures raised.Some? <==> columns.None?
      ensures raised.Some? ==> raised.value == AttributeError("columns_")
      ensures columns.Some? ==> data == [] && dataColumns == columns.value
      ensures columns.None? ==> data == old(data) && dataColumns == old(dataColumns)
      ensures sample == old(sample) && sampleRowIdx == old(sampleRowIdx) && columns == old(columns)
      ensures replicateCounter == old(replicateCounter) && sampleSpace == old(sampleSpace)
    {
      if columns.None? {
        return Some(AttributeError("columns_"));
      }
      data, dataColumns := [], columns.value;
      raised := None;
    }

    /** `_generateSampleSpace`: the factor grids replace the previous ones. */
    method GenerateSampleSpace(radius: seq<real>, theta: GridParams, phi: GridParams, mass: GridParams)
      modifies this
      ensures sampleSpace == SampleSpace(radius, theta, phi, mass)
      ensures sample == old(sample) && sampleRowIdx == old(sampleRowIdx)
      ensures replicateCounter == old(replicateCounter) && data == old(data)
      ensures columns == old(columns) && dataColumns == old(dataColumns)
    {
      sampleSpace := SampleSpace(radius, theta, phi, mass);
    }

    /**
     * `_runMonteCarloScenario`: the scenario of the current sample row,
     * appended to `data` as one more record. When the row index is out of
     * range, a column is missing or the mass is zero, nothing changes.
     */
    method RunMonteCarloScenario(env: Env, p: Params) returns (r: Result<Record, ScenarioError>)
      requires ValidEnv(env)
      modifies this
      ensures sample == old(sample) && sampleRowIdx == old(sampleRowIdx)
      ensures replicateCounter == old(replicateCounter) && sampleSpace == old(sampleSpace)
      ensures columns == old(columns) && dataColumns == old(dataColumns)
      ensures r.Success? ==> data == old(data) + [r.value] && r.value.Keys == RecordKeys()
      ensures r.Failure? ==> data == old(data)
      ensures (r.Failure? && r.error.RowOutOfRange?) <==> ILoc(sample, sampleRowIdx).None?
      ensures r.Success? <==>
        (ILoc(sample, sampleRowIdx).Some? && Readable(ILoc(sample, sampleRowIdx).value)
         && Sum(ReadMasses(ILoc(sample, sampleRowIdx).value).value) != 0.0)
      ensures r.Success? ==> CopiesRow(r.value, ILoc(sample, sampleRowIdx).value)
      ensures r.Success? ==> RecordsStart(r.value, env, p, ILoc(sample, sampleRowIdx).value)
      ensures r.Success? ==> RecordsEnd(r.value, env, p, ILoc(sample, sampleRowIdx).value)
      ensures r.Success? ==> "treatment" in r.value && r.value["treatment"] == Count(sampleRowIdx)
      ensures r.Success? ==> "replicate" in r.value && r.value["replicate"] == Count(replicateCounter)
      ensures r.Success? && p.cond == AsWritten ==>
        "steps" in r.value && r.value["steps"] == Count(0) &&
        "runTime" in r.value && r.value["runTime"] == Num(0.0) &&
        "outcome" in r.value && r.value["outcome"] == Tag("fullRun")
      ensures r.Success? && p.cond == Intended && "outcome" in r.value && r.value["outcome"] == Tag("fullRun") ==>
        ("runTime" in r.value && r.value["runTime"].Num? && r.value["runTime"].r >= p.maxT) ||
        ("steps" in r.value && r.value["steps"] == Count(p.maxSteps))
    {
      var row := ILoc(sample, sampleRowIdx);
      if row.None? {
        return Failure(RowOutOfRange(sampleRowIdx, |sample|));
      }
      var rec := RunScenario(env, p, row.value, sampleRowIdx, replicateCounter);
      if rec.Success? {
        data := data + [rec.value];
      }
      r := rec;
    }
  }
}
