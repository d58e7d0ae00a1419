/**
 * The `results` dictionary of one scenario: its values, the outcome tag,
 * and its assembly key by key in the runner's order.
 */
module Records {
  import opened Vectors
  import opened Columns

  /** A record value: a float, an integer count or index, or a tag. */
  datatype Cell = Num(r: real) | Count(n: int) | Tag(text: string)

  type Record = map<string, Cell>

  /** `'collision'` takes priority over `'ejection'`, and `'fullRun'` is the rest. */
  function OutcomeTag(collision: bool, ejection: bool): (tag: string)
    ensures tag == "collision" <==> collision
    ensures tag == "ejection" <==> !collision && ejection
    ensures tag == "fullRun" <==> !collision && !ejection
  {
    if collision then "collision"
    else if ejection then "ejection"
    else "fullRun"
  }

  function Indicator(b: bool): nat
  {
    if b then 1 else 0
  }

  /** Exactly one of the three tags is assigned. */
  lemma OutcomeTagIsOneOfThree(collision: bool, ejection: bool)
    ensures OutcomeTag(collision, ejection) in {"collision", "ejection", "fullRun"}
    ensures Indicator(OutcomeTag(collision, ejection) == "collision")
          + Indicator(OutcomeTag(collision, ejection) == "ejection")
          + Indicator(OutcomeTag(collision, ejection) == "fullRun") == 1
  {
  }

  /** What the runner has at hand when it fills the record. */
  datatype RecordData = RecordData(
    runTime: real, treatment: int, replicate: int, steps: nat, outcome: string,
    mass: seq<real>, spc0: seq<Vec3>, spcT: seq<Vec3>, vel0: seq<Vec3>, velT: seq<Vec3>)

  /** One entry per star in every per-star array. */
  predicate WellShaped(d: RecordData)
  {
    |d.mass| == 3 && |d.spc0| == 3 && |d.spcT| == 3 && |d.vel0| == 3 && |d.velT| == 3
  }

  /** The value the runner writes under a column. */
  function ValueOf(c: Column, d: RecordData): (v: Cell)
    requires WellShaped(d)
    ensures v.Num? <==> c.RunTime? || c.Mass? || c.Star?
    ensures v.Count? <==> c.Treatment? || c.Replicate? || c.Steps?
    ensures v.Tag? <==> c.Outcome?
  {
    match c
    case RunTime => Num(d.runTime)
    case Treatment => Count(d.treatment)
    case Replicate => Count(d.replicate)
    case Steps => Count(d.steps)
    case Outcome => Tag(d.outcome)
    case Mass(s) => Num(d.mass[s])
    case Star(f, s, p) =>
      var rows := if f in PositionFields then (if p == Initial then d.spc0 else d.spcT)
                  else (if p == Initial then d.vel0 else d.velT);
      Num(Coord(rows[s], FieldColumn(f)))
  }

  /**
   * The state after the first `n` of the 44 assignments: `written` holds the
   * columns `0 .. n-1`, their keys are the dictionary's keys, and each holds
   * its column's value.
   */
  ghost predicate Filled(rec: Record, written: set<Column>, n: nat, d: RecordData)
    requires WellShaped(d)
  {
    (forall c :: c in written <==> ColumnIndex(c) < n)
    && rec.Keys == (set c | c in written :: Render(c))
    && (forall c :: c in written ==> rec[Render(c)] == ValueOf(c, d))
  }

  /** Writing column `n` next keeps the other columns' entries, as their keys differ from its key. */
  lemma WriteStep(rec: Record, written: set<Column>, n: nat, col: Column, d: RecordData)
    requires WellShaped(d) && Filled(rec, written, n, d) && ColumnIndex(col) == n
    ensures Filled(rec[Render(col) := ValueOf(col, d)], written + {col}, n + 1, d)
  {
    forall c | ColumnIndex(c) == n
      ensures c == col
    {
      ColumnIndexInjective(c, col);
    }
    forall c | c in written
      ensures Render(c) != Render(col)
    {
      if Render(c) == Render(col) {
        RenderInjective(c, col);
      }
    }
  }

  lemma ColumnIndexInjective(a: Column, b: Column)
    requires ColumnIndex(a) == ColumnIndex(b)
    ensures a == b
  {
    RecordColumnOfColumnIndex(a);
    RecordColumnOfColumnIndex(b);
  }

  /** After all 44 assignments every column is written, under the record keys. */
  lemma FilledComplete(rec: Record, written: set<Column>, d: RecordData)
    requires WellShaped(d) && Filled(rec, written, 44, d)
    ensures rec.Keys == RecordKeys()
    ensures forall c :: Render(c) in rec && rec[Render(c)] == ValueOf(c, d)
  {
    forall c
      ensures c in written
    {
      RecordColumnOfColumnIndex(c);
    }
    forall key | key in RecordKeys()
      ensures key in rec
    {
      var i :| 0 <= i < 44 && key == Render(RecordColumn(i));
      assert RecordColumn(i) in written;
    }
    forall key | key in rec
      ensures key in RecordKeys()
    {
      var c :| c in written && key == Render(c);
      RecordColumnOfColumnIndex(c);
    }
  }

  /** Entry `c` of group `g` of star `s`. */
  function GroupColumn(s: StarIdx, g: nat, c: nat): (col: Column)
    requires g < 4 && c < 3
    ensures ColumnIndex(col) == 5 + 13 * s + 1 + 3 * g + c
  {
    Star(if g < 2 then PositionFields[c] else VelocityFields[c], s, if g % 2 == 0 then Initial else Final)
  }

  /** Group `g` of a star's columns: initial or final, positions or velocities. */
  function GroupRows(d: RecordData, g: nat): seq<Vec3>
    requires g < 4
  {
    [d.spc0, d.spcT, d.vel0, d.velT][g]
  }

  /**
   * One of the runner's four inner loops for star `s`: the three columns of
   * group `g` (initial positions, final positions, initial velocities, final
   * velocities) under the names of that group.
   */
  method AddGroup(d: RecordData, s: StarIdx, g: nat, rec0: Record, ghost written0: set<Column>)
    returns (rec: Record, ghost written: set<Column>)
    requires WellShaped(d) && g < 4 && Filled(rec0, written0, 5 + 13 * s + 1 + 3 * g, d)
    ensures Filled(rec, written, 5 + 13 * s + 1 + 3 * g + 3, d)
  {
    var base := 5 + 13 * s + 1 + 3 * g;
    rec, written := rec0, written0;
    for c := 0 to 3
      invariant Filled(rec, written, base + c, d)
    {
      var column := GroupColumn(s, g, c);
      assert ValueOf(column, d) == Num(Coord(GroupRows(d, g)[s], c));
      WriteStep(rec, written, base + c, column, d);
      rec, written := rec[Render(column) := Num(Coord(GroupRows(d, g)[s], c))], written + {column};
    }
  }

  /** The assignments for star `s`: its mass, then the four groups of three columns. */
  method AddStar(d: RecordData, s: StarIdx, rec0: Record, ghost written0: set<Column>)
    returns (rec: Record, ghost written: set<Column>)
    requires WellShaped(d) && Filled(rec0, written0, 5 + 13 * s, d)
    ensures Filled(rec, written, 5 + 13 * (s + 1), d)
  {
    // column 5 + 13 s: the mass
    WriteStep(rec0, written0, 5 + 13 * s, Mass(s), d);
    rec, written := rec0[Render(Mass(s)) := Num(d.mass[s])], written0 + {Mass(s)};
    // the next twelve columns, three per group
    for g := 0 to 4
      invariant Filled(rec, written, 5 + 13 * s + 1 + 3 * g, d)
    {
      rec, written := AddGroup(d, s, g, rec, written);
    }
  }

  /** The run time and misc columns, then the outcome. */
  method AddScalars(d: RecordData) returns (rec: Record, ghost written: set<Column>)
    requires WellShaped(d)
    ensures Filled(rec, written, 5, d)
  {
    rec, written := map[], {};
    WriteStep(rec, written, 0, RunTime, d);
    rec, written := rec["runTime" := Num(d.runTime)], written + {RunTime};
    WriteStep(rec, written, 1, Treatment, d);
    rec, written := rec["treatment" := Count(d.treatment)], written + {Treatment};
    WriteStep(rec, written, 2, Replicate, d);
    rec, written := rec["replicate" := Count(d.replicate)], written + {Replicate};
    WriteStep(rec, written, 3, Steps, d);
    rec, written := rec["steps" := Count(d.steps)], written + {Steps};
    WriteStep(rec, written, 4, Outcome, d);
    rec, written := rec["outcome" := Tag(d.outcome)], written + {Outcome};
  }

  /**
   * The key-by-key filling of `results`: the five scalar columns, then the
   * columns of each star.
   */
  method BuildRecord(d: RecordData) returns (rec: Record)
    requires WellShaped(d)
    ensures rec.Keys == RecordKeys()
    ensures forall c :: Render(c) in rec && rec[Render(c)] == ValueOf(c, d)
  {
    ghost var written;
    rec, written := AddScalars(d);
    for s := 0 to 3
      invariant Filled(rec, written, 5 + 13 * s, d)
    {
      rec, written := AddStar(d, s, rec, written);
    }
    FilledComplete(rec, written, d);
  }
}
