/**
 * The names of the columns of one scenario record: five scalar columns and,
 * for each of the three stars, its mass and the initial and final spherical
 * positions and velocities. Names follow the f-strings of the runner,
 * `mass_(s)` and `<field>_(s,0)` or `<field>_(s,-1)`.
 */
module Columns {
  import opened Wrappers
  import opened Text

  /** Star indices 0, 1 and 2. */
  type StarIdx = s: nat | s < 3

  datatype Field = Radius | Theta | Phi | VelRadial | VelPolar | VelAzimuthal

  /** `0` marks an initial value, `-1` the value after the last step. */
  datatype Phase = Initial | Final

  datatype Column =
    | RunTime | Treatment | Replicate | Steps | Outcome
    | Mass(star: StarIdx)
    | Star(field: Field, star: StarIdx, phase: Phase)

  /** The columns of a spherical position and of a spherical velocity, in array order. */
  const PositionFields: seq<Field> := [Radius, Theta, Phi]
  const VelocityFields: seq<Field> := [VelRadial, VelPolar, VelAzimuthal]

  /** The array column a field is stored in. */
  function FieldColumn(f: Field): (c: nat)
    ensures c < 3
    ensures f in PositionFields ==> PositionFields[c] == f
    ensures f in VelocityFields ==> VelocityFields[c] == f
  {
    match f
    case Radius => 0
    case Theta => 1
    case Phi => 2
    case VelRadial => 0
    case VelPolar => 1
    case VelAzimuthal => 2
  }

  function FieldName(f: Field): string
  {
    match f
    case Radius => "radius"
    case Theta => "theta"
    case Phi => "phi"
    case VelRadial => "velRadial"
    case VelPolar => "velPolar"
    case VelAzimuthal => "velAzimuthal"
  }

  function PhaseText(p: Phase): string
  {
    match p
    case Initial => "0"
    case Final => "-1"
  }

  /**
   * The dictionary key the runner writes for a column. A per-star key has
   * its `_` right after the mass or field name and the star's digit two
   * places later.
   */
  function Render(c: Column): (key: string)
    ensures c.Mass? ==> |key| == 8 && key[4] == '_' && key[6] == Digit(c.star)
    ensures c.Star? ==> var n := |FieldName(c.field)|; |key| > n + 2 && key[n] == '_' && key[n + 2] == Digit(c.star)
  {
    match c
    case RunTime => "runTime"
    case Treatment => "treatment"
    case Replicate => "replicate"
    case Steps => "steps"
    case Outcome => "outcome"
    case Mass(s) => "mass_(" + [Digit(s)] + ")"
    case Star(f, s, p) => FieldName(f) + StarTail(s, p)
  }

  /** The sample-row key `f"{name}_({s},0)"` the runner reads an initial value from. */
  function SampleKey(name: string, s: StarIdx): (key: string)
    ensures key == name + "_(" + [Digit(s)] + ",0)"
  {
    name + "_(" + [Digit(s)] + ",0)"
  }

  /** The initial-value column of a field is written under the key it is read from. */
  lemma InitialColumnIsSampleKey(f: Field, s: StarIdx)
    ensures Render(Star(f, s, Initial)) == SampleKey(FieldName(f), s)
  {
    assert FieldName(f) + "_(" + [Digit(s)] + "," + "0" + ")" == FieldName(f) + "_(" + [Digit(s)] + ",0)";
  }

  // ---------------------------------------------------------------------------
  // Reading a key back
  // ---------------------------------------------------------------------------

  /** The index of the first `_` in `s`, or `|s|` when there is none. */
  function UnderscoreAt(s: string): (k: nat)
    ensures k <= |s|
    ensures forall i :: 0 <= i < k ==> s[i] != '_'
    ensures k < |s| ==> s[k] == '_'
  {
    if s == [] then 0
    else if s[0] == '_' then 0
    else 1 + UnderscoreAt(s[1..])
  }

  function ScalarNamed(key: string): Option<Column>
  {
    if key == "runTime" then Some(RunTime)
    else if key == "treatment" then Some(Treatment)
    else if key == "replicate" then Some(Replicate)
    else if key == "steps" then Some(Steps)
    else if key == "outcome" then Some(Outcome)
    else None
  }

  function FieldNamed(name: string): (r: Option<Field>)
    ensures r.Some? ==> FieldName(r.value) == name
  {
    if name == "radius" then Some(Radius)
    else if name == "theta" then Some(Theta)
    else if name == "phi" then Some(Phi)
    else if name == "velRadial" then Some(VelRadial)
    else if name == "velPolar" then Some(VelPolar)
    else if name == "velAzimuthal" then Some(VelAzimuthal)
    else None
  }

  function PhaseNamed(text: string): (r: Option<Phase>)
    ensures r.Some? ==> PhaseText(r.value) == text
  {
    if text == "0" then Some(Initial) else if text == "-1" then Some(Final) else None
  }

  /** The column a record key names, if it names one. */
  function Parse(key: string): Option<Column>
  {
    var k := UnderscoreAt(key);
    if k == |key| then ScalarNamed(key)
    else
      var head := key[..k];
      var tail := key[k..];
      if |tail| < 4 || tail[1] != '(' || !('0' <= tail[2] <= '9') || tail[|tail| - 1] != ')' then None
      else
        var s := tail[2] as int - '0' as int;
        if s >= 3 then None
        else if head == "mass" then (if |tail| == 4 then Some(Mass(s)) else None)
        else if tail[3] != ',' then None
        else
          match (FieldNamed(head), PhaseNamed(tail[4..|tail| - 1]))
          case (Some(f), Some(p)) => Some(Star(f, s, p))
          case _ => None
  }

  /** Cutting at the first `_` of `head + tail` gives back `head`, when only `tail` has one. */
  lemma UnderscoreAtJoin(head: string, tail: string)
    requires forall i :: 0 <= i < |head| ==> head[i] != '_'
    requires |tail| > 0 && tail[0] == '_'
    ensures UnderscoreAt(head + tail) == |head|
    ensures (head + tail)[..|head|] == head && (head + tail)[|head|..] == tail
  {
    assert (head + tail)[|head|] == '_';
  }

  /** The part of a star key from the `_` on. */
  function StarTail(s: StarIdx, p: Phase): (tail: string)
    ensures |tail| == 5 + |PhaseText(p)| && tail[0] == '_' && tail[1] == '(' && tail[2] == Digit(s)
    ensures tail[3] == ',' && tail[|tail| - 1] == ')' && tail[4..|tail| - 1] == PhaseText(p)
  {
    "_(" + [Digit(s)] + "," + PhaseText(p) + ")"
  }

  lemma FieldNameHasNoUnderscore(f: Field)
    ensures forall i :: 0 <= i < |FieldName(f)| ==> FieldName(f)[i] != '_'
    ensures FieldName(f) != "mass" && FieldNamed(FieldName(f)) == Some(f)
  {
  }

  lemma ParseStar(f: Field, s: StarIdx, p: Phase)
    ensures Parse(Render(Star(f, s, p))) == Some(Star(f, s, p))
  {
    assert Render(Star(f, s, p)) == FieldName(f) + StarTail(s, p);
    ParseStarKey(f, s, p);
  }

  /** A field name followed by a star tail reads back as that star column. */
  lemma ParseStarKey(f: Field, s: StarIdx, p: Phase)
    ensures Parse(FieldName(f) + StarTail(s, p)) == Some(Star(f, s, p))
  {
    var tail := StarTail(s, p);
    var key := FieldName(f) + tail;
    FieldNameHasNoUnderscore(f);
    UnderscoreAtJoin(FieldName(f), tail);
    var h, t := ParseSplit(key);
    assert h == FieldName(f) && t == tail;
    assert |t| >= 4 && t[1] == '(' && '0' <= t[2] <= '9' && t[|t| - 1] == ')' && t[3] == ',';
    assert t[2] as int - '0' as int == s;
    assert h != "mass" && FieldNamed(h) == Some(f);
    assert PhaseNamed(t[4..|t| - 1]) == Some(p);
  }

  lemma ParseMass(s: StarIdx)
    ensures Parse(Render(Mass(s))) == Some(Mass(s))
  {
    var tail := "_(" + [Digit(s)] + ")";
    assert Render(Mass(s)) == "mass" + tail;
    UnderscoreAtJoin("mass", tail);
  }

  /** Every record key reads back as the column it was written for. */
  lemma ParseRender(c: Column)
    ensures Parse(Render(c)) == Some(c)
  {
    match c
    case Mass(s) => ParseMass(s);
    case Star(f, s, p) => ParseStar(f, s, p);
    case _ => ParseScalar(c);
  }

  lemma ParseScalar(c: Column)
    requires !c.Mass? && !c.Star?
    ensures Parse(Render(c)) == Some(c)
  {
    var key := Render(c);
    assert forall i :: 0 <= i < |key| ==> key[i] != '_';
    assert UnderscoreAt(key) == |key|;
  }

  lemma ScalarNamedRender(key: string)
    requires ScalarNamed(key).Some?
    ensures Render(ScalarNamed(key).value) == key
  {
  }

  /** A tail `_(d,...)` is rebuilt from its digit and the text between `,` and `)`. */
  lemma TailShape(tail: string, withPhase: bool)
    requires |tail| >= 4 && tail[0] == '_' && tail[1] == '(' && tail[|tail| - 1] == ')'
    requires withPhase ==> tail[3] == ','
    requires !withPhase ==> |tail| == 4
    ensures withPhase ==> tail == "_(" + [tail[2]] + "," + tail[4..|tail| - 1] + ")"
    ensures !withPhase ==> tail == "_(" + [tail[2]] + ")"
  {
    if withPhase {
      var t := "_(" + [tail[2]] + "," + tail[4..|tail| - 1] + ")";
      assert |t| == |tail|;
      forall i | 0 <= i < |tail|
        ensures t[i] == tail[i]
      {
        if 4 <= i < |tail| - 1 {
          assert t[i] == tail[4..|tail| - 1][i - 4];
        }
      }
    }
  }

  /** `Parse` on a key with a `_`, in the terms of the part before it and the rest. */
  lemma ParseSplit(key: string) returns (head: string, tail: string)
    requires UnderscoreAt(key) < |key|
    ensures key == head + tail && head == key[..UnderscoreAt(key)] && tail == key[UnderscoreAt(key)..]
    ensures |tail| > 0 && tail[0] == '_'
    ensures Parse(key) ==
      if |tail| < 4 || tail[1] != '(' || !('0' <= tail[2] <= '9') || tail[|tail| - 1] != ')' then None
      else if tail[2] as int - '0' as int >= 3 then None
      else if head == "mass" then (if |tail| == 4 then Some(Mass(tail[2] as int - '0' as int)) else None)
      else if tail[3] != ',' then None
      else
        match (FieldNamed(head), PhaseNamed(tail[4..|tail| - 1]))
        case (Some(f), Some(p)) => Some(Star(f, tail[2] as int - '0' as int, p))
        case _ => None
  {
    head := key[..UnderscoreAt(key)];
    tail := key[UnderscoreAt(key)..];
  }

  lemma RenderParseMass(head: string, tail: string)
    requires head == "mass" && |tail| == 4 && tail[0] == '_' && tail[1] == '(' && tail[3] == ')'
    requires '0' <= tail[2] <= '2'
    ensures Render(Mass(tail[2] as int - '0' as int)) == head + tail
  {
    TailShape(tail, false);
    assert Digit(tail[2] as int - '0' as int) == tail[2];
  }

  lemma RenderParseStar(head: string, tail: string, f: Field, p: Phase)
    requires FieldName(f) == head && |tail| >= 4 && tail[0] == '_' && tail[1] == '(' && tail[3] == ','
    requires tail[|tail| - 1] == ')' && '0' <= tail[2] <= '2' && PhaseText(p) == tail[4..|tail| - 1]
    ensures Render(Star(f, tail[2] as int - '0' as int, p)) == head + tail
  {
    TailShape(tail, true);
    assert Digit(tail[2] as int - '0' as int) == tail[2];
  }

  /** A key that reads back as a column is that column's key. */
  lemma RenderParse(key: string)
    requires Parse(key).Some?
    ensures Render(Parse(key).value) == key
  {
    if UnderscoreAt(key) == |key| {
      ScalarNamedRender(key);
    } else {
      var head, tail := ParseSplit(key);
      if head == "mass" {
        RenderParseMass(head, tail);
      } else {
        var f := FieldNamed(head).value;
        var p := PhaseNamed(tail[4..|tail| - 1]).value;
        RenderParseStar(head, tail, f, p);
      }
    }
  }

  /** Different columns have different keys. */
  lemma RenderInjective(a: Column, b: Column)
    requires Render(a) == Render(b)
    ensures a == b
  {
    ParseRender(a);
    ParseRender(b);
  }

  // ---------------------------------------------------------------------------
  // The record's columns, in the order the runner writes them
  // ---------------------------------------------------------------------------

  /** Entry `k` of the 13 columns written for star `s`: mass, then four groups of three. */
  function StarColumn(s: StarIdx, k: nat): Column
    requires k < 13
  {
    if k == 0 then Mass(s)
    else
      var g := (k - 1) / 3;
      var c := (k - 1) % 3;
      var phase := if g % 2 == 0 then Initial else Final;
      var f := if g < 2 then PositionFields[c] else VelocityFields[c];
      Star(f, s, phase)
  }

  /** Column `i` of the 44, in insertion order. */
  function RecordColumn(i: nat): Column
    requires i < 44
  {
    if i < 5 then [RunTime, Treatment, Replicate, Steps, Outcome][i]
    else StarColumn((i - 5) / 13, (i - 5) % 13)
  }

  /** The position of a column in the record, inverting `RecordColumn`. */
  function ColumnIndex(c: Column): nat
  {
    match c
    case RunTime => 0
    case Treatment => 1
    case Replicate => 2
    case Steps => 3
    case Outcome => 4
    case Mass(s) => 5 + 13 * s
    case Star(f, s, p) =>
      var group := (if f in PositionFields then 0 else 2) + (if p == Initial then 0 else 1);
      5 + 13 * s + 1 + 3 * group + FieldColumn(f)
  }

  lemma ColumnIndexOfRecordColumn(i: nat)
    requires i < 44
    ensures ColumnIndex(RecordColumn(i)) == i
  {
    if i >= 5 {
      var s := (i - 5) / 13;
      var k := (i - 5) % 13;
      assert i == 5 + 13 * s + k;
      if k > 0 {
        var g := (k - 1) / 3;
        assert k == 1 + 3 * g + (k - 1) % 3;
      }
    }
  }

  /** Every record column is one of the 44 in the list. */
  lemma RecordColumnOfColumnIndex(c: Column)
    ensures ColumnIndex(c) < 44 && RecordColumn(ColumnIndex(c)) == c
  {
    match c
    case Mass(s) =>
      StarOffset(s, 0);
    case Star(f, s, p) =>
      RecordColumnOfStar(f, s, p);
    case _ =>
  }

  lemma RecordColumnOfStar(f: Field, s: StarIdx, p: Phase)
    ensures ColumnIndex(Star(f, s, p)) < 44 && RecordColumn(ColumnIndex(Star(f, s, p))) == Star(f, s, p)
  {
    var g := (if f in PositionFields then 0 else 2) + (if p == Initial then 0 else 1);
    var col := FieldColumn(f);
    var k := 1 + 3 * g + col;
    var i := ColumnIndex(Star(f, s, p));
    assert i == 5 + 13 * s + k;
    StarOffset(s, k);
    assert RecordColumn(i) == StarColumn(s, k);
    StarColumnOfGroup(s, g, col);
    assert (if g < 2 then PositionFields[col] else VelocityFields[col]) == f;
  }

  /** Entry `1 + 3g + col` of a star's columns is field `col` of group `g`. */
  lemma StarColumnOfGroup(s: StarIdx, g: nat, col: nat)
    requires g < 4 && col < 3
    ensures StarColumn(s, 1 + 3 * g + col)
         == Star(if g < 2 then PositionFields[col] else VelocityFields[col], s, if g % 2 == 0 then Initial else Final)
  {
    GroupOffset(g, col);
  }

  lemma StarOffset(s: StarIdx, k: nat)
    requires k < 13
    ensures (5 + 13 * s + k - 5) / 13 == s && (5 + 13 * s + k - 5) % 13 == k
  {
  }

  lemma GroupOffset(g: nat, col: nat)
    requires g < 4 && col < 3
    ensures (1 + 3 * g + col - 1) / 3 == g && (1 + 3 * g + col - 1) % 3 == col
  {
  }

  /** The set of keys of a scenario record. */
  function RecordKeys(): set<string>
  {
    set i | 0 <= i < 44 :: Render(RecordColumn(i))
  }

  /** The record has 5 scalar keys and 13 per star, 44 distinct keys in all. */
  lemma RecordKeyCount()
    ensures |RecordKeys()| == 44
  {
    var keys := seq(44, i requires 0 <= i < 44 => Render(RecordColumn(i)));
    forall i, j | 0 <= i < j < 44
      ensures keys[i] != keys[j]
    {
      if keys[i] == keys[j] {
        RenderInjective(RecordColumn(i), RecordColumn(j));
        ColumnIndexOfRecordColumn(i);
        ColumnIndexOfRecordColumn(j);
      }
    }
    DistinctCard(keys);
    assert (set x | x in keys) == RecordKeys() by {
      forall x | x in RecordKeys()
        ensures x in keys
      {
        var i :| 0 <= i < 44 && x == Render(RecordColumn(i));
        assert keys[i] == x;
      }
    }
  }

  /** A key is a record key exactly when it reads back as a column. */
  lemma RecordKeysAreTheColumnKeys(key: string)
    ensures key in RecordKeys() <==> Parse(key).Some?
  {
    if key in RecordKeys() {
      var i :| 0 <= i < 44 && key == Render(RecordColumn(i));
      ParseRender(RecordColumn(i));
    }
    if Parse(key).Some? {
      var c := Parse(key).value;
      RenderParse(key);
      RecordColumnOfColumnIndex(c);
    }
  }
}
