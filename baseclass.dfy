/**
 * `BaseClass`: attribute injection from a dictionary, the constructor's
 * order of loading, generating and overriding, and the column-name lists.
 */
module BaseClass {
  import opened Wrappers
  import opened Text
  import Functions

  /** An attribute value: what the model needs to tell apart, and anything else. */
  datatype Value =
    | Str(s: string)
    | Flag(b: bool)
    | Number(r: real)
    | NameLists(lists: map<string, seq<string>>)
    | Other(id: int)

  /** Python truthiness of a value. */
  predicate Truthy(v: Value)
  {
    match v
    case Str(s) => s != ""
    case Flag(b) => b
    case Number(r) => r != 0.0
    case NameLists(lists) => |lists| > 0
    case Other(_) => true
  }

  // ---------------------------------------------------------------------------
  // Dictionaries and _dict2attributes
  // ---------------------------------------------------------------------------

  /** A Python dictionary as its items in insertion order. */
  type Dict = seq<(string, Value)>

  /** `d.get(key)`: a later item for the same key replaces an earlier one. */
  function Get(d: Dict, key: string): (r: Option<Value>)
    ensures r.Some? <==> exists i :: 0 <= i < |d| && d[i].0 == key
    ensures r.Some? ==> exists i :: 0 <= i < |d| && d[i] == (key, r.value) && forall j :: i < j < |d| ==> d[j].0 != key
    decreases |d|
  {
    if d == [] then None
    else if d[|d| - 1].0 == key then Some(d[|d| - 1].1)
    else Get(d[..|d| - 1], key)
  }

  /** The attribute name a dictionary key goes to: `key` or, with `addTail`, `key_`. */
  function Tail(key: string, addTail: bool): (name: string)
    ensures addTail ==> name == key + "_"
    ensures !addTail ==> name == key
  {
    if addTail then key + "_" else key
  }

  /** Different keys go to different attributes. */
  lemma TailInjective(a: string, b: string, addTail: bool)
    requires Tail(a, addTail) == Tail(b, addTail)
    ensures a == b
  {
    if addTail {
      assert a == (a + "_")[..|a|];
      assert b == (b + "_")[..|b|];
    }
  }

  /** The attributes after `setattr` of every item of `d`, in order. */
  function Assign(attrs: map<string, Value>, d: Dict, addTail: bool): (r: map<string, Value>)
    ensures d == [] ==> r == attrs
    ensures r.Keys == attrs.Keys + (set i | 0 <= i < |d| :: Tail(d[i].0, addTail))
    decreases |d|
  {
    if d == [] then attrs
    else
      var p := d[..|d| - 1];
      assert forall i :: 0 <= i < |p| ==> p[i] == d[i];
      assert (set i | 0 <= i < |d| :: Tail(d[i].0, addTail))
          == (set i | 0 <= i < |p| :: Tail(p[i].0, addTail)) + {Tail(d[|d| - 1].0, addTail)};
      Assign(attrs, p, addTail)[Tail(d[|d| - 1].0, addTail) := d[|d| - 1].1]
  }

  /** Every key's attribute ends up holding the key's value. */
  lemma {:induction false} AssignGet(attrs: map<string, Value>, d: Dict, addTail: bool, key: string)
    requires Get(d, key).Some?
    ensures Tail(key, addTail) in Assign(attrs, d, addTail)
    ensures Assign(attrs, d, addTail)[Tail(key, addTail)] == Get(d, key).value
    decreases |d|
  {
    var last := d[|d| - 1].0;
    if last != key {
      if Tail(last, addTail) == Tail(key, addTail) {
        TailInjective(last, key, addTail);
      }
      AssignGet(attrs, d[..|d| - 1], addTail, key);
    }
  }

  /** An attribute no key goes to keeps its presence and its value. */
  lemma {:induction false} AssignFrame(attrs: map<string, Value>, d: Dict, addTail: bool, a: string)
    requires forall i :: 0 <= i < |d| ==> Tail(d[i].0, addTail) != a
    ensures a in Assign(attrs, d, addTail) <==> a in attrs
    ensures a in attrs ==> Assign(attrs, d, addTail)[a] == attrs[a]
    decreases |d|
  {
    if d != [] {
      var p := d[..|d| - 1];
      assert forall i :: 0 <= i < |p| ==> p[i] == d[i];
      AssignFrame(attrs, p, addTail, a);
    }
  }

  /** Setting attributes never removes one. */
  lemma {:induction false} AssignGrows(attrs: map<string, Value>, d: Dict, addTail: bool, a: string)
    requires a in attrs
    ensures a in Assign(attrs, d, addTail)
    decreases |d|
  {
    if d != [] {
      AssignGrows(attrs, d[..|d| - 1], addTail, a);
    }
  }

  /** The items of `d` but those for `key`: `d.pop(key)`. */
  function Without(d: Dict, key: string): (r: Dict)
    ensures forall i :: 0 <= i < |r| ==> r[i].0 != key && r[i] in d
    decreases |d|
  {
    if d == [] then []
    else if d[|d| - 1].0 == key then Without(d[..|d| - 1], key)
    else Without(d[..|d| - 1], key) + [d[|d| - 1]]
  }

  /** Popping `key` removes exactly that key. */
  lemma {:induction false} WithoutGet(d: Dict, key: string, other: string)
    ensures Get(Without(d, key), other) == if other == key then None else Get(d, other)
    decreases |d|
  {
    if d != [] {
      WithoutGet(d[..|d| - 1], key, other);
    }
  }

  /** Popping a key that is not there changes nothing. */
  lemma {:induction false} WithoutAbsent(d: Dict, key: string)
    requires Get(d, key).None?
    ensures Without(d, key) == d
    decreases |d|
  {
    if d != [] {
      assert d[|d| - 1].0 != key;
      WithoutAbsent(d[..|d| - 1], key);
      assert d == d[..|d| - 1] + [d[|d| - 1]];
    }
  }

  /** The keyword arguments left once `verbose` and `addTail` are popped. */
  function Rest(kwargs: Dict): (rest: Dict)
    ensures forall i :: 0 <= i < |rest| ==> rest[i].0 != "verbose" && rest[i].0 != "addTail"
  {
    Without(Without(kwargs, "verbose"), "addTail")
  }

  // ---------------------------------------------------------------------------
  // _generateColumnNames
  // ---------------------------------------------------------------------------

  /** The keys of `Input.constantFactors` and `Input.controlFactors`, and `Input.randomFactors`. */
  datatype InputFactors = InputFactors(constant: seq<string>, control: seq<string>, random: seq<string>)

  const DefaultEstimators: seq<string> := ["runTime", "collide", "eject", "survive"]

  const MonteCarlo: seq<string> := ["treatmentN", "monteCarloN"]

  /** The estimators: the positional arguments in order, or the four defaults. */
  function Estimators(args: seq<string>): (e: seq<string>)
    ensures |args| > 0 ==> e == args
    ensures |args| == 0 ==> e == ["runTime", "collide", "eject", "survive"]
  {
    if |args| > 0 then args else DefaultEstimators
  }

  const SimNames: seq<string> := ["pos", "vel"]

  /** `{name}_({star},{coordinate},-1)`. */
  function SimColumn(star: nat, coordinate: nat, nameIdx: nat): (col: string)
    requires 1 <= star <= 3 && coordinate < 3 && nameIdx < 2
    ensures |col| == 12 && col[0] == SimNames[nameIdx][0]
    ensures col[5] == Digit(star) && col[7] == Digit(coordinate)
  {
    SimNames[nameIdx] + "_(" + [Digit(star)] + "," + [Digit(coordinate)] + ",-1)"
  }

  /** The `i`-th appended column: stars outer, coordinates, then `pos`/`vel` inner. */
  function SimColumnAt(i: nat): string
    requires i < 18
  {
    SimColumn(i / 6 + 1, (i % 6) / 2, i % 2)
  }

  /** The `sim` list: `nSteps` followed by the eighteen final-value columns. */
  function SimColumns(): (sim: seq<string>)
    ensures |sim| == 19 && sim[0] == "nSteps"
    ensures forall i :: 1 <= i < 19 ==> |sim[i]| == 12
  {
    ["nSteps"] + seq(18, i requires 0 <= i < 18 => SimColumnAt(i))
  }

  lemma SimIndex(s: nat, c: nat, n: nat)
    requires s < 3 && c < 3 && n < 2
    ensures (6 * s + 2 * c + n) / 6 == s && ((6 * s + 2 * c + n) % 6) / 2 == c && (6 * s + 2 * c + n) % 2 == n
  {
  }

  /** The nested loops appending to `sim`. */
  method BuildSimColumns() returns (sim: seq<string>)
    ensures sim == SimColumns()
  {
    sim := ["nSteps"];
    for starIdx := 1 to 4
      invariant |sim| == 1 + 6 * (starIdx - 1)
      invariant sim[0] == "nSteps" && forall i :: 0 <= i < |sim| - 1 ==> sim[i + 1] == SimColumnAt(i)
    {
      for coordinateIdx := 0 to 3
        invariant |sim| == 1 + 6 * (starIdx - 1) + 2 * coordinateIdx
        invariant sim[0] == "nSteps" && forall i :: 0 <= i < |sim| - 1 ==> sim[i + 1] == SimColumnAt(i)
      {
        for nameIdx := 0 to 2
          invariant |sim| == 1 + 6 * (starIdx - 1) + 2 * coordinateIdx + nameIdx
          invariant sim[0] == "nSteps" && forall i :: 0 <= i < |sim| - 1 ==> sim[i + 1] == SimColumnAt(i)
        {
          SimIndex(starIdx - 1, coordinateIdx, nameIdx);
          sim := sim + [SimColumn(starIdx, coordinateIdx, nameIdx)];
        }
      }
    }
    assert sim == SimColumns();
  }

  /** Two different positions of the appended columns hold different names. */
  lemma SimColumnsDiffer(a: nat, b: nat)
    requires a < 18 && b < 18 && a != b
    ensures SimColumnAt(a) != SimColumnAt(b)
  {
    var ca, cb := SimColumnAt(a), SimColumnAt(b);
    assert a == 6 * (a / 6) + 2 * ((a % 6) / 2) + a % 2;
    assert b == 6 * (b / 6) + 2 * ((b % 6) / 2) + b % 2;
    if a / 6 != b / 6 {
      assert ca[5] != cb[5];
    } else if (a % 6) / 2 != (b % 6) / 2 {
      assert ca[7] != cb[7];
    } else {
      assert ca[0] != cb[0];
    }
  }

  /** `sim` has 19 distinct entries, `nSteps` first. */
  lemma SimColumnsShape()
    ensures |SimColumns()| == 19 && SimColumns()[0] == "nSteps"
    ensures Distinct(SimColumns())
  {
    forall i, j | 0 <= i < j < 19
      ensures SimColumns()[i] != SimColumns()[j]
    {
      SimColumnPairDiffers(i, j);
    }
  }

  /** Two positions of `sim` hold different names. */
  lemma SimColumnPairDiffers(i: nat, j: nat)
    requires i < j < 19
    ensures SimColumns()[i] != SimColumns()[j]
  {
    var sim := SimColumns();
    var b := SimColumnAt(j - 1);
    assert sim[j] == b;
    if i == 0 {
      assert |sim[i]| == 6 && |b| == 12;
    } else {
      assert sim[i] == SimColumnAt(i - 1);
      SimColumnsDiffer(i - 1, j - 1);
    }
  }

  /** The `colNames` dictionary built from the estimators and the `sim` list. */
  function ColumnNameDict(estimators: seq<string>, inputs: InputFactors, sim: seq<string>)
    : (names: map<string, seq<string>>)
    ensures names.Keys == {"all", "constant", "control", "estimators", "monteCarlo", "random", "sample", "sim"}
  {
    map[
      "all" := inputs.constant + inputs.control + estimators + MonteCarlo + inputs.random + sim,
      "constant" := inputs.constant,
      "control" := inputs.control,
      "estimators" := estimators,
      "monteCarlo" := MonteCarlo,
      "random" := inputs.random,
      "sample" := MonteCarlo + inputs.control + estimators,
      "sim" := sim]
  }

  /** The `colNames` dictionary of a construction with positional arguments `args`. */
  function ColumnNames(args: seq<string>, inputs: InputFactors): (names: map<string, seq<string>>)
    ensures names.Keys == {"all", "constant", "control", "estimators", "monteCarlo", "random", "sample", "sim"}
    ensures names["estimators"] == Estimators(args) && names["sim"] == SimColumns()
  {
    ColumnNameDict(Estimators(args), inputs, SimColumns())
  }

  /** `all` is the six groups in order: one entry per column of its parts. */
  lemma ColumnNamesAll(args: seq<string>, inputs: InputFactors)
    ensures var names := ColumnNames(args, inputs);
      |names["all"]| == |inputs.constant| + |inputs.control| + |Estimators(args)| + 2 + |inputs.random| + 19
      && names["all"][..|inputs.constant|] == names["constant"]
      && names["sim"] == SimColumns()
    ensures var names := ColumnNames(args, inputs);
      var a := |inputs.constant|;
      var b := a + |inputs.control|;
      var c := b + |Estimators(args)|;
      var d := c + |MonteCarlo|;
      var e := d + |inputs.random|;
      |names["all"]| == e + |SimColumns()|
      && names["all"][a..b] == names["control"]
      && names["all"][b..c] == names["estimators"]
      && names["all"][c..d] == names["monteCarlo"]
      && names["all"][d..e] == names["random"]
      && names["all"][e..] == names["sim"]
  {
    SimColumnsShape();
    var k, l, et, mc, r, sim := inputs.constant, inputs.control, Estimators(args), MonteCarlo, inputs.random, SimColumns();
    var all := ColumnNames(args, inputs)["all"];
    assert all == k + l + et + mc + r + sim;
    SixSlices(k, l, et, mc, r, sim);
  }

  /** `sample` is the Monte Carlo columns, then the control factors, then the estimators. */
  lemma ColumnNamesSample(args: seq<string>, inputs: InputFactors)
    ensures var names := ColumnNames(args, inputs);
      var a := |MonteCarlo|;
      var b := a + |inputs.control|;
      |names["sample"]| == b + |Estimators(args)|
      && names["sample"][..a] == names["monteCarlo"]
      && names["sample"][a..b] == names["control"]
      && names["sample"][b..] == names["estimators"]
  {
    var mc, l, et := MonteCarlo, inputs.control, Estimators(args);
    assert ColumnNames(args, inputs)["sample"] == mc + l + et;
    assert (mc + l + et)[..|mc|] == mc;
    assert (mc + l + et)[|mc|..|mc| + |l|] == l;
    assert (mc + l + et)[|mc| + |l|..] == et;
  }

  /** Each part of a six-part concatenation is its slice. */
  lemma SixSlices<T>(p1: seq<T>, p2: seq<T>, p3: seq<T>, p4: seq<T>, p5: seq<T>, p6: seq<T>)
    ensures var all := p1 + p2 + p3 + p4 + p5 + p6;
      var a := |p1|;
      var b := a + |p2|;
      var c := b + |p3|;
      var d := c + |p4|;
      var e := d + |p5|;
      all[a..b] == p2 && all[b..c] == p3 && all[c..d] == p4 && all[d..e] == p5 && all[e..] == p6
  {
    var all := p1 + p2 + p3 + p4 + p5 + p6;
    var a := |p1|;
    var b := a + |p2|;
    var c := b + |p3|;
    var d := c + |p4|;
    var e := d + |p5|;
    assert all[a..b] == p2 by { assert forall i :: 0 <= i < |p2| ==> all[a + i] == p2[i]; }
    assert all[b..c] == p3 by { assert forall i :: 0 <= i < |p3| ==> all[b + i] == p3[i]; }
    assert all[c..d] == p4 by { assert forall i :: 0 <= i < |p4| ==> all[c + i] == p4[i]; }
    assert all[d..e] == p5 by { assert forall i :: 0 <= i < |p5| ==> all[d + i] == p5[i]; }
    assert all[e..] == p6 by { assert forall i :: 0 <= i < |p6| ==> all[e + i] == p6[i]; }
  }

  /** Every `sample` column is one of `all`. */
  lemma SampleColumnsInAll(args: seq<string>, inputs: InputFactors, x: string)
    requires x in ColumnNames(args, inputs)["sample"]
    ensures x in ColumnNames(args, inputs)["all"]
  {
    var e := Estimators(args);
    var all := ColumnNames(args, inputs)["all"];
    var tail := MonteCarlo + inputs.random + SimColumns();
    assert all == inputs.constant + inputs.control + e + tail;
    if x in MonteCarlo {
      assert x in tail;
    } else if x in inputs.control {
      assert all == inputs.constant + (inputs.control + e + tail);
    } else {
      assert x in e;
      assert all == (inputs.constant + inputs.control) + (e + tail);
    }
  }

  /** What `_generateColumnNames` adds: `colNames`, and never `factors_`. */
  function WithColumnNames(attrs: map<string, Value>, args: seq<string>, inputs: InputFactors): (r: map<string, Value>)
    ensures r.Keys == attrs.Keys + {"colNames"}
    ensures "factors_" in r <==> "factors_" in attrs
    ensures r["colNames"] == NameLists(ColumnNames(args, inputs))
  {
    attrs["colNames" := NameLists(ColumnNames(args, inputs))]
  }

  // ---------------------------------------------------------------------------
  // __init__
  // ---------------------------------------------------------------------------

  /** `addTail` as `_dict2attributes` reads it from the popped arguments. */
  predicate AddTailOf(kwargs: Dict)
    ensures (forall i :: 0 <= i < |kwargs| ==> kwargs[i].0 != "addTail") ==> !AddTailOf(kwargs)
    ensures AddTailOf(kwargs) <==> Get(kwargs, "addTail").Some? && Truthy(Get(kwargs, "addTail").value)
  {
    Get(kwargs, "addTail").Some? && Truthy(Get(kwargs, "addTail").value)
  }

  /** The attributes after `name_` and `loadState`. */
  function Loaded(name: string, stored: Option<Dict>, addTail: bool): (attrs: map<string, Value>)
    ensures stored.None? ==> attrs == map["name_" := Str(name)]
    ensures attrs.Keys == {"name_"} + (set i | 0 <= i < |Functions.FromPickle(stored)| :: Tail(Functions.FromPickle(stored)[i].0, addTail))
  {
    Assign(map["name_" := Str(name)], Functions.FromPickle(stored), addTail)
  }

  /** After loading: column names only if `factors_` is missing. */
  function Generated(attrs: map<string, Value>, args: seq<string>, inputs: InputFactors): (r: map<string, Value>)
    ensures "factors_" in attrs ==> r == attrs
    ensures "factors_" !in attrs ==> r.Keys == attrs.Keys + {"colNames"} && "factors_" !in r
    ensures forall k | k in attrs && k != "colNames" :: k in r && r[k] == attrs[k]
    ensures "factors_" !in attrs ==> r["colNames"] == NameLists(ColumnNames(args, inputs))
  {
    if "factors_" !in attrs then WithColumnNames(attrs, args, inputs) else attrs
  }

  const SampleIndexError := "IndexError: tuple index out of range"

  /** The attributes at the end of `__init__`, or at the point it raised. */
  datatype Outcome = Outcome(attrs: map<string, Value>, raised: Option<string>)

  /**
   * The constructor's order: loaded state first, then the column names and
   * the sample if missing, then the remaining keyword arguments.
   * `_getSample` is called without arguments and so always raises.
   */
  function Construct(name: string, args: seq<string>, kwargs: Dict,
                     stored: Option<Dict>, inputs: InputFactors): (o: Outcome)
    ensures o.raised.Some? ==> o.raised == Some(SampleIndexError)
    ensures o.raised.None? ==> "sample_" in o.attrs
    ensures "name_" in o.attrs && ("colNames" in o.attrs || "factors_" in o.attrs)
  {
    var addTail := AddTailOf(kwargs);
    var attrs := Generated(Loaded(name, stored, addTail), args, inputs);
    if "sample_" !in attrs then Outcome(attrs, Some(SampleIndexError))
    else Outcome(Assign(attrs, Rest(kwargs), addTail), None)
  }

  /** No remaining keyword argument goes to the attribute of `key`. */
  lemma RestMisses(kwargs: Dict, key: string, addTail: bool)
    requires Get(Rest(kwargs), key).None?
    ensures forall i :: 0 <= i < |Rest(kwargs)| ==> Tail(Rest(kwargs)[i].0, addTail) != Tail(key, addTail)
  {
    var rest := Rest(kwargs);
    forall i | 0 <= i < |rest|
      ensures Tail(rest[i].0, addTail) != Tail(key, addTail)
    {
      if Tail(rest[i].0, addTail) == Tail(key, addTail) {
        TailInjective(rest[i].0, key, addTail);
      }
    }
  }

  /** What `Rest` keeps: every key but the two flags. */
  lemma RestGet(kwargs: Dict, key: string)
    ensures Get(Rest(kwargs), key) == if key == "verbose" || key == "addTail" then None else Get(kwargs, key)
  {
    WithoutGet(Without(kwargs, "verbose"), "addTail", key);
    WithoutGet(kwargs, "verbose", key);
  }

  /** A keyword argument wins over the loaded state and the generated names. */
  lemma KwargsWin(name: string, args: seq<string>, kwargs: Dict,
                  stored: Option<Dict>, inputs: InputFactors, key: string)
    requires Construct(name, args, kwargs, stored, inputs).raised.None?
    requires Get(kwargs, key).Some? && key != "verbose" && key != "addTail"
    ensures var o := Construct(name, args, kwargs, stored, inputs);
      Tail(key, AddTailOf(kwargs)) in o.attrs && o.attrs[Tail(key, AddTailOf(kwargs))] == Get(kwargs, key).value
  {
    var t := AddTailOf(kwargs);
    RestGet(kwargs, key);
    AssignGet(Generated(Loaded(name, stored, t), args, inputs), Rest(kwargs), t, key);
  }

  /**
   * A loaded value survives unless a keyword argument or the regenerated
   * column names land on the same attribute.
   */
  lemma LoadedStateKept(name: string, args: seq<string>, kwargs: Dict,
                        stored: Option<Dict>, inputs: InputFactors, key: string)
    requires Construct(name, args, kwargs, stored, inputs).raised.None?
    requires Get(Functions.FromPickle(stored), key).Some?
    requires Get(Rest(kwargs), key).None?
    requires Tail(key, AddTailOf(kwargs)) != "colNames"
    ensures var o := Construct(name, args, kwargs, stored, inputs);
      Tail(key, AddTailOf(kwargs)) in o.attrs
      && o.attrs[Tail(key, AddTailOf(kwargs))] == Get(Functions.FromPickle(stored), key).value
  {
    var t := AddTailOf(kwargs);
    AssignGet(map["name_" := Str(name)], Functions.FromPickle(stored), t, key);
    RestMisses(kwargs, key, t);
    AssignFrame(Generated(Loaded(name, stored, t), args, inputs), Rest(kwargs), t, Tail(key, t));
  }

  /** Passing `verbose` changes no attribute and no outcome. */
  lemma VerboseIgnored(name: string, args: seq<string>, kwargs: Dict,
                       stored: Option<Dict>, inputs: InputFactors, v: Value)
    ensures Construct(name, args, kwargs + [("verbose", v)], stored, inputs)
         == Construct(name, args, kwargs, stored, inputs)
  {
    var k2 := kwargs + [("verbose", v)];
    assert k2[..|k2| - 1] == kwargs;
    assert Get(k2, "addTail") == Get(kwargs, "addTail");
    assert Without(k2, "verbose") == Without(kwargs, "verbose");
  }

  /** The popped flags are not set from the keyword arguments. */
  lemma PoppedFlagsNotApplied(name: string, args: seq<string>, kwargs: Dict,
                              stored: Option<Dict>, inputs: InputFactors, flag: string)
    requires flag == "verbose" || flag == "addTail"
    ensures var t := AddTailOf(kwargs);
      var before := Generated(Loaded(name, stored, t), args, inputs);
      var o := Construct(name, args, kwargs, stored, inputs);
      (Tail(flag, t) in o.attrs <==> Tail(flag, t) in before)
      && (Tail(flag, t) in before ==> o.attrs[Tail(flag, t)] == before[Tail(flag, t)])
  {
    var t := AddTailOf(kwargs);
    RestGet(kwargs, flag);
    RestMisses(kwargs, flag, t);
    AssignFrame(Generated(Loaded(name, stored, t), args, inputs), Rest(kwargs), t, Tail(flag, t));
  }

  /**
   * The constructor raises exactly when no loaded key lands on `sample_`;
   * with no saved state it always raises.
   */
  lemma SampleGuard(name: string, args: seq<string>, kwargs: Dict,
                    stored: Option<Dict>, inputs: InputFactors)
    ensures var state := Functions.FromPickle(stored);
      (Construct(name, args, kwargs, stored, inputs).raised.Some?
       <==> forall i :: 0 <= i < |state| ==> Tail(state[i].0, AddTailOf(kwargs)) != "sample_")
    ensures stored.None? ==> Construct(name, args, kwargs, stored, inputs).raised == Some(SampleIndexError)
  {
    var t := AddTailOf(kwargs);
    var state := Functions.FromPickle(stored);
    if i :| 0 <= i < |state| && Tail(state[i].0, t) == "sample_" {
      AssignGet(map["name_" := Str(name)], state, t, state[i].0);
    } else {
      AssignFrame(map["name_" := Str(name)], state, t, "sample_");
    }
  }

  /**
   * `_generateColumnNames` never sets `factors_`, so unless a loaded key or
   * a keyword argument supplies it, the saved attributes lack it and the next
   * construction from them regenerates the column names.
   */
  lemma FactorsGuardStaysOpen(name: string, args: seq<string>, kwargs: Dict,
                              stored: Option<Dict>, inputs: InputFactors)
    requires var state := Functions.FromPickle(stored);
      forall i :: 0 <= i < |state| ==> Tail(state[i].0, AddTailOf(kwargs)) != "factors_"
    requires forall i :: 0 <= i < |Rest(kwargs)| ==> Tail(Rest(kwargs)[i].0, AddTailOf(kwargs)) != "factors_"
    ensures var o := Construct(name, args, kwargs, stored, inputs);
      "factors_" !in o.attrs && "colNames" in o.attrs
  {
    var t := AddTailOf(kwargs);
    AssignFrame(map["name_" := Str(name)], Functions.FromPickle(stored), t, "factors_");
    var g := Generated(Loaded(name, stored, t), args, inputs);
    assert "colNames" in g && "factors_" !in g;
    AssignFrame(g, Rest(kwargs), t, "factors_");
    AssignGrows(g, Rest(kwargs), t, "colNames");
  }

  // ---------------------------------------------------------------------------
  // The object
  // ---------------------------------------------------------------------------

  /** An instance's `__dict__`. */
  class BaseClass {
    var attrs: map<string, Value>

    /** A new, empty instance, before `__init__` runs. */
    constructor ()
      ensures attrs == map[]
    {
      attrs := map[];
    }

    /** `_dict2attributes`: `setattr` for every item, in order. */
    method Dict2Attributes(dictionary: Dict, addTail: bool)
      modifies this
      ensures attrs == Assign(old(attrs), dictionary, addTail)
    {
      if |dictionary| > 0 {
        for i := 0 to |dictionary|
          invariant attrs == Assign(old(attrs), dictionary[..i], addTail)
        {
          var (key, value) := dictionary[i];
          assert dictionary[..i + 1][..i] == dictionary[..i];
          if addTail {
            attrs := attrs[key + "_" := value];
          } else {
            attrs := attrs[key := value];
          }
        }
        assert dictionary[..|dictionary|] == dictionary;
      }
    }

    /** `loadState`: the saved dictionary, or `{}`, injected as attributes. */
    method LoadState(stored: Option<Dict>, addTail: bool)
      modifies this
      ensures attrs == Assign(old(attrs), Functions.FromPickle(stored), addTail)
    {
      var state := Functions.FromPickle(stored);
      Dict2Attributes(state, addTail);
    }

    /** `_generateColumnNames`: builds `sim` and sets `colNames`. */
    method GenerateColumnNames(args: seq<string>, inputs: InputFactors)
      modifies this
      ensures attrs == WithColumnNames(old(attrs), args, inputs)
    {
      var estimators := Estimators(args);
      var sim := BuildSimColumns();
      attrs := attrs["colNames" := NameLists(ColumnNameDict(estimators, inputs, sim))];
    }

    /** `kwargs.pop` of `verbose` and `addTail` into `kwargs1`. */
    static method PopFlags(kwargs: Dict) returns (kwargs1: Dict, rest: Dict)
      ensures rest == Rest(kwargs)
      ensures Get(kwargs1, "addTail") == Get(kwargs, "addTail")
      ensures Get(kwargs1, "verbose") == Get(kwargs, "verbose")
    {
      kwargs1, rest := [], kwargs;
      if Get(rest, "verbose").Some? {
        kwargs1 := kwargs1 + [("verbose", Get(rest, "verbose").value)];
        rest := Without(rest, "verbose");
      } else {
        WithoutAbsent(rest, "verbose");
      }
      WithoutGet(kwargs, "verbose", "addTail");
      if Get(rest, "addTail").Some? {
        kwargs1 := kwargs1 + [("addTail", Get(rest, "addTail").value)];
        rest := Without(rest, "addTail");
      } else {
        WithoutAbsent(rest, "addTail");
      }
    }

    /**
     * `__init__` on a new instance: `name_`, the popped flags,
     * `loadState`, the two guarded generators and the overriding keyword
     * arguments.
     */
    method Init(name: string, args: seq<string>, kwargs: Dict,
                stored: Option<Dict>, inputs: InputFactors)
      returns (raised: Option<string>)
      requires attrs == map[]
      modifies this
      ensures attrs == Construct(name, args, kwargs, stored, inputs).attrs
      ensures raised == Construct(name, args, kwargs, stored, inputs).raised
    {
      attrs := map["name_" := Str(name)];
      var kwargs1, rest := PopFlags(kwargs);
      var addTail := Get(kwargs1, "addTail").Some? && Truthy(Get(kwargs1, "addTail").value);
      LoadState(stored, addTail);
      if "factors_" !in attrs {
        GenerateColumnNames(args, inputs);
      }
      if "sample_" !in attrs {
        return Some(SampleIndexError);
      }
      Dict2Attributes(rest, addTail);
      raised := None;
    }
  }
}
