/** The recorder: which variables a simulation result holds, its column layout, and one
    row per sampled time point. */
module Recording {
  import opened Optional
  import opened Description
  import opened Fmi

  /** The column types of the result (`np.float64`, `np.int32`). */
  datatype DType = Float64 | Int32
  datatype Column = Column(name: string, dtype: DType)

  /** One cell of a row. */
  datatype Value = Float(r: real) | Int(i: int) | Bool(b: bool)
  type Row = seq<Value>

  /** A variable is recorded when no output list is given and its causality is `output`,
      or when its name is in the given list. */
  predicate Recorded(v: ScalarVariable, output: Option<seq<string>>)
  {
    (output.None? && v.causality == "output") || (output.Some? && v.name in output.value)
  }

  /** The group a variable's values are read with: Enumerations are read as Integers. */
  function Group(t: VariableType): VariableType
  {
    if t == Enumeration then Integer else t
  }

  /** The recorded variables of group `g`, in the order of the model description. */
  function Select(vars: seq<ScalarVariable>, output: Option<seq<string>>, g: VariableType)
    : (sel: seq<ScalarVariable>)
    ensures |sel| <= |vars|
  {
    if vars == [] then []
    else
      (if Recorded(vars[0], output) && Group(vars[0].vtype) == g then [vars[0]] else [])
      + Select(vars[1..], output, g)
  }

  /** A variable is selected into group `g` exactly when it is recorded and read with `g`. */
  lemma {:induction false} SelectMembers(vars: seq<ScalarVariable>, output: Option<seq<string>>,
                                         g: VariableType)
    ensures forall v :: v in Select(vars, output, g) <==> v in vars && Recorded(v, output) && Group(v.vtype) == g
  {
    if vars != [] {
      SelectMembers(vars[1..], output, g);
      assert vars == [vars[0]] + vars[1..];
    }
  }

  /** Selection keeps the order of the model description: it distributes over concatenation. */
  lemma {:induction false} SelectAppend(a: seq<ScalarVariable>, b: seq<ScalarVariable>,
                                        output: Option<seq<string>>, g: VariableType)
    ensures Select(a + b, output, g) == Select(a, output, g) + Select(b, output, g)
  {
    if a == [] {
      assert a + b == b;
    } else {
      assert (a + b)[1..] == a[1..] + b;
      SelectAppend(a[1..], b, output, g);
    }
  }

  lemma SelectSnoc(vars: seq<ScalarVariable>, i: nat, output: Option<seq<string>>, g: VariableType)
    requires i < |vars|
    ensures Select(vars[..i + 1], output, g) == Select(vars[..i], output, g) +
      (if Recorded(vars[i], output) && Group(vars[i].vtype) == g then [vars[i]] else [])
  {
    assert vars[..i + 1] == vars[..i] + [vars[i]];
    SelectAppend(vars[..i], [vars[i]], output, g);
    assert [vars[i]][1..] == [];
  }

  /** The recorded variables by group (`self.values`, less the String group, which is
      collected but never read). */
  datatype Layout = Layout(reals: seq<ScalarVariable>, integers: seq<ScalarVariable>,
                           booleans: seq<ScalarVariable>)

  function LayoutOf(vars: seq<ScalarVariable>, output: Option<seq<string>>): Layout
  {
    Layout(Select(vars, output, Real), Select(vars, output, Integer), Select(vars, output, Boolean))
  }

  function ValueReferences(vars: seq<ScalarVariable>): (vrs: seq<nat>)
    ensures |vrs| == |vars| && forall i :: 0 <= i < |vars| ==> vrs[i] == vars[i].valueReference
  {
    seq(|vars|, i requires 0 <= i < |vars| => vars[i].valueReference)
  }

  function NamedColumns(vars: seq<ScalarVariable>, t: DType): (cols: seq<Column>)
    ensures |cols| == |vars| && forall i :: 0 <= i < |vars| ==> cols[i] == Column(vars[i].name, t)
  {
    seq(|vars|, i requires 0 <= i < |vars| => Column(vars[i].name, t))
  }

  /** `time`, then the Real, Integer and Boolean variables. */
  function Columns(l: Layout): seq<Column>
  {
    [Column("time", Float64)] + NamedColumns(l.reals, Float64) + NamedColumns(l.integers, Int32)
    + NamedColumns(l.booleans, Int32)
  }

  /** One variable's membership in a group, by `SelectMembers`. */
  lemma SelectMember(vars: seq<ScalarVariable>, output: Option<seq<string>>, g: VariableType,
                     v: ScalarVariable)
    ensures v in Select(vars, output, g) <==> v in vars && Recorded(v, output) && Group(v.vtype) == g
  {
    SelectMembers(vars, output, g);
  }

  /** The column at position `k` of a layout: `time`, then the groups one after another. */
  lemma ColumnAt(l: Layout, k: nat)
    ensures var nr, ni := |l.reals|, |l.integers|;
      |Columns(l)| == 1 + nr + ni + |l.booleans| &&
      (1 <= k < |Columns(l)| ==>
        Columns(l)[k] == if k < 1 + nr then Column(l.reals[k - 1].name, Float64)
                         else if k < 1 + nr + ni then Column(l.integers[k - 1 - nr].name, Int32)
                         else Column(l.booleans[k - 1 - nr - ni].name, Int32))
  {
    var a, b, c := NamedColumns(l.reals, Float64), NamedColumns(l.integers, Int32),
                   NamedColumns(l.booleans, Int32);
    assert Columns(l) == [Column("time", Float64)] + a + b + c;
  }

  /** Every column after `time` is named after a recorded variable of a matching group
      (Float64 exactly for the Real group; never a String). */
  lemma ColumnsComeFromSelection(vars: seq<ScalarVariable>, output: Option<seq<string>>, k: nat)
    requires 1 <= k < |Columns(LayoutOf(vars, output))|
    ensures var col := Columns(LayoutOf(vars, output))[k];
      exists v :: v in vars && Recorded(v, output) && col.name == v.name && Group(v.vtype) != String &&
        (col.dtype == Float64 <==> Group(v.vtype) == Real)
  {
    var l := LayoutOf(vars, output);
    var nr, ni := |l.reals|, |l.integers|;
    var v, g, t;
    if k < 1 + nr {
      v, g, t := l.reals[k - 1], Real, Float64;
    } else if k < 1 + nr + ni {
      v, g, t := l.integers[k - 1 - nr], Integer, Int32;
    } else {
      v, g, t := l.booleans[k - 1 - nr - ni], Boolean, Int32;
    }
    assert Columns(l)[k] == Column(v.name, t) by {
      ColumnAt(l, k);
    }
    assert v in vars && Recorded(v, output) && Group(v.vtype) == g by {
      SelectMember(vars, output, g, v);
    }
  }

  /** Every recorded variable that is not a String has a column, typed by its group. */
  lemma SelectedHaveColumns(vars: seq<ScalarVariable>, output: Option<seq<string>>, v: ScalarVariable)
    requires v in vars && Recorded(v, output) && Group(v.vtype) != String
    ensures var cols := Columns(LayoutOf(vars, output));
      exists k :: 1 <= k < |cols| && cols[k].name == v.name &&
        cols[k].dtype == (if Group(v.vtype) == Real then Float64 else Int32)
  {
    var l := LayoutOf(vars, output);
    var nr, ni := |l.reals|, |l.integers|;
    var g := Group(v.vtype);
    var k, t;
    if g == Real {
      var j := MemberIndex(vars, output, g, v);
      k, t := 1 + j, Float64;
    } else if g == Integer {
      var j := MemberIndex(vars, output, g, v);
      k, t := 1 + nr + j, Int32;
    } else {
      assert g == Boolean;
      var j := MemberIndex(vars, output, g, v);
      k, t := 1 + nr + ni + j, Int32;
    }
    assert 1 <= k < |Columns(l)| && Columns(l)[k] == Column(v.name, t) by {
      ColumnAt(l, k);
    }
  }

  /** Where a recorded variable sits in its group. */
  lemma MemberIndex(vars: seq<ScalarVariable>, output: Option<seq<string>>, g: VariableType,
                    v: ScalarVariable) returns (j: nat)
    requires v in vars && Recorded(v, output) && Group(v.vtype) == g
    ensures j < |Select(vars, output, g)| && Select(vars, output, g)[j] == v
  {
    SelectMember(vars, output, g, v);
    j :| 0 <= j < |Select(vars, output, g)| && Select(vars, output, g)[j] == v;
  }

  /** The getter call of one group after history `h`, if the group has variables. */
  function ReadReals(o: Oracle, h: seq<Call>, vrs: seq<nat>): seq<Call>
  {
    if |vrs| > 0 then [GetReal(vrs, Values(o.realValue, h, vrs))] else []
  }

  function ReadIntegers(o: Oracle, h: seq<Call>, vrs: seq<nat>): seq<Call>
  {
    if |vrs| > 0 then [GetInteger(vrs, Values(o.integerValue, h, vrs))] else []
  }

  function ReadBooleans(o: Oracle, h: seq<Call>, vrs: seq<nat>): seq<Call>
  {
    if |vrs| > 0 then [GetBoolean(vrs, Values(o.booleanValue, h, vrs))] else []
  }

  /** The calls one `sample` makes after history `h`: one getter for each group that has
      variables, in the order Real, Integer, Boolean, each answered by the model. */
  function SampleLog(o: Oracle, h: seq<Call>, l: Layout): seq<Call>
  {
    var c1 := ReadReals(o, h, ValueReferences(l.reals));
    var c2 := ReadIntegers(o, h + c1, ValueReferences(l.integers));
    c1 + c2 + ReadBooleans(o, h + c1 + c2, ValueReferences(l.booleans))
  }

  function Floats(vs: seq<real>): (r: seq<Value>)
    ensures |r| == |vs| && forall i :: 0 <= i < |vs| ==> r[i] == Float(vs[i])
  {
    seq(|vs|, i requires 0 <= i < |vs| => Float(vs[i]))
  }

  function Ints(vs: seq<int>): (r: seq<Value>)
    ensures |r| == |vs| && forall i :: 0 <= i < |vs| ==> r[i] == Int(vs[i])
  {
    seq(|vs|, i requires 0 <= i < |vs| => Int(vs[i]))
  }

  function Bools(vs: seq<bool>): (r: seq<Value>)
    ensures |r| == |vs| && forall i :: 0 <= i < |vs| ==> r[i] == Bool(vs[i])
  {
    seq(|vs|, i requires 0 <= i < |vs| => Bool(vs[i]))
  }

  /** The values the getter calls of `log` answered, in order, as cells. */
  function Cells(log: seq<Call>): seq<Value>
  {
    if log == [] then []
    else
      (match log[0]
       case GetReal(_, vs) => Floats(vs)
       case GetInteger(_, vs) => Ints(vs)
       case GetBoolean(_, vs) => Bools(vs)
       case _ => [])
      + Cells(log[1..])
  }

  lemma {:induction false} CellsAppend(a: seq<Call>, b: seq<Call>)
    ensures Cells(a + b) == Cells(a) + Cells(b)
  {
    if a == [] {
      assert a + b == b;
    } else {
      assert (a + b)[1..] == a[1..] + b;
      CellsAppend(a[1..], b);
    }
  }

  lemma ReadCells(o: Oracle, h: seq<Call>, vrs: seq<nat>)
    ensures Cells(ReadReals(o, h, vrs)) == Floats(Values(o.realValue, h, vrs))
    ensures Cells(ReadIntegers(o, h, vrs)) == Ints(Values(o.integerValue, h, vrs))
    ensures Cells(ReadBooleans(o, h, vrs)) == Bools(Values(o.booleanValue, h, vrs))
  {
    if |vrs| > 0 {
      var c1, c2, c3 := ReadReals(o, h, vrs), ReadIntegers(o, h, vrs), ReadBooleans(o, h, vrs);
      assert c1[1..] == [] && c2[1..] == [] && c3[1..] == [];
    } else {
      assert Floats(Values(o.realValue, h, vrs)) == [];
      assert Ints(Values(o.integerValue, h, vrs)) == [];
      assert Bools(Values(o.booleanValue, h, vrs)) == [];
    }
  }

  /** The row a sample at `time` appends: the time, then every value the getters answered. */
  function RowOf(time: real, log: seq<Call>): Row
  {
    [Float(time)] + Cells(log)
  }

  /** A sample's log, group by group. */
  lemma SampleSteps(o: Oracle, h: seq<Call>, l: Layout, time: real)
    ensures var c1 := ReadReals(o, h, ValueReferences(l.reals));
      var c2 := ReadIntegers(o, h + c1, ValueReferences(l.integers));
      var c3 := ReadBooleans(o, h + c1 + c2, ValueReferences(l.booleans));
      h + SampleLog(o, h, l) == h + c1 + c2 + c3 &&
      RowOf(time, SampleLog(o, h, l)) == [Float(time)] + Cells(c1) + Cells(c2) + Cells(c3)
  {
    var c1 := ReadReals(o, h, ValueReferences(l.reals));
    var c2 := ReadIntegers(o, h + c1, ValueReferences(l.integers));
    var c3 := ReadBooleans(o, h + c1 + c2, ValueReferences(l.booleans));
    SampleGroups(h, SampleLog(o, h, l), c1, c2, c3, time);
  }

  lemma SampleGroups(h: seq<Call>, log: seq<Call>, c1: seq<Call>, c2: seq<Call>, c3: seq<Call>, time: real)
    requires log == c1 + c2 + c3
    ensures h + log == h + c1 + c2 + c3
    ensures RowOf(time, log) == [Float(time)] + Cells(c1) + Cells(c2) + Cells(c3)
  {
    CellsAppend(c1, c2);
    CellsAppend(c1 + c2, c3);
    Associative(h, c1 + c2, c3);
    Associative(h, c1, c2);
    Associative([Float(time)], Cells(c1) + Cells(c2), Cells(c3));
    Associative([Float(time)], Cells(c1), Cells(c2));
  }

  lemma Associative<T>(a: seq<T>, b: seq<T>, c: seq<T>)
    ensures a + (b + c) == a + b + c
  {
  }

  predicate Matches(v: Value, t: DType)
  {
    match t
    case Float64 => v.Float?
    case Int32 => v.Int? || v.Bool?
  }

  /** A row fits the columns: one cell per column, of the column's type. */
  predicate Conforms(row: Row, cols: seq<Column>)
  {
    |row| == |cols| && forall i :: 0 <= i < |row| ==> Matches(row[i], cols[i].dtype)
  }

  /** Rows that fit their columns fit them side by side. */
  lemma ConformsAppend(r1: Row, c1: seq<Column>, r2: Row, c2: seq<Column>)
    requires Conforms(r1, c1) && Conforms(r2, c2)
    ensures Conforms(r1 + r2, c1 + c2)
  {
    forall i | 0 <= i < |r1 + r2|
      ensures Matches((r1 + r2)[i], (c1 + c2)[i].dtype)
    {
      if i >= |r1| {
        assert (r1 + r2)[i] == r2[i - |r1|] && (c1 + c2)[i] == c2[i - |c1|];
      }
    }
  }

  /** A sample's row starts with its time and fits the column layout. */
  lemma SampleRowConforms(o: Oracle, h: seq<Call>, l: Layout, time: real)
    ensures var row := RowOf(time, SampleLog(o, h, l));
      Conforms(row, Columns(l)) && row[0] == Float(time)
  {
    var rv, iv, bv := ValueReferences(l.reals), ValueReferences(l.integers), ValueReferences(l.booleans);
    var c1 := ReadReals(o, h, rv);
    var c2 := ReadIntegers(o, h + c1, iv);
    var c3 := ReadBooleans(o, h + c1 + c2, bv);
    ReadCells(o, h, rv);
    ReadCells(o, h + c1, iv);
    ReadCells(o, h + c1 + c2, bv);
    SampleSteps(o, h, l, time);
    var f, n, b := Cells(c1), Cells(c2), Cells(c3);
    var cf, cn, cb := NamedColumns(l.reals, Float64), NamedColumns(l.integers, Int32),
      NamedColumns(l.booleans, Int32);
    assert Conforms([Float(time)], [Column("time", Float64)]);
    assert Conforms(f, cf) && Conforms(n, cn) && Conforms(b, cb);
    ConformsAppend([Float(time)], [Column("time", Float64)], f, cf);
    ConformsAppend([Float(time)] + f, [Column("time", Float64)] + cf, n, cn);
    ConformsAppend([Float(time)] + f + n, [Column("time", Float64)] + cf + cn, b, cb);
  }

  predicate IsGetter(c: Call)
  {
    c.GetReal? || c.GetInteger? || c.GetBoolean?
  }

  /** Sampling makes at most three calls, all of them getters. */
  lemma SampleLogGetters(o: Oracle, h: seq<Call>, l: Layout)
    ensures var log := SampleLog(o, h, l);
      |log| <= 3 && forall c :: c in log ==> IsGetter(c)
  {}

  /** Sampling only reads values: it moves no clock and sets no time. */
  lemma SampleLogReadsOnly(o: Oracle, h: seq<Call>, l: Layout)
    ensures var log := SampleLog(o, h, l);
      |log| <= 3 && (forall c :: c in log ==> IsGetter(c)) &&
      Clock(h + log) == Clock(h) && TimePoints(h + log) == TimePoints(h)
  {
    SampleLogGetters(o, h, l);
    QuietKeepsClock(h, SampleLog(o, h, l));
  }

  /** The `time` column of a result: the first cell of every row. */
  function TimeColumn(rows: seq<Row>): (ts: seq<real>)
    ensures |ts| == |rows|
  {
    seq(|rows|, k requires 0 <= k < |rows| => if |rows[k]| > 0 && rows[k][0].Float? then rows[k][0].r else 0.0)
  }

  /** Sampling at `time` adds `time` to the time column. */
  lemma TimeColumnSnoc(rows: seq<Row>, time: real, log: seq<Call>)
    ensures TimeColumn(rows + [RowOf(time, log)]) == TimeColumn(rows) + [time]
  {
    var ts := TimeColumn(rows + [RowOf(time, log)]);
    assert forall k :: 0 <= k < |rows| ==> ts[k] == TimeColumn(rows)[k];
  }

  /** Records the selected outputs of one model instance, one row per sampled time. */
  class Recorder {
    const fmu: Instance
    const layout: Layout
    const cols: seq<Column>
    var rows: seq<Row>

    ghost predicate Valid()
      reads this
    {
      cols == Columns(layout) && forall r: Row :: r in rows ==> Conforms(r, cols) && r[0].Float?
    }

    constructor (fmu: Instance, md: ModelDescription, output: Option<seq<string>>)
      ensures Valid() && this.fmu == fmu && rows == []
      ensures layout == LayoutOf(md.modelVariables, output)
    {
      var vars := md.modelVariables;
      var reals, integers, booleans := [], [], [];
      var i := 0;
      while i < |vars|
        invariant 0 <= i <= |vars|
        invariant reals == Select(vars[..i], output, Real)
        invariant integers == Select(vars[..i], output, Integer)
        invariant booleans == Select(vars[..i], output, Boolean)
      {
        var sv := vars[i];
        SelectSnoc(vars, i, output, Real);
        SelectSnoc(vars, i, output, Integer);
        SelectSnoc(vars, i, output, Boolean);
        if Recorded(sv, output) {
          var g := Group(sv.vtype);
          if g == Real {
            reals := reals + [sv];
          } else if g == Integer {
            integers := integers + [sv];
          } else if g == Boolean {
            booleans := booleans + [sv];
          }
        }
        i := i + 1;
      }
      assert vars[..i] == vars;
      this.fmu := fmu;
      layout := Layout(reals, integers, booleans);
      cols := Columns(Layout(reals, integers, booleans));
      rows := [];
    }

    /** Reads the current values of the recorded variables, group by group, into a row
        that starts with `time`. */
    method Read(time: real) returns (row: Row)
      modifies fmu`trace
      ensures fmu.trace == old(fmu.trace) + SampleLog(fmu.oracle, old(fmu.trace), layout)
      ensures row == RowOf(time, SampleLog(fmu.oracle, old(fmu.trace), layout))
    {
      ghost var h, o := fmu.trace, fmu.oracle;
      row := [Float(time)];
      var realVrs := ValueReferences(layout.reals);
      ghost var c1 := ReadReals(o, h, realVrs);
      ReadCells(o, h, realVrs);
      if |realVrs| > 0 {
        var values := fmu.GetReal(realVrs);
        row := row + Floats(values);
      }
      assert fmu.trace == h + c1 && row == [Float(time)] + Cells(c1);
      var integerVrs := ValueReferences(layout.integers);
      ghost var c2 := ReadIntegers(o, h + c1, integerVrs);
      ReadCells(o, h + c1, integerVrs);
      if |integerVrs| > 0 {
        var values := fmu.GetInteger(integerVrs);
        row := row + Ints(values);
      }
      assert fmu.trace == h + c1 + c2 && row == [Float(time)] + Cells(c1) + Cells(c2);
      var booleanVrs := ValueReferences(layout.booleans);
      ghost var c3 := ReadBooleans(o, h + c1 + c2, booleanVrs);
      ReadCells(o, h + c1 + c2, booleanVrs);
      if |booleanVrs| > 0 {
        var values := fmu.GetBoolean(booleanVrs);
        row := row + Bools(values);
      }
      assert fmu.trace == h + c1 + c2 + c3 && row == [Float(time)] + Cells(c1) + Cells(c2) + Cells(c3);
      SampleSteps(o, h, layout, time);
    }

    /** Appends one row: `time`, then the current Real, Integer and Boolean values. */
    method Sample(time: real)
      requires Valid()
      modifies this`rows, fmu`trace
      ensures Valid()
      ensures fmu.trace == old(fmu.trace) + SampleLog(fmu.oracle, old(fmu.trace), layout)
      ensures rows == old(rows) + [RowOf(time, SampleLog(fmu.oracle, old(fmu.trace), layout))]
      // sampling reads values only: it sets no time, and adds `time` to the time column
      ensures TimePoints(fmu.trace) == TimePoints(old(fmu.trace))
      ensures TimeColumn(rows) == TimeColumn(old(rows)) + [time]
    {
      SampleLogReadsOnly(fmu.oracle, fmu.trace, layout);
      TimeColumnSnoc(rows, time, SampleLog(fmu.oracle, fmu.trace, layout));
      var row := Read(time);
      SampleRowConforms(fmu.oracle, old(fmu.trace), layout, time);
      rows := rows + [row];
    }
  }
}
