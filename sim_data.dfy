/**
 * The data-generation helpers of data_lsa.py built on `MultiWSimulator`:
 * post-processing of a sample (`process_data`), one sample per partition
 * (`generate_data`), the environment table (`from_Z_to_U`), the
 * multi-environment wrapper (`generate_multienv_data`) and the choice of
 * one proxy column (`tidy_w`). The random draw (`get_samples`) and
 * scikit-learn's `OneHotEncoder` are parameters of the model.
 */
module SimData {
  import opened Wrappers
  import opened NdArrays
  import opened Text
  import opened Simulation

  /** A data dictionary as the simulator returns it: name to array (or number). */
  type Sample = ParamDict

  /** `sim.get_samples(seed=...)` on the simulator's current dictionary. */
  type Sampler = (ParamDict, int) -> Result<Sample>

  /** `OneHotEncoder(sparse_output=False).fit_transform` on a 2-d array. */
  type Encoder = NdArray -> NdArray

  // ---------------------------------------------------------------- keys

  /** Appending the same suffix keeps different names different. */
  lemma SuffixInjective(a: string, b: string, s: string)
    requires a + s == b + s
    ensures a == b
  {
    assert |a| == |b|;
    assert a == (a + s)[..|a|];
    assert b == (b + s)[..|b|];
  }

  /** A `_binary` key never coincides with a `_one_hot` key: they end differently. */
  lemma BinaryNotOneHot(a: string, b: string)
    ensures a + "_binary" != b + "_one_hot"
  {
    var x, y := a + "_binary", b + "_one_hot";
    assert x[|x| - 1] == 'y';
    assert y[|y| - 1] == 't';
  }

  // ---------------------------------------------------------------- process_data

  predicate IsBinary(p: Param)
  {
    match p
    case Number(n) => n == F(0.0) || n == F(1.0)
    case List(_) => false
    case Array(a) => forall j :: 0 <= j < |a.data| ==> a.data[j] == 0.0 || a.data[j] == 1.0
  }

  /** `1.0 * (x > 0)`: each entry becomes 1.0 where positive and 0.0 elsewhere; a list cannot be compared. */
  function Binarize(x: Param): (r: Result<Param>)
    ensures r.Success? <==> !x.List?
    ensures r.Success? ==> IsBinary(r.value)
    ensures x.Number? ==> r.Success? && (r.value == Number(F(1.0)) <==> Value(x.n) > 0.0)
    ensures x.Array? ==> (r.Success? && r.value.Array? && r.value.a.shape == x.a.shape
      && |r.value.a.data| == |x.a.data|
      && forall j :: 0 <= j < |x.a.data| ==> (r.value.a.data[j] == 1.0 <==> x.a.data[j] > 0.0))
  {
    match x
    case Number(n) => Success(Number(F(if Value(n) > 0.0 then 1.0 else 0.0)))
    case List(_) => Failure(TypeError)
    case Array(a) =>
      Success(Array(NdArray(a.shape, seq(|a.data|, j requires 0 <= j < |a.data| => if a.data[j] > 0.0 then 1.0 else 0.0))))
  }

  /** Binarising a binarised value changes nothing. */
  lemma BinarizeIdempotent(x: Param)
    requires Binarize(x).Success?
    ensures Binarize(Binarize(x).value) == Binarize(x)
  {
    var b := Binarize(x).value;
    if b.Array? {
      var c := Binarize(b).value;
      assert c.a.data == b.a.data;
    }
  }

  /** What the encoder's input check accepts: a 2-d array with at least one row and one column. */
  predicate Encodable(a: NdArray)
  {
    Rank(a) == 2 && a.shape[0] > 0 && a.shape[1] > 0
  }

  /**
   * The encoder accepts non-empty 2-d arrays only; a scalar, a 1-d or 3-d
   * array, or one with no rows or no columns raises ValueError.
   */
  function OneHot(b: Param, enc: Encoder): (r: Result<Param>)
    ensures r.Success? <==> b.Array? && Encodable(b.a)
    ensures r.Success? ==> r.value == Array(enc(b.a))
    ensures r.Failure? ==> r.error == ValueError
  {
    if b.Array? && Encodable(b.a) then Success(Array(enc(b.a))) else Failure(ValueError)
  }

  /** `u.reshape(-1, 1)`: the entries of u as one column. */
  function ColumnOf(a: NdArray): (r: NdArray)
    ensures Valid(r) && Rank(r) == 2 && r.data == a.data
  {
    assert Size([|a.data|, 1]) == |a.data| * Size([1]);
    NdArray([|a.data|, 1], a.data)
  }

  /** What the column loop derives from one column's value: (binary, one-hot). */
  type ColumnCode = Param -> Result<(Param, Param)>

  /** `1.0 * (x > 0)` and its one-hot encoding; only a non-empty 2-d array gets through both. */
  function Code(x: Param, enc: Encoder): (r: Result<(Param, Param)>)
    ensures r.Success? <==> x.Array? && Encodable(x.a)
    ensures r.Success? ==> r.value.0 == Binarize(x).value && r.value.1 == Array(enc(r.value.0.a))
  {
    var b :- Binarize(x);
    var oh :- OneHot(b, enc);
    Success((b, oh))
  }

  function Coder(enc: Encoder): ColumnCode
  {
    x => Code(x, enc)
  }

  /** Column w of d, derived; a missing column raises KeyError. */
  function Encoded(d: Sample, w: string, code: ColumnCode): (r: Result<(Param, Param)>)
    ensures w !in d ==> r == Failure(KeyError(w))
    ensures w in d ==> r == code(d[w])
  {
    var x :- Get(d, w);
    code(x)
  }

  /** One pass of the column loop: `{w}_binary`, then `{w}_one_hot`. */
  function ProcessColumn(d: Sample, w: string, code: ColumnCode): Result<Sample>
  {
    var e :- Encoded(d, w, code);
    Success(d[w + "_binary" := e.0][w + "_one_hot" := e.1])
  }

  /** The column loop of `process_data`, the first failing column ending it. */
  function ProcessCols(d: Sample, cols: seq<string>, code: ColumnCode): Result<Sample>
    decreases |cols|
  {
    if cols == [] then Success(d)
    else
      var d1 :- ProcessColumn(d, cols[0], code);
      ProcessCols(d1, cols[1..], code)
  }

  /** `process_data(data_dict, w_cols)`: the column loop, then `u_one_hot`. */
  function ProcessSpec(data: Sample, cols: seq<string>, enc: Encoder): Result<Sample>
  {
    var d1 :- ProcessCols(data, cols, Coder(enc));
    var u :- Get(d1, "u");
    if !u.Array? then Failure(AttributeError)
    else
      var oh :- OneHot(Array(ColumnOf(u.a)), enc);
      Success(d1["u_one_hot" := oh])
  }

  /** A column `process_data` can handle: present, and a 2-d array with rows and columns. */
  predicate ColumnReady(d: Sample, w: string)
  {
    w in d && d[w].Array? && Encodable(d[w].a)
  }

  /** The default `w_cols`. */
  function WCols(): seq<string>
  {
    ["w_1", "w_2", "w_3"]
  }

  /** The keys the column loop adds. */
  function Added(cols: seq<string>): set<string>
  {
    (set j | 0 <= j < |cols| :: cols[j] + "_binary") + (set j | 0 <= j < |cols| :: cols[j] + "_one_hot")
  }

  /** Distinct columns, none of them named like a key the loop adds. */
  predicate ColsApart(cols: seq<string>)
  {
    && (forall i, j :: 0 <= i < j < |cols| ==> cols[i] != cols[j])
    && (forall i, j :: 0 <= i < |cols| && 0 <= j < |cols| ==> cols[j] != cols[i] + "_binary" && cols[j] != cols[i] + "_one_hot")
  }

  lemma WColsApart()
    ensures ColsApart(WCols())
  {
    var cols := WCols();
    forall i, j | 0 <= i < |cols| && 0 <= j < |cols|
      ensures cols[j] != cols[i] + "_binary" && cols[j] != cols[i] + "_one_hot"
    {
      assert |cols[j]| == 3;
    }
  }

  lemma AddedStep(cols: seq<string>)
    requires cols != []
    ensures Added(cols) == {cols[0] + "_binary", cols[0] + "_one_hot"} + Added(cols[1..])
  {
    var rest := cols[1..];
    forall k | k in Added(cols)
      ensures k in {cols[0] + "_binary", cols[0] + "_one_hot"} + Added(rest)
    {
      var j :| 0 <= j < |cols| && (k == cols[j] + "_binary" || k == cols[j] + "_one_hot");
      if j > 0 {
        assert cols[j] == rest[j - 1];
      }
    }
    forall k | k in Added(rest)
      ensures k in Added(cols)
    {
      var j :| 0 <= j < |rest| && (k == rest[j] + "_binary" || k == rest[j] + "_one_hot");
      assert rest[j] == cols[j + 1];
    }
  }

  /** The keys added for the first column are not added again by the later ones. */
  lemma FirstKeysKept(cols: seq<string>)
    requires cols != [] && ColsApart(cols)
    ensures cols[0] + "_binary" !in Added(cols[1..]) && cols[0] + "_one_hot" !in Added(cols[1..])
  {
    var rest := cols[1..];
    forall j | 0 <= j < |rest|
      ensures rest[j] + "_binary" != cols[0] + "_binary" && rest[j] + "_one_hot" != cols[0] + "_binary"
      ensures rest[j] + "_binary" != cols[0] + "_one_hot" && rest[j] + "_one_hot" != cols[0] + "_one_hot"
    {
      assert rest[j] == cols[j + 1] && cols[0] != cols[j + 1];
      if rest[j] + "_binary" == cols[0] + "_binary" {
        SuffixInjective(rest[j], cols[0], "_binary");
      }
      if rest[j] + "_one_hot" == cols[0] + "_one_hot" {
        SuffixInjective(rest[j], cols[0], "_one_hot");
      }
      BinaryNotOneHot(cols[0], rest[j]);
      BinaryNotOneHot(rest[j], cols[0]);
    }
  }

  lemma ColsApartTail(cols: seq<string>)
    requires cols != [] && ColsApart(cols)
    ensures ColsApart(cols[1..])
  {
    var rest := cols[1..];
    forall i, j | 0 <= i < j < |rest|
      ensures rest[i] != rest[j]
    {
      assert rest[i] == cols[i + 1] && rest[j] == cols[j + 1];
    }
    forall i, j | 0 <= i < |rest| && 0 <= j < |rest|
      ensures rest[j] != rest[i] + "_binary" && rest[j] != rest[i] + "_one_hot"
    {
      assert rest[i] == cols[i + 1] && rest[j] == cols[j + 1];
    }
  }

  /** After the first column's pass, the remaining columns read the same values as before it. */
  lemma FirstPassLocal(d: Sample, cols: seq<string>, code: ColumnCode, d1: Sample)
    requires cols != [] && ColsApart(cols) && ProcessColumn(d, cols[0], code) == Success(d1)
    ensures forall j :: 1 <= j < |cols| ==> Encoded(d1, cols[j], code) == Encoded(d, cols[j], code)
  {
    forall j | 1 <= j < |cols|
      ensures Encoded(d1, cols[j], code) == Encoded(d, cols[j], code)
    {
      assert cols[j] != cols[0] + "_binary" && cols[j] != cols[0] + "_one_hot";
      assert (cols[j] in d1 <==> cols[j] in d) && (cols[j] in d ==> d1[cols[j]] == d[cols[j]]);
    }
  }

  /**
   * The column loop succeeds exactly when every listed column can be
   * derived, read from the dictionary as given; otherwise it fails with the
   * error of the first column that cannot.
   */
  lemma {:induction false} ProcessColsOutcome(d: Sample, cols: seq<string>, code: ColumnCode)
    requires ColsApart(cols)
    ensures ProcessCols(d, cols, code).Success? <==> forall j :: 0 <= j < |cols| ==> Encoded(d, cols[j], code).Success?
    ensures var r := ProcessCols(d, cols, code);
      r.Failure? ==> exists j :: (0 <= j < |cols| && Encoded(d, cols[j], code) == Failure(r.error)
        && forall i :: 0 <= i < j ==> Encoded(d, cols[i], code).Success?)
    decreases |cols|
  {
    if cols != [] && Encoded(d, cols[0], code).Success? {
      var rest := cols[1..];
      var d1 := ProcessColumn(d, cols[0], code).value;
      ColsApartTail(cols);
      FirstPassLocal(d, cols, code, d1);
      ProcessColsOutcome(d1, rest, code);
      var r := ProcessCols(d, cols, code);
      assert r == ProcessCols(d1, rest, code);
      if r.Failure? {
        var j :| 0 <= j < |rest| && Encoded(d1, rest[j], code) == Failure(r.error)
          && forall i :: 0 <= i < j ==> Encoded(d1, rest[i], code).Success?;
        assert Encoded(d, cols[j + 1], code) == Failure(r.error);
        forall i | 0 <= i < j + 1
          ensures Encoded(d, cols[i], code).Success?
        {
          if i > 0 {
            assert Encoded(d1, rest[i - 1], code).Success?;
          }
        }
      } else {
        forall i | 0 <= i < |cols|
          ensures Encoded(d, cols[i], code).Success?
        {
          if i > 0 {
            assert Encoded(d1, rest[i - 1], code).Success?;
          }
        }
      }
    }
  }

  /** The column loop adds exactly the `_binary` and `_one_hot` keys. */
  lemma {:induction false} ProcessColsKeys(d: Sample, cols: seq<string>, code: ColumnCode)
    requires ColsApart(cols)
    ensures ProcessCols(d, cols, code).Success? ==> ProcessCols(d, cols, code).value.Keys == d.Keys + Added(cols)
    decreases |cols|
  {
    if cols != [] && Encoded(d, cols[0], code).Success? {
      var d1 := ProcessColumn(d, cols[0], code).value;
      ColsApartTail(cols);
      ProcessColsKeys(d1, cols[1..], code);
      AddedStep(cols);
    }
  }

  /** Every entry the loop does not add keeps its value. */
  lemma {:induction false} ProcessColsKeeps(d: Sample, cols: seq<string>, code: ColumnCode)
    requires ColsApart(cols)
    ensures var r := ProcessCols(d, cols, code);
      r.Success? ==> forall k :: k in d && k !in Added(cols) ==> k in r.value && r.value[k] == d[k]
    decreases |cols|
  {
    if cols != [] && Encoded(d, cols[0], code).Success? {
      var d1 := ProcessColumn(d, cols[0], code).value;
      ColsApartTail(cols);
      ProcessColsKeeps(d1, cols[1..], code);
      AddedStep(cols);
    }
  }

  /** Each column's two derived values land under its `_binary` and `_one_hot` keys. */
  lemma {:induction false} ProcessColsAdds(d: Sample, cols: seq<string>, code: ColumnCode)
    requires ColsApart(cols)
    ensures var r := ProcessCols(d, cols, code);
      r.Success? ==> forall j :: 0 <= j < |cols| ==> (Encoded(d, cols[j], code).Success?
        && cols[j] + "_binary" in r.value && r.value[cols[j] + "_binary"] == Encoded(d, cols[j], code).value.0
        && cols[j] + "_one_hot" in r.value && r.value[cols[j] + "_one_hot"] == Encoded(d, cols[j], code).value.1)
    decreases |cols|
  {
    if cols != [] && Encoded(d, cols[0], code).Success? {
      var rest := cols[1..];
      var d1 := ProcessColumn(d, cols[0], code).value;
      ColsApartTail(cols);
      FirstPassLocal(d, cols, code, d1);
      ProcessColsAdds(d1, rest, code);
      ProcessColsKeeps(d1, rest, code);
      FirstKeysKept(cols);
      var r := ProcessCols(d, cols, code);
      assert r == ProcessCols(d1, rest, code);
      if r.Success? {
        forall j | 0 <= j < |cols|
          ensures Encoded(d, cols[j], code).Success?
          ensures cols[j] + "_binary" in r.value && r.value[cols[j] + "_binary"] == Encoded(d, cols[j], code).value.0
          ensures cols[j] + "_one_hot" in r.value && r.value[cols[j] + "_one_hot"] == Encoded(d, cols[j], code).value.1
        {
          if j > 0 {
            assert cols[j] == rest[j - 1];
          }
        }
      }
    }
  }

  /** "u" is never one of the added keys: those are longer. */
  lemma NotAddedShort(cols: seq<string>, k: string)
    requires |k| < 7
    ensures k !in Added(cols)
  {
  }

  /** Every listed column can be derived exactly when it is ready. */
  lemma ReadyColumns(data: Sample, cols: seq<string>, enc: Encoder)
    ensures forall j :: 0 <= j < |cols| ==> (Encoded(data, cols[j], Coder(enc)).Success? <==> ColumnReady(data, cols[j]))
  {
    forall j | 0 <= j < |cols|
      ensures Encoded(data, cols[j], Coder(enc)).Success? <==> ColumnReady(data, cols[j])
    {
      if cols[j] in data {
        assert Encoded(data, cols[j], Coder(enc)) == Code(data[cols[j]], enc);
      }
    }
  }

  /**
   * `process_data` succeeds exactly when every listed column is present as a
   * non-empty 2-d array and "u" is present as a non-empty array.
   */
  lemma ProcessDataOutcome(data: Sample, cols: seq<string>, enc: Encoder)
    requires ColsApart(cols)
    ensures ProcessSpec(data, cols, enc).Success? <==>
      (forall j :: 0 <= j < |cols| ==> ColumnReady(data, cols[j]))
      && "u" in data && data["u"].Array? && |data["u"].a.data| > 0
  {
    ProcessColsOutcome(data, cols, Coder(enc));
    ReadyColumns(data, cols, enc);
    var loop := ProcessCols(data, cols, Coder(enc));
    if loop.Success? {
      ProcessColsKeeps(data, cols, Coder(enc));
      ProcessColsKeys(data, cols, Coder(enc));
      NotAddedShort(cols, "u");
      assert ("u" in loop.value <==> "u" in data) && ("u" in data ==> loop.value["u"] == data["u"]);
    }
  }

  /** An empty `u` reshapes to a (0, 1) column, which the encoder rejects with ValueError. */
  lemma EmptyUFails(data: Sample, cols: seq<string>, enc: Encoder)
    requires ColsApart(cols)
    requires forall j :: 0 <= j < |cols| ==> ColumnReady(data, cols[j])
    requires "u" in data && data["u"].Array? && |data["u"].a.data| == 0
    ensures ProcessSpec(data, cols, enc) == Failure(ValueError)
  {
    ProcessColsOutcome(data, cols, Coder(enc));
    ReadyColumns(data, cols, enc);
    var loop := ProcessCols(data, cols, Coder(enc));
    ProcessColsKeeps(data, cols, Coder(enc));
    ProcessColsKeys(data, cols, Coder(enc));
    NotAddedShort(cols, "u");
    assert loop.value["u"] == data["u"];
  }

  /** `process_data` keeps every original entry it does not add, and adds the derived keys and `u_one_hot`. */
  lemma ProcessDataKeeps(data: Sample, cols: seq<string>, enc: Encoder)
    requires ColsApart(cols)
    ensures var r := ProcessSpec(data, cols, enc);
      r.Success? ==> r.value.Keys == data.Keys + Added(cols) + {"u_one_hot"}
    ensures var r := ProcessSpec(data, cols, enc);
      r.Success? ==> forall k :: k in data && k !in Added(cols) && k != "u_one_hot" ==> r.value[k] == data[k]
  {
    var loop := ProcessCols(data, cols, Coder(enc));
    if loop.Success? {
      ProcessColsKeys(data, cols, Coder(enc));
      ProcessColsKeeps(data, cols, Coder(enc));
    }
  }

  /**
   * `{w}_binary` holds the binarised column and `{w}_one_hot` its encoding,
   * unless w is "u", whose one-hot key `u_one_hot` is rewritten last.
   */
  lemma ProcessDataAdds(data: Sample, cols: seq<string>, enc: Encoder)
    requires ColsApart(cols)
    ensures var r := ProcessSpec(data, cols, enc);
      r.Success? ==> forall j :: 0 <= j < |cols| ==> (ColumnReady(data, cols[j])
        && cols[j] + "_binary" in r.value && r.value[cols[j] + "_binary"] == Binarize(data[cols[j]]).value)
    ensures var r := ProcessSpec(data, cols, enc);
      r.Success? ==> forall j :: 0 <= j < |cols| && cols[j] != "u" ==> (ColumnReady(data, cols[j])
        && cols[j] + "_one_hot" in r.value && r.value[cols[j] + "_one_hot"] == Array(enc(Binarize(data[cols[j]]).value.a)))
  {
    var loop := ProcessCols(data, cols, Coder(enc));
    var r := ProcessSpec(data, cols, enc);
    if r.Success? {
      var d1 := loop.value;
      ProcessColsAdds(data, cols, Coder(enc));
      assert r.value == d1["u_one_hot" := r.value["u_one_hot"]];
      forall j | 0 <= j < |cols|
        ensures ColumnReady(data, cols[j])
        ensures cols[j] + "_binary" in r.value && r.value[cols[j] + "_binary"] == Binarize(data[cols[j]]).value
        ensures cols[j] != "u" ==> cols[j] + "_one_hot" in r.value && r.value[cols[j] + "_one_hot"] == Array(enc(Binarize(data[cols[j]]).value.a))
      {
        var w := cols[j];
        var e := Encoded(data, w, Coder(enc));
        assert w in data && e == Code(data[w], enc);
        BinaryNotOneHot(w, "u");
        if w != "u" && w + "_one_hot" == "u" + "_one_hot" {
          SuffixInjective(w, "u", "_one_hot");
        }
      }
    }
  }

  /** `u_one_hot` is the encoding of "u" as one column. */
  lemma ProcessDataU(data: Sample, cols: seq<string>, enc: Encoder)
    requires ColsApart(cols)
    ensures var r := ProcessSpec(data, cols, enc);
      r.Success? ==> ("u" in data && data["u"].Array? && |data["u"].a.data| > 0
                      && r.value["u_one_hot"] == Array(enc(ColumnOf(data["u"].a))))
  {
    var loop := ProcessCols(data, cols, Coder(enc));
    if loop.Success? {
      ProcessColsKeys(data, cols, Coder(enc));
      ProcessColsKeeps(data, cols, Coder(enc));
      NotAddedShort(cols, "u");
    }
  }

  /** A missing proxy column fails the whole call with its KeyError. */
  lemma MissingColumnFails(data: Sample, enc: Encoder)
    requires ColumnReady(data, "w_1") && "w_2" !in data
    ensures ProcessSpec(data, WCols(), enc) == Failure(KeyError("w_2"))
  {
    var code := Coder(enc);
    WColsApart();
    ProcessColsOutcome(data, WCols(), code);
    var r := ProcessCols(data, WCols(), code);
    assert Encoded(data, WCols()[0], code).Success?;
    assert Encoded(data, WCols()[1], code) == Failure(KeyError("w_2"));
    var j :| 0 <= j < 3 && Encoded(data, WCols()[j], code) == Failure(r.error)
      && forall i :: 0 <= i < j ==> Encoded(data, WCols()[i], code).Success?;
    assert j == 1;
  }

  /** `process_data` with its loop, on a copy of the dictionary. */
  method ProcessData(data: Sample, cols: seq<string>, enc: Encoder) returns (r: Result<Sample>)
    ensures r == ProcessSpec(data, cols, enc)
  {
    var result := data;
    for i := 0 to |cols|
      invariant ProcessCols(data, cols, Coder(enc)) == ProcessCols(result, cols[i..], Coder(enc))
    {
      assert cols[i..][1..] == cols[i + 1..];
      ghost var before := result;
      var w := cols[i];
      if w !in result {
        return Failure(KeyError(w));
      }
      var b := Binarize(result[w]);
      if b.Failure? {
        assert Encoded(before, w, Coder(enc)) == Failure(b.error);
        return Failure(b.error);
      }
      result := result[w + "_binary" := b.value];
      var oh := OneHot(result[w + "_binary"], enc);
      if oh.Failure? {
        assert Encoded(before, w, Coder(enc)) == Failure(oh.error);
        return Failure(oh.error);
      }
      result := result[w + "_one_hot" := oh.value];
      assert ProcessColumn(before, w, Coder(enc)) == Success(result);
    }
    assert cols[|cols|..] == [];
    if "u" !in result {
      return Failure(KeyError("u"));
    }
    var u := result["u"];
    if !u.Array? {
      return Failure(AttributeError);
    }
    var ou := OneHot(Array(ColumnOf(u.a)), enc);
    if ou.Failure? {
      return Failure(ou.error);
    }
    result := result["u_one_hot" := ou.value];
    r := Success(result);
  }

  // ---------------------------------------------------------------- from_Z_to_U

  /** The `pu_lookup` table of each implemented task. */
  function PuTable(task: int): map<int, real>
  {
    if task == 1 then map[0 := 0.1, 1 := 0.2, 2 := 0.3, 3 := 0.4, 4 := 0.9]
    else if task == 2 then map[0 := 0.4, 1 := 0.5, 2 := 0.6, 3 := 0.4, 4 := 0.9]
    else map[0 := 0.7, 1 := 0.8, 2 := 0.9, 3 := 0.4, 4 := 0.4]
  }

  predicate Implemented(task: Option<int>)
  {
    task == Some(1) || task == Some(2) || task == Some(3)
  }

  /**
   * `from_Z_to_U(z_indicator, task)`: the probability of u = 0 in environment z
   * and the number of environments. An unknown task raises
   * NotImplementedError before z is looked at; an unknown z raises KeyError.
   */
  function FromZToU(z: int, task: Option<int>): (r: Result<(real, nat)>)
    ensures r.Success? <==> Implemented(task) && 0 <= z < 5
    ensures !Implemented(task) ==> r == Failure(NotImplementedError)
    ensures Implemented(task) && !(0 <= z < 5) ==> r == Failure(IntKeyError(z))
    ensures r.Success? ==> r.value.1 == 5 && 0.0 < r.value.0 < 1.0
  {
    if Implemented(task) then
      var table := PuTable(task.value);
      assert table.Keys == {0, 1, 2, 3, 4};
      if z in table then Success((table[z], |table|)) else Failure(IntKeyError(z))
    else Failure(NotImplementedError)
  }

  /** Environment 4 puts most mass on u = 0 in tasks 1 and 2, and environments 3 and 4 agree in task 3. */
  lemma LastEnvironments()
    ensures FromZToU(4, Some(1)) == Success((0.9, 5)) && FromZToU(4, Some(2)) == Success((0.9, 5))
    ensures FromZToU(3, Some(3)).value.0 == FromZToU(4, Some(3)).value.0 == 0.4
  {
  }

  // ---------------------------------------------------------------- generate_data

  /** `int(x)`: truncation toward zero. */
  function Trunc(x: real): (r: int)
    ensures x >= 0.0 ==> r >= 0 && r as real <= x < r as real + 1.0
    ensures x < 0.0 ==> r <= 0 && r as real - 1.0 < x <= r as real
  {
    if x >= 0.0 then x.Floor else -((-x).Floor)
  }

  /** The keyword arguments of `update_param_dict` for one partition. */
  function Updates(pu: Param, num: int, frac: real): ParamDict
  {
    map["num_samples" := Number(I(Trunc(frac * num as real))), "p_u" := pu]
  }

  /** The dictionary the sampler sees for a partition: the initialised one, two entries replaced. */
  function PartitionParams(d: ParamDict, pu: Param, num: int, frac: real): (r: ParamDict)
    ensures r.Keys == d.Keys + {"num_samples", "p_u"}
    ensures r["num_samples"] == Number(I(Trunc(frac * num as real))) && r["p_u"] == pu
    ensures forall k :: k in d && k != "num_samples" && k != "p_u" ==> r[k] == d[k]
  {
    Override(d, Updates(pu, num, frac))
  }

  /** Each update replaces the previous partition's entirely: nothing carries over. */
  lemma UpdatesDoNotAccumulate(d: ParamDict, pu: Param, num: int, f1: real, f2: real)
    ensures Override(PartitionParams(d, pu, num, f1), Updates(pu, num, f2)) == PartitionParams(d, pu, num, f2)
  {
    OverrideTwice(d, Updates(pu, num, f1), Updates(pu, num, f2));
  }

  /** What one run of `generate_data` fixes besides the partitions. */
  datatype Setup = Setup(pu: Param, seed: int, num: int, sampler: Sampler, enc: Encoder)

  /** The seed of partition i: the partitions draw 15 seeds apart. */
  function PartitionSeed(seed: int, i: int): int
  {
    seed + 15 * i
  }

  /** Partition i: sampled with seed + 15 i on its dictionary, then processed. */
  function PartitionSample(d: ParamDict, st: Setup, frac: real, i: int): Result<Sample>
  {
    var raw :- st.sampler(PartitionParams(d, st.pu, st.num, frac), PartitionSeed(st.seed, i));
    ProcessSpec(raw, WCols(), st.enc)
  }

  /** The sample of a partition from its fraction and position. */
  type PartitionRun = (real, int) -> Result<Sample>

  function Runner(d: ParamDict, st: Setup): PartitionRun
  {
    (frac: real, i: int) => PartitionSample(d, st, frac, i)
  }

  /** The loop over `partition_dict.items()`, in order; a repeated key keeps its last sample. */
  function Partitions(run: PartitionRun, parts: seq<(string, real)>): Result<map<string, Sample>>
    decreases |parts|
  {
    if parts == [] then Success(map[])
    else
      var i := |parts| - 1;
      var front :- Partitions(run, parts[..i]);
      var s :- run(parts[i].1, i);
      Success(front[parts[i].0 := s])
  }

  function PartitionKeys(parts: seq<(string, real)>): set<string>
  {
    set i | 0 <= i < |parts| :: parts[i].0
  }

  predicate DistinctKeys(parts: seq<(string, real)>)
  {
    forall i, j :: 0 <= i < j < |parts| ==> parts[i].0 != parts[j].0
  }

  lemma PartitionKeysStep(parts: seq<(string, real)>)
    requires parts != []
    ensures PartitionKeys(parts) == PartitionKeys(parts[..|parts| - 1]) + {parts[|parts| - 1].0}
  {
    var init := parts[..|parts| - 1];
    forall k | k in PartitionKeys(parts)
      ensures k in PartitionKeys(init) + {parts[|parts| - 1].0}
    {
      var j :| 0 <= j < |parts| && k == parts[j].0;
      if j < |init| {
        assert k == init[j].0;
      }
    }
    forall k | k in PartitionKeys(init)
      ensures k in PartitionKeys(parts)
    {
      var j :| 0 <= j < |init| && k == init[j].0;
      assert k == parts[j].0;
    }
  }

  /**
   * The partition loop succeeds exactly when every partition does; it then
   * has one entry per partition key. Otherwise it fails with the error of
   * the first partition that fails.
   */
  lemma {:induction false} PartitionsOutcome(run: PartitionRun, parts: seq<(string, real)>)
    ensures Partitions(run, parts).Success? <==> forall i :: 0 <= i < |parts| ==> run(parts[i].1, i).Success?
    ensures var r := Partitions(run, parts);
      r.Failure? ==> exists i :: (0 <= i < |parts| && run(parts[i].1, i) == Failure(r.error)
        && forall j :: 0 <= j < i ==> run(parts[j].1, j).Success?)
    ensures var r := Partitions(run, parts);
      r.Success? ==> r.value.Keys == PartitionKeys(parts)
    decreases |parts|
  {
    if parts != [] {
      var i := |parts| - 1;
      var init := parts[..i];
      PartitionsOutcome(run, init);
      PartitionKeysStep(parts);
      var r := Partitions(run, parts);
      if Partitions(run, init).Failure? {
        var f :| 0 <= f < |init| && run(init[f].1, f) == Failure(r.error)
          && forall j :: 0 <= j < f ==> run(init[j].1, j).Success?;
        assert init[f] == parts[f];
        forall j | 0 <= j < f
          ensures run(parts[j].1, j).Success?
        {
          assert init[j] == parts[j];
        }
      } else {
        forall j | 0 <= j < i
          ensures run(parts[j].1, j).Success?
        {
          assert init[j] == parts[j];
        }
      }
    }
  }

  /** With distinct keys, each partition's entry is its own sample. */
  lemma {:induction false} PartitionsEntries(run: PartitionRun, parts: seq<(string, real)>)
    requires DistinctKeys(parts)
    ensures var r := Partitions(run, parts);
      r.Success? ==> forall i :: 0 <= i < |parts| ==> (run(parts[i].1, i).Success?
        && parts[i].0 in r.value && r.value[parts[i].0] == run(parts[i].1, i).value)
    decreases |parts|
  {
    if parts != [] {
      var n := |parts| - 1;
      var init := parts[..n];
      assert DistinctKeys(init) by {
        forall i, j | 0 <= i < j < |init|
          ensures init[i].0 != init[j].0
        {
          assert init[i] == parts[i] && init[j] == parts[j];
        }
      }
      PartitionsEntries(run, init);
      var r := Partitions(run, parts);
      if r.Success? {
        forall i | 0 <= i < |parts|
          ensures run(parts[i].1, i).Success?
          ensures parts[i].0 in r.value && r.value[parts[i].0] == run(parts[i].1, i).value
        {
          if i < n {
            assert init[i] == parts[i];
            assert parts[i].0 != parts[n].0;
          }
        }
      }
    }
  }

  /** Once a prefix of the partitions fails, the whole loop fails with the same error. */
  lemma {:induction false} PartitionsStop(run: PartitionRun, parts: seq<(string, real)>, k: nat)
    requires k <= |parts| && Partitions(run, parts[..k]).Failure?
    ensures Partitions(run, parts) == Partitions(run, parts[..k])
    decreases |parts|
  {
    if k < |parts| {
      var init := parts[..|parts| - 1];
      assert init[..k] == parts[..k];
      PartitionsStop(run, init, k);
    } else {
      assert parts[..k] == parts;
    }
  }

  /** `generate_data(p_u, seed, num_samples, partition_dict, param_dict)`. */
  function GenerateSpec(st: Setup, parts: seq<(string, real)>, given: Option<ParamDict>): Result<map<string, Sample>>
  {
    var init := InitSpec(MultiW, Merged(Defaults(MultiW), given));
    if init.1.Fail? then Failure(init.1.error)
    else Partitions(Runner(init.0, st), parts)
  }

  /** Partition i is drawn with seed + 15 i from its own dictionary; a failed draw is its error. */
  lemma PartitionSampleFails(d: ParamDict, st: Setup, frac: real, i: int)
    requires st.sampler(PartitionParams(d, st.pu, st.num, frac), PartitionSeed(st.seed, i)).Failure?
    ensures PartitionSample(d, st, frac, i) == Failure(st.sampler(PartitionParams(d, st.pu, st.num, frac), PartitionSeed(st.seed, i)).error)
  {
  }

  /** A successful draw of partition i is processed with the default proxy columns. */
  lemma PartitionSampleProcessed(d: ParamDict, st: Setup, frac: real, i: int, raw: Sample)
    requires st.sampler(PartitionParams(d, st.pu, st.num, frac), PartitionSeed(st.seed, i)) == Success(raw)
    ensures PartitionSample(d, st, frac, i) == ProcessSpec(raw, WCols(), st.enc)
  {
  }

  /**
   * `generate_data` fails when building the simulator does; otherwise, with
   * distinct partition keys, each key holds the sample of its own partition.
   */
  lemma GenerateSpecProps(st: Setup, parts: seq<(string, real)>, given: Option<ParamDict>)
    requires DistinctKeys(parts)
    ensures var init := InitSpec(MultiW, Merged(Defaults(MultiW), given));
      init.1.Fail? ==> GenerateSpec(st, parts, given) == Failure(init.1.error)
    ensures var init := InitSpec(MultiW, Merged(Defaults(MultiW), given));
      var r := GenerateSpec(st, parts, given);
      r.Success? ==> init.1.Pass? && forall i :: 0 <= i < |parts| ==> (PartitionSample(init.0, st, parts[i].1, i).Success?
        && parts[i].0 in r.value && r.value[parts[i].0] == PartitionSample(init.0, st, parts[i].1, i).value)
  {
    var init := InitSpec(MultiW, Merged(Defaults(MultiW), given));
    if init.1.Pass? {
      var run := Runner(init.0, st);
      PartitionsEntries(run, parts);
      var r := GenerateSpec(st, parts, given);
      assert r == Partitions(run, parts);
      if r.Success? {
        forall i | 0 <= i < |parts|
          ensures PartitionSample(init.0, st, parts[i].1, i).Success?
          ensures parts[i].0 in r.value && r.value[parts[i].0] == PartitionSample(init.0, st, parts[i].1, i).value
        {
          assert run(parts[i].1, i) == PartitionSample(init.0, st, parts[i].1, i);
        }
      }
    }
  }

  /** Once the simulator is built, `generate_data` is the partition loop on its dictionary. */
  lemma GenerateFromInit(st: Setup, parts: seq<(string, real)>, given: Option<ParamDict>, d: ParamDict)
    requires InitSpec(MultiW, Merged(Defaults(MultiW), given)) == (d, Pass)
    ensures GenerateSpec(st, parts, given) == Partitions(Runner(d, st), parts)
  {
  }

  /** One pass of the partition loop: its sample either stops the loop or is stored under its key. */
  lemma PartitionsExtend(run: PartitionRun, parts: seq<(string, real)>, i: nat, front: map<string, Sample>)
    requires i < |parts| && Partitions(run, parts[..i]) == Success(front)
    ensures run(parts[i].1, i).Failure? ==> Partitions(run, parts) == Failure(run(parts[i].1, i).error)
    ensures run(parts[i].1, i).Success? ==>
      Partitions(run, parts[..i + 1]) == Success(front[parts[i].0 := run(parts[i].1, i).value])
  {
    assert parts[..i + 1][..i] == parts[..i];
    if run(parts[i].1, i).Failure? {
      PartitionsStop(run, parts, i + 1);
    }
  }

  /** One pass of the partition loop, its draw failing. */
  lemma DrawFails(d: ParamDict, pu: Param, seed: int, num: int, sampler: Sampler, enc: Encoder,
                  parts: seq<(string, real)>, i: nat, e: Error, front: map<string, Sample>)
    requires i < |parts| && Partitions(Runner(d, Setup(pu, seed, num, sampler, enc)), parts[..i]) == Success(front)
    requires sampler(PartitionParams(d, pu, num, parts[i].1), PartitionSeed(seed, i)) == Failure(e)
    ensures Partitions(Runner(d, Setup(pu, seed, num, sampler, enc)), parts) == Failure(e)
  {
    var st := Setup(pu, seed, num, sampler, enc);
    PartitionSampleFails(d, st, parts[i].1, i);
    assert Runner(d, st)(parts[i].1, i) == Failure(e);
    PartitionsExtend(Runner(d, st), parts, i, front);
  }

  /** One pass of the partition loop, its draw succeeding. */
  lemma DrawProcessed(d: ParamDict, pu: Param, seed: int, num: int, sampler: Sampler, enc: Encoder,
                      parts: seq<(string, real)>, i: nat, raw: Sample, front: map<string, Sample>)
    requires i < |parts| && Partitions(Runner(d, Setup(pu, seed, num, sampler, enc)), parts[..i]) == Success(front)
    requires sampler(PartitionParams(d, pu, num, parts[i].1), PartitionSeed(seed, i)) == Success(raw)
    ensures Runner(d, Setup(pu, seed, num, sampler, enc))(parts[i].1, i) == ProcessSpec(raw, WCols(), enc)
  {
    PartitionSampleProcessed(d, Setup(pu, seed, num, sampler, enc), parts[i].1, i, raw);
  }

  /** `generate_data`: a fresh simulator, then the loop over the partitions. */
  method GenerateData(pu: Param, seed: int, num: int, parts: seq<(string, real)>, given: Option<ParamDict>,
                      sampler: Sampler, enc: Encoder)
    returns (r: Result<map<string, Sample>>)
    ensures r == GenerateSpec(Setup(pu, seed, num, sampler, enc), parts, given)
  {
    var made := Simulator.New(MultiW, given);
    if made.Failure? {
      return Failure(made.error);
    }
    var sim := made.value;
    GenerateFromInit(Setup(pu, seed, num, sampler, enc), parts, given, sim.paramDict);
    r := DrawPartitions(sim, pu, seed, num, parts, sampler, enc);
  }

  /**
   * The loop of `generate_data`: for each partition in order the simulator's
   * dictionary is updated with its size and p_u, a sample is drawn and
   * processed and stored under the partition's key.
   */
  method DrawPartitions(sim: Simulator, pu: Param, seed: int, num: int, parts: seq<(string, real)>,
                        sampler: Sampler, enc: Encoder)
    returns (r: Result<map<string, Sample>>)
    modifies sim
    ensures r == Partitions(Runner(old(sim.paramDict), Setup(pu, seed, num, sampler, enc)), parts)
    ensures |parts| == 0 ==> sim.paramDict == old(sim.paramDict)
    ensures r.Success? && |parts| > 0 ==>
      sim.paramDict == PartitionParams(old(sim.paramDict), pu, num, parts[|parts| - 1].1)
    ensures sim.paramDict == old(sim.paramDict)
      || exists j :: 0 <= j < |parts| && sim.paramDict == PartitionParams(old(sim.paramDict), pu, num, parts[j].1)
  {
    ghost var st := Setup(pu, seed, num, sampler, enc);
    ghost var d := sim.paramDict;
    var samples: map<string, Sample> := map[];
    for i := 0 to |parts|
      invariant Partitions(Runner(d, st), parts[..i]) == Success(samples)
      invariant i == 0 ==> sim.paramDict == d
      invariant i > 0 ==> sim.paramDict == PartitionParams(d, pu, num, parts[i - 1].1)
    {
      var (key, frac) := parts[i];
      if i > 0 {
        UpdatesDoNotAccumulate(d, pu, num, parts[i - 1].1, frac);
      }
      sim.UpdateParamDict(Updates(pu, num, frac));
      assert sim.paramDict == PartitionParams(d, pu, num, frac);
      var raw := sampler(sim.paramDict, PartitionSeed(seed, i));
      if raw.Failure? {
        DrawFails(d, pu, seed, num, sampler, enc, parts, i, raw.error, samples);
        return Failure(raw.error);
      }
      DrawProcessed(d, pu, seed, num, sampler, enc, parts, i, raw.value, samples);
      var s := ProcessData(raw.value, WCols(), enc);
      PartitionsExtend(Runner(d, st), parts, i, samples);
      if s.Failure? {
        return Failure(s.error);
      }
      samples := samples[key := s.value];
    }
    assert parts[..|parts|] == parts;
    r := Success(samples);
  }

  // ---------------------------------------------------------------- generate_multienv_data

  /** `p_u = [pu_0, 1 - pu_0]`. */
  function MixtureOf(p: real): (r: Param)
    ensures r.List? && |r.items| == 2 && Value(r.items[0]) + Value(r.items[1]) == 1.0
  {
    List([F(p), F(1.0 - p)])
  }

  /** Every sample gets `n_env`. */
  function WithEnv(samples: map<string, Sample>, size: int): map<string, Sample>
  {
    map k | k in samples :: samples[k]["n_env" := Number(I(size))]
  }

  /** `WithEnv` adds `n_env` to every sample and changes nothing else. */
  lemma WithEnvSpec(samples: map<string, Sample>, size: int)
    ensures WithEnv(samples, size).Keys == samples.Keys
    ensures forall k :: k in samples ==> WithEnv(samples, size)[k]["n_env"] == Number(I(size))
    ensures forall k, key :: k in samples && key in samples[k] && key != "n_env" ==>
      WithEnv(samples, size)[k][key] == samples[k][key]
  {
  }

  /** `generate_multienv_data(z_indicator, seed, num_samples, task, partition_dict, param_dict)`. */
  function MultiEnvSpec(z: int, task: Option<int>, seed: int, num: int, parts: seq<(string, real)>,
                        given: Option<ParamDict>, sampler: Sampler, enc: Encoder): Result<map<string, Sample>>
  {
    var env :- FromZToU(z, task);
    var samples :- GenerateSpec(Setup(MixtureOf(env.0), seed, num, sampler, enc), parts, given);
    Success(WithEnv(samples, env.1))
  }

  lemma GenerateKeys(st: Setup, parts: seq<(string, real)>, given: Option<ParamDict>)
    ensures GenerateSpec(st, parts, given).Success? ==> GenerateSpec(st, parts, given).value.Keys == PartitionKeys(parts)
  {
    var init := InitSpec(MultiW, Merged(Defaults(MultiW), given));
    if init.1.Pass? {
      PartitionsOutcome(Runner(init.0, st), parts);
    }
  }

  /**
   * The environments are drawn with a proper mixture [p, 1 - p] where
   * 0 < p < 1; the result has one entry per partition key, each the
   * `generate_data` sample with `n_env` = 5 added; it fails when `task`
   * or z is unknown, or when `generate_data` does.
   */
  lemma MultiEnvSpecProps(z: int, task: Option<int>, seed: int, num: int, parts: seq<(string, real)>,
                          given: Option<ParamDict>, sampler: Sampler, enc: Encoder)
    ensures var r := MultiEnvSpec(z, task, seed, num, parts, given, sampler, enc);
      r.Success? <==> (Implemented(task) && 0 <= z < 5
        && GenerateSpec(Setup(MixtureOf(FromZToU(z, task).value.0), seed, num, sampler, enc), parts, given).Success?)
    ensures var r := MultiEnvSpec(z, task, seed, num, parts, given, sampler, enc);
      r.Success? ==> (0.0 < Value(MixtureOf(FromZToU(z, task).value.0).items[0]) < 1.0
        && 0.0 < Value(MixtureOf(FromZToU(z, task).value.0).items[1]) < 1.0)
    ensures var r := MultiEnvSpec(z, task, seed, num, parts, given, sampler, enc);
      r.Success? ==> r.value.Keys == PartitionKeys(parts)
    ensures var r := MultiEnvSpec(z, task, seed, num, parts, given, sampler, enc);
      r.Success? ==> forall k :: k in r.value ==> r.value[k]["n_env"] == Number(I(5))
    ensures var r := MultiEnvSpec(z, task, seed, num, parts, given, sampler, enc);
      r.Success? ==> forall k, key :: k in r.value && key in r.value[k] && key != "n_env" ==>
        r.value[k][key] == GenerateSpec(Setup(MixtureOf(FromZToU(z, task).value.0), seed, num, sampler, enc), parts, given).value[k][key]
  {
    var env := FromZToU(z, task);
    if env.Success? {
      var st := Setup(MixtureOf(env.value.0), seed, num, sampler, enc);
      MultiEnvFrom(z, task, seed, num, parts, given, sampler, enc, env.value.0);
      GenerateKeys(st, parts, given);
      var g := GenerateSpec(st, parts, given);
      if g.Success? {
        WithEnvSpec(g.value, 5);
      }
    }
  }

  /** The samples with `n_env` added to those under the keys in `done`. */
  function Marked(samples: map<string, Sample>, done: set<string>, size: int): (r: map<string, Sample>)
    ensures r.Keys == samples.Keys
  {
    map k | k in samples :: if k in done then samples[k]["n_env" := Number(I(size))] else samples[k]
  }

  /** One more key marked: the dictionary the loop body leaves behind. */
  lemma MarkStep(samples: map<string, Sample>, done: set<string>, size: int, p: string)
    requires p in samples
    ensures var m := Marked(samples, done, size);
      m[p := m[p]["n_env" := Number(I(size))]] == Marked(samples, done + {p}, size)
  {
    var m := Marked(samples, done, size);
    var m' := m[p := m[p]["n_env" := Number(I(size))]];
    var n := Marked(samples, done + {p}, size);
    assert m'.Keys == n.Keys;
    forall k | k in n
      ensures m'[k] == n[k]
    {
      if k == p {
        assert m[p]["n_env" := Number(I(size))] == samples[p]["n_env" := Number(I(size))];
      }
    }
  }

  /** With every key marked, the loop has built `WithEnv`. */
  lemma MarkedAll(samples: map<string, Sample>, size: int)
    ensures Marked(samples, samples.Keys, size) == WithEnv(samples, size)
  {
  }

  /** `generate_multienv_data` is `generate_data` on the environment's mixture, then `n_env`. */
  lemma MultiEnvFrom(z: int, task: Option<int>, seed: int, num: int, parts: seq<(string, real)>,
                     given: Option<ParamDict>, sampler: Sampler, enc: Encoder, pu0: real)
    requires FromZToU(z, task) == Success((pu0, 5))
    ensures var g := GenerateSpec(Setup(MixtureOf(pu0), seed, num, sampler, enc), parts, given);
      MultiEnvSpec(z, task, seed, num, parts, given, sampler, enc)
        == if g.Failure? then Failure(g.error) else Success(WithEnv(g.value, 5))
  {
  }

  /** The loop of `generate_multienv_data`: `n_env` set on the sample of each partition key in turn. */
  method AddEnvironmentCount(samples: map<string, Sample>, parts: seq<(string, real)>, size: int)
    returns (marked: map<string, Sample>)
    requires samples.Keys == PartitionKeys(parts)
    ensures marked == WithEnv(samples, size)
  {
    marked := samples;
    for i := 0 to |parts|
      invariant marked == Marked(samples, PartitionKeys(parts[..i]), size)
    {
      var p := parts[i].0;
      assert p in PartitionKeys(parts);
      MarkStep(samples, PartitionKeys(parts[..i]), size, p);
      marked := marked[p := marked[p]["n_env" := Number(I(size))]];
      assert parts[..i + 1][..i] == parts[..i];
      PartitionKeysStep(parts[..i + 1]);
    }
    assert parts[..|parts|] == parts;
    MarkedAll(samples, size);
  }

  /** `generate_multienv_data(z_indicator, seed, num_samples, task, partition_dict, param_dict)`. */
  method GenerateMultiEnvData(z: int, seed: int, num: int, task: Option<int>, parts: seq<(string, real)>,
                              given: Option<ParamDict>, sampler: Sampler, enc: Encoder)
    returns (r: Result<map<string, Sample>>)
    ensures r == MultiEnvSpec(z, task, seed, num, parts, given, sampler, enc)
  {
    var env := FromZToU(z, task);
    if env.Failure? {
      return Failure(env.error);
    }
    var (pu0, size) := env.value;
    MultiEnvFrom(z, task, seed, num, parts, given, sampler, enc, pu0);
    var g := GenerateData(MixtureOf(pu0), seed, num, parts, given, sampler, enc);
    if g.Failure? {
      return Failure(g.error);
    }
    GenerateKeys(Setup(MixtureOf(pu0), seed, num, sampler, enc), parts, given);
    var sampleDict := AddEnvironmentCount(g.value, parts, size);
    r := Success(sampleDict);
  }

  // ---------------------------------------------------------------- tidy_w

  /** `f"w_{w_value}"`. */
  function WKey(v: int): string
  {
    "w_" + IntToString(v)
  }

  /** The aliases and the columns they copy are different keys. */
  lemma WKeyApart(v: int)
    ensures WKey(v) !in {"w", "w_binary", "w_one_hot"}
    ensures WKey(v) + "_binary" !in {"w", "w_binary", "w_one_hot"}
    ensures WKey(v) + "_one_hot" !in {"w", "w_binary", "w_one_hot"}
  {
    var s := IntToString(v);
    var a, b, c := WKey(v), WKey(v) + "_binary", WKey(v) + "_one_hot";
    assert a[2] == s[0] && b[2] == s[0] && c[2] == s[0];
    assert "w_binary"[2] == 'b' && "w_one_hot"[2] == 'o';
  }

  predicate HasW(e: Sample, v: int)
  {
    WKey(v) in e && WKey(v) + "_binary" in e && WKey(v) + "_one_hot" in e
  }

  /** The dictionary with `w`, `w_binary` and `w_one_hot` copied from the chosen proxy's entries. */
  function Tidied(e: Sample, v: int): Sample
    requires HasW(e, v)
  {
    e + map["w" := e[WKey(v)], "w_binary" := e[WKey(v) + "_binary"], "w_one_hot" := e[WKey(v) + "_one_hot"]]
  }

  /** The three assignments for one key of `tidy_w`, each raising KeyError when its source is missing. */
  function TidyOne(e: Sample, v: int): (Sample, Outcome)
  {
    var wk := WKey(v);
    if wk !in e then (e, Fail(KeyError(wk)))
    else
      var e1 := e["w" := e[wk]];
      if wk + "_binary" !in e1 then (e1, Fail(KeyError(wk + "_binary")))
      else
        var e2 := e1["w_binary" := e1[wk + "_binary"]];
        if wk + "_one_hot" !in e2 then (e2, Fail(KeyError(wk + "_one_hot")))
        else (e2["w_one_hot" := e2[wk + "_one_hot"]], Pass)
  }

  /** The three assignments succeed exactly when the chosen proxy's three entries exist, and then copy them. */
  lemma TidyOneSpec(e: Sample, v: int)
    ensures TidyOne(e, v).1 == Pass <==> HasW(e, v)
    ensures HasW(e, v) ==> TidyOne(e, v).0 == Tidied(e, v)
    ensures !HasW(e, v) ==> TidyOne(e, v).1.error.KeyError?
  {
    WKeyApart(v);
  }

  /** Tidying twice is tidying once, so a dictionary reachable under two keys ends the same. */
  lemma TidyIdempotent(e: Sample, v: int)
    requires HasW(e, v)
    ensures HasW(Tidied(e, v), v) && TidyOne(Tidied(e, v), v) == (Tidied(e, v), Pass)
  {
    WKeyApart(v);
    var t := Tidied(e, v);
    TidyOneSpec(t, v);
    assert Tidied(t, v) == t;
  }

  /** A data dictionary that callers share: `tidy_w` writes into it. */
  class SampleTable {
    var entries: Sample

    constructor (e: Sample)
      ensures entries == e
    {
      entries := e;
    }

    /** The body of the `tidy_w` loop for one key. */
    method Tidy(v: int) returns (o: Outcome)
      modifies this
      ensures (entries, o) == TidyOne(old(entries), v)
    {
      var wk := WKey(v);
      if wk !in entries {
        return Fail(KeyError(wk));
      }
      entries := entries["w" := entries[wk]];
      if wk + "_binary" !in entries {
        return Fail(KeyError(wk + "_binary"));
      }
      entries := entries["w_binary" := entries[wk + "_binary"]];
      if wk + "_one_hot" !in entries {
        return Fail(KeyError(wk + "_one_hot"));
      }
      entries := entries["w_one_hot" := entries[wk + "_one_hot"]];
      o := Pass;
    }
  }

  // A loop over the items of a dictionary whose values are shared tables,
  // stepping each table in turn and stopping at the first failure. It is
  // stated over any key and value type, so that its proofs see `step` only
  // through the facts `Settles` gives.

  function Tables<K>(items: seq<(string, K)>): set<K>
  {
    set i | 0 <= i < |items| :: items[i].1
  }

  predicate Covers<K, V>(state: map<K, V>, items: seq<(string, K)>)
  {
    forall i :: 0 <= i < |items| ==> items[i].1 in state
  }

  /** Each item's table stepped in turn; the first failure stops the loop. */
  function Run<K, V>(state: map<K, V>, items: seq<(string, K)>, step: V -> (V, Outcome)): (r: (map<K, V>, Outcome))
    requires Covers(state, items)
    ensures r.0.Keys == state.Keys
    decreases |items|
  {
    if items == [] then (state, Pass)
    else
      var t := items[0].1;
      var (e, o) := step(state[t]);
      if o.Fail? then (state[t := e], o)
      else Run(state[t := e], items[1..], step)
  }

  /** One pass of the loop, at position n. */
  lemma RunStep<K, V>(state: map<K, V>, items: seq<(string, K)>, n: nat, step: V -> (V, Outcome))
    requires n < |items| && Covers(state, items[n..])
    ensures var t := items[n].1;
      var (e, o) := step(state[t]);
      Covers(state[t := e], items[n + 1..])
      && Run(state, items[n..], step) == if o.Fail? then (state[t := e], o) else Run(state[t := e], items[n + 1..], step)
  {
    assert items[n..][1..] == items[n + 1..];
  }

  /**
   * `step` succeeds exactly on the values that pass `ok`, and there it
   * applies `tidy`, which keeps `ok` and changes nothing a second time.
   */
  ghost predicate Settles<V(!new)>(step: V -> (V, Outcome), ok: V -> bool, tidy: V -> V)
  {
    forall x :: (ok(x) ==> step(x) == (tidy(x), Pass) && ok(tidy(x)) && tidy(tidy(x)) == tidy(x))
             && (!ok(x) ==> step(x).1.Fail?)
  }

  /** The position of the first item whose table fails `ok` (|items| if none). */
  function FirstFailing<K, V>(state: map<K, V>, items: seq<(string, K)>, ok: V -> bool): (f: nat)
    requires Covers(state, items)
    ensures f <= |items|
    ensures forall j :: 0 <= j < f ==> ok(state[items[j].1])
    ensures f < |items| ==> !ok(state[items[f].1])
    decreases |items|
  {
    if items == [] || !ok(state[items[0].1]) then 0
    else 1 + FirstFailing(state, items[1..], ok)
  }

  /** Only which tables pass `ok` decides where the loop stops. */
  lemma {:induction false} FirstFailingSame<K, V>(s1: map<K, V>, s2: map<K, V>, items: seq<(string, K)>, ok: V -> bool)
    requires Covers(s1, items) && Covers(s2, items)
    requires forall i :: 0 <= i < |items| ==> (ok(s1[items[i].1]) <==> ok(s2[items[i].1]))
    ensures FirstFailing(s1, items, ok) == FirstFailing(s2, items, ok)
    decreases |items|
  {
    if items != [] && ok(s1[items[0].1]) {
      FirstFailingSame(s1, s2, items[1..], ok);
    }
  }

  /**
   * A map with `tidy` applied to the entries under `done` that pass `ok`,
   * `part` to the entry under `stop`, and the rest kept.
   */
  function Written<K, V>(state: map<K, V>, done: set<K>, stop: Option<K>,
                         ok: V -> bool, tidy: V -> V, part: V -> V): (r: map<K, V>)
    ensures r.Keys == state.Keys
  {
    map k | k in state ::
      if k in done && ok(state[k]) then tidy(state[k])
      else if stop == Some(k) then part(state[k])
      else state[k]
  }

  /** With nothing done, only the entry under `stop` changes. */
  lemma WrittenNone<K, V>(state: map<K, V>, stop: Option<K>, ok: V -> bool, tidy: V -> V, part: V -> V)
    requires stop.Some? ==> stop.value in state
    ensures Written(state, {}, stop, ok, tidy, part)
         == if stop.Some? then state[stop.value := part(state[stop.value])] else state
  {
  }

  /** Applying `tidy` to one more entry first, when it is idempotent there, is adding it to `done`. */
  lemma WrittenShift<K, V>(state: map<K, V>, done: set<K>, stop: Option<K>,
                           ok: V -> bool, tidy: V -> V, part: V -> V, t: K)
    requires t in state && stop != Some(t)
    requires ok(state[t]) && ok(tidy(state[t])) && tidy(tidy(state[t])) == tidy(state[t])
    ensures Written(state[t := tidy(state[t])], done, stop, ok, tidy, part)
         == Written(state, {t} + done, stop, ok, tidy, part)
  {
    var a := Written(state[t := tidy(state[t])], done, stop, ok, tidy, part);
    var b := Written(state, {t} + done, stop, ok, tidy, part);
    forall k | k in state
      ensures a[k] == b[k]
    {
    }
  }

  /** The table of item f, if there is one. */
  function StopAt<K>(items: seq<(string, K)>, f: nat): Option<K>
  {
    if f < |items| then Some(items[f].1) else None
  }

  /** The tables of the first f items: the first item's and those of the next f - 1. */
  lemma TablesFront<K>(items: seq<(string, K)>, f: nat)
    requires 0 < f <= |items|
    ensures Tables(items[..f]) == {items[0].1} + Tables(items[1..][..f - 1])
  {
    var rest := items[1..];
    forall u | u in Tables(items[..f])
      ensures u in {items[0].1} + Tables(rest[..f - 1])
    {
      var j :| 0 <= j < f && items[..f][j].1 == u;
      if j > 0 {
        assert rest[..f - 1][j - 1].1 == u;
      }
    }
    forall u | u in Tables(rest[..f - 1])
      ensures u in Tables(items[..f])
    {
      var j :| 0 <= j < f - 1 && rest[..f - 1][j].1 == u;
      assert items[..f][j + 1].1 == u;
    }
    assert items[..f][0].1 == items[0].1;
  }

  function FirstOf<V>(step: V -> (V, Outcome)): V -> V
  {
    x => step(x).0
  }

  /** The tables after the loop stopped at position f. */
  function Partial<K, V>(state: map<K, V>, items: seq<(string, K)>, f: nat,
                         step: V -> (V, Outcome), ok: V -> bool, tidy: V -> V): map<K, V>
    requires f <= |items|
  {
    Written(state, Tables(items[..f]), StopAt(items, f), ok, tidy, FirstOf(step))
  }

  /** When the first table passes `ok`, the loop tidies it and goes on with the rest. */
  lemma RunFirst<K, V(!new)>(state: map<K, V>, items: seq<(string, K)>, step: V -> (V, Outcome), ok: V -> bool, tidy: V -> V)
    requires Settles(step, ok, tidy)
    requires Covers(state, items) && items != [] && ok(state[items[0].1])
    ensures var s1 := state[items[0].1 := tidy(state[items[0].1])];
      Covers(s1, items[1..])
      && FirstFailing(state, items, ok) == 1 + FirstFailing(s1, items[1..], ok)
      && Run(state, items, step) == Run(s1, items[1..], step)
  {
    var t := items[0].1;
    var x := state[t];
    assert step(x) == (tidy(x), Pass) && ok(tidy(x));
    var s1 := state[t := tidy(x)];
    var rest := items[1..];
    assert Covers(s1, rest);
    forall i | 0 <= i < |rest|
      ensures ok(s1[rest[i].1]) <==> ok(state[rest[i].1])
    {
    }
    FirstFailingSame(s1, state, rest, ok);
  }

  /** Tidying the first item's table and continuing with the rest gives the same partial state. */
  lemma PartialStep<K, V(!new)>(state: map<K, V>, items: seq<(string, K)>, f: nat,
                          step: V -> (V, Outcome), ok: V -> bool, tidy: V -> V)
    requires Settles(step, ok, tidy)
    requires Covers(state, items) && 0 < f <= |items|
    requires ok(state[items[0].1])
    requires f < |items| ==> !ok(state[items[f].1])
    ensures var t := items[0].1;
      Partial(state[t := tidy(state[t])], items[1..], f - 1, step, ok, tidy) == Partial(state, items, f, step, ok, tidy)
  {
    var t := items[0].1;
    var x := state[t];
    assert ok(tidy(x)) && tidy(tidy(x)) == tidy(x);
    TablesFront(items, f);
    assert StopAt(items[1..], f - 1) == StopAt(items, f) != Some(t);
    WrittenShift(state, Tables(items[1..][..f - 1]), StopAt(items, f), ok, tidy, FirstOf(step), t);
  }

  /**
   * The loop stops at the first table that fails `ok`, with that table's
   * failure, and leaves the tables as `Partial` describes; a table listed
   * under two keys is stepped twice, which changes nothing the second time.
   */
  lemma {:induction false} RunSpec<K, V(!new)>(state: map<K, V>, items: seq<(string, K)>,
                                         step: V -> (V, Outcome), ok: V -> bool, tidy: V -> V)
    requires Settles(step, ok, tidy) && Covers(state, items)
    ensures var f := FirstFailing(state, items, ok);
      Run(state, items, step) == (Partial(state, items, f, step, ok, tidy),
                                  if f == |items| then Pass else step(state[items[f].1]).1)
    decreases |items|
  {
    var f := FirstFailing(state, items, ok);
    if items == [] || !ok(state[items[0].1]) {
      assert Tables(items[..0]) == {};
      WrittenNone(state, StopAt(items, 0), ok, tidy, FirstOf(step));
      if items != [] {
        assert FirstOf(step)(state[items[0].1]) == step(state[items[0].1]).0;
        assert step(state[items[0].1]).1.Fail?;
      }
    } else {
      var t := items[0].1;
      var s1 := state[t := tidy(state[t])];
      var rest := items[1..];
      RunFirst(state, items, step, ok, tidy);
      RunSpec(s1, rest, step, ok, tidy);
      PartialStep(state, items, f, step, ok, tidy);
      var f1 := FirstFailing(s1, rest, ok);
      assert f1 == f - 1;
      if f < |items| {
        assert rest[f1] == items[f];
        assert !ok(state[items[f].1]) && ok(state[t]);
        assert s1[rest[f1].1] == state[items[f].1];
      }
    }
  }

  /** The loop succeeds exactly when every table passes `ok`, and then every table is tidied. */
  lemma RunPasses<K, V(!new)>(state: map<K, V>, items: seq<(string, K)>,
                              step: V -> (V, Outcome), ok: V -> bool, tidy: V -> V)
    requires Settles(step, ok, tidy) && Covers(state, items)
    ensures Run(state, items, step).1 == Pass <==> forall i :: 0 <= i < |items| ==> ok(state[items[i].1])
    ensures Run(state, items, step).1 == Pass ==> forall i :: 0 <= i < |items| ==>
      Run(state, items, step).0[items[i].1] == tidy(state[items[i].1])
  {
    RunSpec(state, items, step, ok, tidy);
    var f := FirstFailing(state, items, ok);
    if f < |items| {
      assert step(state[items[f].1]).1.Fail?;
    } else {
      forall i | 0 <= i < |items|
        ensures items[i].1 in Tables(items[..f])
      {
        assert items[..f][i] == items[i];
      }
    }
  }

  // `tidy_w` on the shared tables.

  /** What the given tables hold, as one value. */
  ghost function Snapshot(ts: set<SampleTable>): (r: map<SampleTable, Sample>)
    reads ts
    ensures r.Keys == ts && forall t :: t in ts ==> r[t] == t.entries
  {
    map t | t in ts :: t.entries
  }

  function TidyStep(v: int): Sample -> (Sample, Outcome)
  {
    e => TidyOne(e, v)
  }

  function HasWOf(v: int): Sample -> bool
  {
    e => HasW(e, v)
  }

  /** `Tidied` where the proxy's entries exist; the dictionary unchanged elsewhere. */
  function TidiedBy(v: int): Sample -> Sample
  {
    e => if HasW(e, v) then Tidied(e, v) else e
  }

  /** The three assignments fail exactly without the proxy's entries, and otherwise tidy, once and for all. */
  lemma TidySettles(v: int)
    ensures Settles(TidyStep(v), HasWOf(v), TidiedBy(v))
  {
    forall x: Sample
      ensures HasWOf(v)(x) ==> TidyStep(v)(x) == (TidiedBy(v)(x), Pass) && HasWOf(v)(TidiedBy(v)(x))
                               && TidiedBy(v)(TidiedBy(v)(x)) == TidiedBy(v)(x)
      ensures !HasWOf(v)(x) ==> TidyStep(v)(x).1.Fail?
    {
      TidyOneSpec(x, v);
      if HasW(x, v) {
        TidyIdempotent(x, v);
        TidyOneSpec(Tidied(x, v), v);
      }
    }
  }

  /** The `tidy_w` loop on the tables' contents. */
  function TidyRun(state: map<SampleTable, Sample>, items: seq<(string, SampleTable)>, v: int)
    : (r: (map<SampleTable, Sample>, Outcome))
    requires Covers(state, items)
  {
    Run(state, items, TidyStep(v))
  }

  /**
   * `tidy_w` stops at the first table without the chosen proxy's three
   * entries, with that KeyError; the tables of the items before it are
   * tidied, its own is partly written, the rest are untouched.
   */
  lemma TidyRunSpec(state: map<SampleTable, Sample>, items: seq<(string, SampleTable)>, v: int)
    requires Covers(state, items)
    ensures var f := FirstFailing(state, items, HasWOf(v));
      TidyRun(state, items, v)
        == (Partial(state, items, f, TidyStep(v), HasWOf(v), TidiedBy(v)),
            if f == |items| then Pass else TidyOne(state[items[f].1], v).1)
    ensures var f := FirstFailing(state, items, HasWOf(v));
      f < |items| ==> !HasW(state[items[f].1], v) && TidyRun(state, items, v).1.error.KeyError?
  {
    TidySettles(v);
    RunSpec(state, items, TidyStep(v), HasWOf(v), TidiedBy(v));
    var f := FirstFailing(state, items, HasWOf(v));
    if f < |items| {
      assert !HasWOf(v)(state[items[f].1]);
      TidyOneSpec(state[items[f].1], v);
    }
  }

  /**
   * `tidy_w` succeeds exactly when every table has the chosen proxy's three
   * entries, and then every table is tidied.
   */
  lemma TidyRunPasses(state: map<SampleTable, Sample>, items: seq<(string, SampleTable)>, v: int)
    requires Covers(state, items)
    ensures TidyRun(state, items, v).1 == Pass <==> forall i :: 0 <= i < |items| ==> HasW(state[items[i].1], v)
    ensures TidyRun(state, items, v).1 == Pass ==> forall i :: 0 <= i < |items| ==>
      TidyRun(state, items, v).0[items[i].1] == Tidied(state[items[i].1], v)
  {
    TidySettles(v);
    RunPasses(state, items, TidyStep(v), HasWOf(v), TidiedBy(v));
    forall i | 0 <= i < |items|
      ensures HasWOf(v)(state[items[i].1]) == HasW(state[items[i].1], v)
      ensures HasW(state[items[i].1], v) ==> TidiedBy(v)(state[items[i].1]) == Tidied(state[items[i].1], v)
    {
    }
  }

  /**
   * `tidy_w(data_dict, w_value)`: `data_dict.copy()` is shallow, so the
   * returned dictionary holds the caller's own tables and the writes land in
   * them, as `TidyRun` describes.
   */
  method TidyW(items: seq<(string, SampleTable)>, v: int) returns (result: seq<(string, SampleTable)>, o: Outcome)
    modifies Tables(items)
    ensures result == items
    ensures var r := TidyRun(old(Snapshot(Tables(items))), items, v);
      o == r.1 && forall t :: t in Tables(items) ==> t.entries == r.0[t]
  {
    result := items;
    ghost var before := Snapshot(Tables(items));
    ghost var current := before;
    for n := 0 to |items|
      invariant current.Keys == Tables(items)
      invariant forall u :: u in Tables(items) ==> u.entries == current[u]
      invariant TidyRun(before, items, v) == TidyRun(current, items[n..], v)
    {
      var t := items[n].1;
      RunStep(current, items, n, TidyStep(v));
      var r := t.Tidy(v);
      current := current[t := t.entries];
      if r.Fail? {
        o := r;
        return;
      }
    }
    o := Pass;
  }
}
