/**
 * The parameter dictionary of the synthetic-data simulators (data_lsa.py):
 * defaults overridden key by key, the coefficient-times-matrix
 * initialisation, and later updates. The random sampling that reads the
 * dictionary is not part of this model.
 */
module Simulation {
  import opened Wrappers
  import opened NdArrays
  import opened Text

  /** A Python number: an int, or a float. */
  datatype Num = I(i: int) | F(r: real)

  function Value(n: Num): real
  {
    match n
    case I(i) => i as real
    case F(r) => r
  }

  /** A parameter value: a number, a list of numbers, or a numpy array. */
  datatype Param = Number(n: Num) | List(items: seq<Num>) | Array(a: NdArray)

  type ParamDict = map<string, Param>

  /** `int * int` stays an int; anything with a float is a float. */
  function MulNum(x: Num, y: Num): (r: Num)
    ensures Value(r) == Value(x) * Value(y)
    ensures r.I? <==> x.I? && y.I?
  {
    if x.I? && y.I? then I(x.i * y.i) else F(Value(x) * Value(y))
  }

  /** `c * a` for a number c and an array a: every entry scaled, shape kept. */
  function Scale(c: real, a: NdArray): (r: NdArray)
    ensures r.shape == a.shape && |r.data| == |a.data|
    ensures forall i :: 0 <= i < |a.data| ==> r.data[i] == c * a.data[i]
  {
    NdArray(a.shape, seq(|a.data|, i requires 0 <= i < |a.data| => c * a.data[i]))
  }

  /** `xs * k` on a Python list: k copies of xs, none when k <= 0. */
  function Repeat(xs: seq<Num>, k: int): (r: seq<Num>)
    ensures |r| == if k <= 0 then 0 else k * |xs|
    decreases k
  {
    if k <= 0 then [] else xs + Repeat(xs, k - 1)
  }

  /** Entry-wise product of two arrays of one shape. */
  function Product(a: NdArray, b: NdArray): (r: NdArray)
    requires a.shape == b.shape && |a.data| == |b.data|
    ensures r.shape == a.shape && |r.data| == |a.data|
    ensures forall i :: 0 <= i < |a.data| ==> r.data[i] == a.data[i] * b.data[i]
  {
    NdArray(a.shape, seq(|a.data|, i requires 0 <= i < |a.data| => a.data[i] * b.data[i]))
  }

  /** A list used as a numpy operand: a 1-d array. */
  function AsArray(xs: seq<Num>): (r: NdArray)
    ensures r.shape == [|xs|] && |r.data| == |xs|
  {
    NdArray([|xs|], seq(|xs|, i requires 0 <= i < |xs| => Value(xs[i])))
  }

  /** Entry-wise product of equally shaped arrays; other shapes are rejected. */
  function ArrayProduct(a: NdArray, b: NdArray): (r: Result<Param>)
    ensures r.Success? <==> a.shape == b.shape && |a.data| == |b.data|
  {
    if a.shape == b.shape && |a.data| == |b.data| then Success(Array(Product(a, b))) else Failure(ValueError)
  }

  /** Python's `*` on two parameter values. */
  function Mul(x: Param, y: Param): (r: Result<Param>)
    ensures x.Number? && y.Number? ==> r == Success(Number(MulNum(x.n, y.n)))
    ensures x.Number? && y.Array? ==> r == Success(Array(Scale(Value(x.n), y.a)))
    ensures x.Number? && x.n.I? && y.List? ==> r == Success(List(Repeat(y.items, x.n.i)))
    ensures x.Number? && x.n.I? ==> r.Success?
  {
    match (x, y)
    case (Number(a), Number(b)) => Success(Number(MulNum(a, b)))
    case (Number(a), Array(m)) => Success(Array(Scale(Value(a), m)))
    case (Array(m), Number(b)) => Success(Array(Scale(Value(b), m)))
    case (Number(I(k)), List(xs)) => Success(List(Repeat(xs, k)))
    case (List(xs), Number(I(k))) => Success(List(Repeat(xs, k)))
    case (Array(m), Array(n)) => ArrayProduct(m, n)
    case (Array(m), List(xs)) => ArrayProduct(m, AsArray(xs))
    case (List(xs), Array(m)) => ArrayProduct(AsArray(xs), m)
    case _ => Failure(TypeError)
  }

  // ---------------------------------------------------------------- overriding

  /** `d[key] = value` for each entry of g: g's entries win, every other entry of d stays. */
  function Override(d: ParamDict, g: ParamDict): (r: ParamDict)
    ensures r.Keys == d.Keys + g.Keys
    ensures forall k :: k in g ==> r[k] == g[k]
    ensures forall k :: k in d && k !in g ==> r[k] == d[k]
  {
    d + g
  }

  /** A second override with a superset of keys hides the first completely. */
  lemma OverrideTwice(d: ParamDict, g1: ParamDict, g2: ParamDict)
    requires g1.Keys <= g2.Keys
    ensures Override(Override(d, g1), g2) == Override(d, g2)
  {
    var l, r := Override(Override(d, g1), g2), Override(d, g2);
    assert l.Keys == r.Keys;
    forall k | k in l
      ensures l[k] == r[k]
    {
    }
  }

  /** The dictionary the constructor starts from, with the optional override applied. */
  function Merged(defaults: ParamDict, given: Option<ParamDict>): ParamDict
  {
    if given.Some? then Override(defaults, given.value) else defaults
  }

  /** The entries of g whose keys are in ks. */
  function Restrict(g: ParamDict, ks: set<string>): (r: ParamDict)
    ensures r.Keys == g.Keys * ks
    ensures forall k :: k in r ==> r[k] == g[k]
  {
    map k | k in g.Keys && k in ks :: g[k]
  }

  /** One more entry written extends the part of g already written. */
  lemma RestrictStep(d: ParamDict, g: ParamDict, done: set<string>, k: string)
    requires k in g
    ensures Override(d, Restrict(g, done))[k := g[k]] == Override(d, Restrict(g, done + {k}))
  {
    var l, r := Override(d, Restrict(g, done))[k := g[k]], Override(d, Restrict(g, done + {k}));
    assert l.Keys == r.Keys;
  }

  /** Restricted to all its keys, a dictionary is itself. */
  lemma RestrictAll(g: ParamDict)
    ensures Restrict(g, g.Keys) == g
  {
  }

  // ---------------------------------------------------------------- initialize

  /** The six `{key}_coeff * {key}_mat` products of `Simulator.initialize`. */
  function SixKeys(): seq<string>
  {
    ["mu_w_u", "mu_x_u", "mu_y_c", "mu_y_u", "mu_c_u", "mu_c_x"]
  }

  /** The five of `MultiWSimulator.initialize` (W gets one matrix per coefficient instead). */
  function FiveKeys(): seq<string>
  {
    ["mu_x_u", "mu_y_c", "mu_y_u", "mu_c_u", "mu_c_x"]
  }

  /** `param_dict[f"{key}_coeff"] * param_dict[f"{key}_mat"]`, coefficient read first. */
  function Scaled(d: ParamDict, key: string): (r: Result<Param>)
    ensures r.Success? ==> key + "_coeff" in d && key + "_mat" in d && r == Mul(d[key + "_coeff"], d[key + "_mat"])
    ensures key + "_coeff" !in d ==> r == Failure(KeyError(key + "_coeff"))
    ensures key + "_coeff" in d && key + "_mat" !in d ==> r == Failure(KeyError(key + "_mat"))
  {
    var c :- Get(d, key + "_coeff");
    var m :- Get(d, key + "_mat");
    Mul(c, m)
  }

  /** The loop over keys: each product is stored before the next is read; an exception stops it. */
  function ScaleKeys(d: ParamDict, keys: seq<string>): (r: (ParamDict, Outcome))
    decreases |keys|
  {
    if keys == [] then (d, Pass)
    else
      match Scaled(d, keys[0])
      case Failure(e) => (d, Fail(e))
      case Success(v) => ScaleKeys(d[keys[0] := v], keys[1..])
  }

  /** No key of the list is the coefficient or matrix name of another. */
  predicate SourcesApart(keys: seq<string>)
  {
    forall i, j :: 0 <= i < |keys| && 0 <= j < |keys| ==>
      keys[i] != keys[j] + "_coeff" && keys[i] != keys[j] + "_mat"
  }

  /** The product for each listed key. */
  function Products(d: ParamDict, keys: seq<string>): (r: ParamDict)
    requires forall k :: k in keys ==> Scaled(d, k).Success?
    ensures r.Keys == set k | k in keys
    ensures forall k :: k in keys ==> Success(r[k]) == Scaled(d, k)
  {
    map k | k in keys :: Scaled(d, k).value
  }

  /**
   * When the products do not overwrite their own factors, the loop succeeds
   * iff every product can be formed from the original dictionary, and then
   * the dictionary is overridden by exactly those products.
   */
  lemma {:induction false} ScaleKeysSpec(d: ParamDict, keys: seq<string>)
    requires SourcesApart(keys)
    ensures ScaleKeys(d, keys).1 == Pass <==> forall k :: k in keys ==> Scaled(d, k).Success?
    ensures ScaleKeys(d, keys).1 == Pass ==> ScaleKeys(d, keys).0 == Override(d, Products(d, keys))
    decreases |keys|
  {
    if keys == [] {
      assert Override(d, Products(d, keys)) == d;
    } else {
      var k0 := keys[0];
      var rest := keys[1..];
      assert keys == [k0] + rest;
      assert SourcesApart(rest) by {
        forall i, j | 0 <= i < |rest| && 0 <= j < |rest|
          ensures rest[i] != rest[j] + "_coeff" && rest[i] != rest[j] + "_mat"
        {
          assert rest[i] == keys[i + 1] && rest[j] == keys[j + 1];
        }
      }
      match Scaled(d, k0)
      case Failure(e) =>
      case Success(v) =>
        var d1 := d[k0 := v];
        // The factors of the remaining keys are not k0, so they read the same in d1.
        forall k | k in rest
          ensures Scaled(d1, k) == Scaled(d, k)
        {
          var j :| 0 <= j < |rest| && rest[j] == k;
          assert rest[j] == keys[j + 1];
          assert k0 != k + "_coeff" && k0 != k + "_mat";
        }
        ScaleKeysSpec(d1, rest);
        assert ScaleKeys(d, keys) == ScaleKeys(d1, rest);
        if ScaleKeys(d, keys).1 == Pass {
          ProductsStep(d, k0, v, rest);
        }
    }
  }

  /** Storing the first product, then the rest, is one override by all of them. */
  lemma ProductsStep(d: ParamDict, k0: string, v: Param, rest: seq<string>)
    requires Scaled(d, k0) == Success(v)
    requires forall k :: k in rest ==> Scaled(d, k).Success? && Scaled(d[k0 := v], k) == Scaled(d, k)
    ensures Override(d[k0 := v], Products(d[k0 := v], rest)) == Override(d, Products(d, [k0] + rest))
  {
    var p1, p := Products(d[k0 := v], rest), Products(d, [k0] + rest);
    assert p.Keys == p1.Keys + {k0};
    forall k | k in p1
      ensures p[k] == p1[k]
    {
      assert Success(p1[k]) == Scaled(d, k) == Success(p[k]);
    }
    OverrideStep(d, k0, v, p1, p);
  }

  /** Writing k0 and then p1 is overriding by p, when p is p1 plus k0 (holding v). */
  lemma OverrideStep(d: ParamDict, k0: string, v: Param, p1: ParamDict, p: ParamDict)
    requires p.Keys == p1.Keys + {k0} && p[k0] == v
    requires forall k :: k in p1 ==> p[k] == p1[k]
    ensures Override(d[k0 := v], p1) == Override(d, p)
  {
    var l, r := Override(d[k0 := v], p1), Override(d, p);
    assert l.Keys == r.Keys;
  }

  /** A coefficient of the W list, rendered into the key `mu_w_u_{c}`. */
  function CoefficientKey(c: int): string
  {
    "mu_w_u_" + IntToString(c)
  }

  /** Different coefficients get different keys. */
  lemma CoefficientKeyInjective(a: int, b: int)
    requires CoefficientKey(a) == CoefficientKey(b)
    ensures a == b
  {
    assert CoefficientKey(a)[7..] == IntToString(a);
    assert CoefficientKey(b)[7..] == IntToString(b);
    IntToStringInjective(a, b);
  }

  /** `param_dict[f"mu_w_u_{c}"] = c * param_dict["mu_w_u_mat"]` for each c, in order. */
  function ScaleCoefficients(d: ParamDict, cs: seq<Num>): (r: (ParamDict, Outcome))
    decreases |cs|
  {
    if cs == [] then (d, Pass)
    else if !cs[0].I? then (d, Fail(TypeError))
    else
      match Get(d, "mu_w_u_mat")
      case Failure(e) => (d, Fail(e))
      case Success(m) =>
        match Mul(Number(cs[0]), m)
        case Failure(e) => (d, Fail(e))
        case Success(v) => ScaleCoefficients(d[CoefficientKey(cs[0].i) := v], cs[1..])
  }

  /** Which simulator class: the base `Simulator`, or `MultiWSimulator`. */
  datatype Kind = Base | MultiW

  /** `initialize()` of each class. */
  function InitSpec(kind: Kind, d: ParamDict): (r: (ParamDict, Outcome))
  {
    match kind
    case Base => ScaleKeys(d, SixKeys())
    case MultiW => InitMultiW(d, FiveKeys())
  }

  /** `MultiWSimulator.initialize`: the listed products, then one W matrix per listed coefficient. */
  function InitMultiW(d: ParamDict, keys: seq<string>): (r: (ParamDict, Outcome))
  {
    var (d1, o1) := ScaleKeys(d, keys);
    if o1.Fail? then (d1, o1)
    else
      match Get(d1, "mu_w_u_coeff_list")
      case Failure(e) => (d1, Fail(e))
      case Success(cl) => if cl.List? then ScaleCoefficients(d1, cl.items) else (d1, Fail(TypeError))
  }

  /** A coefficient key starts "mu_w_u_" followed by a digit or a minus sign. */
  lemma CoefficientKeyShape(c: int)
    ensures |CoefficientKey(c)| >= 8 && CoefficientKey(c)[..7] == "mu_w_u_"
    ensures var ch := CoefficientKey(c)[7]; ch == '-' || IsDigit(ch)
  {
    var s := IntToString(c);
    assert CoefficientKey(c)[7] == s[0];
  }

  /** Coefficient keys never name the matrix, the list, or one of the five products. */
  lemma CoefficientKeyApart(c: int)
    ensures CoefficientKey(c) != "mu_w_u_mat" && CoefficientKey(c) != "mu_w_u_coeff_list"
    ensures CoefficientKey(c) !in FiveKeys()
  {
    CoefficientKeyShape(c);
    var k := CoefficientKey(c);
    assert "mu_w_u_mat"[7] == 'm' && "mu_w_u_coeff_list"[7] == 'c';
    assert k != "mu_w_u_mat" && k != "mu_w_u_coeff_list";
    forall j | 0 <= j < 5
      ensures k != FiveKeys()[j]
    {
      assert |FiveKeys()[j]| == 6;
    }
  }

  /** The matrices the W loop stores: `mu_w_u_{c}` for each listed c, a later c winning. */
  function CoefficientMats(cs: seq<Num>, m: Param): ParamDict
    requires forall j :: 0 <= j < |cs| ==> cs[j].I?
    decreases |cs|
  {
    if cs == [] then map[]
    else Override(map[CoefficientKey(cs[0].i) := Mul(Number(cs[0]), m).value], CoefficientMats(cs[1..], m))
  }

  /** Exactly one matrix per listed coefficient. */
  lemma {:induction false} CoefficientMatsKeys(cs: seq<Num>, m: Param)
    requires forall j :: 0 <= j < |cs| ==> cs[j].I?
    ensures forall k :: k in CoefficientMats(cs, m) <==> exists j :: 0 <= j < |cs| && k == CoefficientKey(cs[j].i)
    decreases |cs|
  {
    if cs != [] {
      var rest := cs[1..];
      CoefficientMatsKeys(rest, m);
      forall k
        ensures k in CoefficientMats(cs, m) <==> exists j :: 0 <= j < |cs| && k == CoefficientKey(cs[j].i)
      {
        if exists j :: 0 <= j < |cs| && k == CoefficientKey(cs[j].i) {
          var j :| 0 <= j < |cs| && k == CoefficientKey(cs[j].i);
          if j > 0 {
            assert rest[j - 1] == cs[j];
          }
        }
        if k in CoefficientMats(rest, m) {
          var j :| 0 <= j < |rest| && k == CoefficientKey(rest[j].i);
          assert rest[j] == cs[j + 1];
        }
      }
    }
  }

  /** `mu_w_u_{c}` is c times the W matrix, for every listed c. */
  lemma {:induction false} CoefficientMatsValues(cs: seq<Num>, m: Param)
    requires forall j :: 0 <= j < |cs| ==> cs[j].I?
    ensures forall j :: 0 <= j < |cs| ==>
      CoefficientKey(cs[j].i) in CoefficientMats(cs, m) &&
      Success(CoefficientMats(cs, m)[CoefficientKey(cs[j].i)]) == Mul(Number(cs[j]), m)
    decreases |cs|, 1
  {
    if cs != [] {
      var rest := cs[1..];
      CoefficientMatsValues(rest, m);
      CoefficientMatsKeys(rest, m);
      FirstCoefficient(cs, m);
      var r, tail := CoefficientMats(cs, m), CoefficientMats(rest, m);
      forall j | 0 < j < |cs|
        ensures CoefficientKey(cs[j].i) in r && Success(r[CoefficientKey(cs[j].i)]) == Mul(Number(cs[j]), m)
      {
        assert cs[j] == rest[j - 1];
        assert CoefficientKey(cs[j].i) in tail;
      }
    }
  }

  /** The first coefficient's matrix survives the later ones: a repeated key holds the same product. */
  lemma {:induction false} FirstCoefficient(cs: seq<Num>, m: Param)
    requires cs != [] && forall j :: 0 <= j < |cs| ==> cs[j].I?
    ensures CoefficientKey(cs[0].i) in CoefficientMats(cs, m)
    ensures Success(CoefficientMats(cs, m)[CoefficientKey(cs[0].i)]) == Mul(Number(cs[0]), m)
    decreases |cs|, 0
  {
    var rest := cs[1..];
    var key := CoefficientKey(cs[0].i);
    var tail := CoefficientMats(rest, m);
    CoefficientMatsKeys(rest, m);
    if key in tail {
      var q :| 0 <= q < |rest| && key == CoefficientKey(rest[q].i);
      CoefficientKeyInjective(cs[0].i, rest[q].i);
      CoefficientMatsValues(rest, m);
      assert rest[q] == cs[0];
    }
  }

  /** Writing one entry and then a dictionary is writing the two together. */
  lemma OverrideCons(d: ParamDict, k: string, v: Param, g: ParamDict)
    ensures Override(d[k := v], g) == Override(d, Override(map[k := v], g))
  {
    var l, r := Override(d[k := v], g), Override(d, Override(map[k := v], g));
    assert l.Keys == r.Keys;
  }

  /**
   * The W loop of `MultiWSimulator.initialize` succeeds iff every listed
   * coefficient is an int and, when there is one, "mu_w_u_mat" is present;
   * the dictionary is then overridden by the coefficient matrices.
   */
  lemma {:induction false} ScaleCoefficientsSpec(d: ParamDict, cs: seq<Num>)
    ensures ScaleCoefficients(d, cs).1 == Pass <==>
      (forall j :: 0 <= j < |cs| ==> cs[j].I?) && (|cs| > 0 ==> "mu_w_u_mat" in d)
    ensures ScaleCoefficients(d, cs).1 == Pass && |cs| > 0 ==>
      ScaleCoefficients(d, cs).0 == Override(d, CoefficientMats(cs, d["mu_w_u_mat"]))
    decreases |cs|
  {
    if cs != [] && cs[0].I? && "mu_w_u_mat" in d {
      var m := d["mu_w_u_mat"];
      var key := CoefficientKey(cs[0].i);
      var v := Mul(Number(cs[0]), m).value;
      var d1 := d[key := v];
      CoefficientKeyApart(cs[0].i);
      assert d1["mu_w_u_mat"] == m;
      var rest := cs[1..];
      ScaleCoefficientsSpec(d1, rest);
      assert ScaleCoefficients(d, cs) == ScaleCoefficients(d1, rest);
      assert (forall j :: 0 <= j < |cs| ==> cs[j].I?) <==> (forall j :: 0 <= j < |rest| ==> rest[j].I?) by {
        assert forall j :: 0 <= j < |rest| ==> rest[j] == cs[j + 1];
      }
      if ScaleCoefficients(d, cs).1 == Pass {
        OverrideCons(d, key, v, CoefficientMats(rest, m));
        if rest == [] {
          assert Override(d1, map[]) == d1;
        }
      }
    } else if cs != [] && (forall j :: 0 <= j < |cs| ==> cs[j].I?) {
      assert cs[0].I?;
    }
  }

  // ---------------------------------------------------------------- defaults

  function Mat(shape: seq<nat>, entries: seq<int>): Param
  {
    Array(NdArray(shape, seq(|entries|, i requires 0 <= i < |entries| => entries[i] as real)))
  }

  /** `get_default_param_dict()`: empty for the base class, the MultiW table otherwise. */
  function Defaults(kind: Kind): ParamDict
  {
    match kind
    case Base => map[]
    case MultiW =>
      map[
        "num_samples" := Number(I(10000)),
        "k_w" := Number(I(1)),
        "k_x" := Number(I(2)),
        "k_c" := Number(I(3)),
        "k_y" := Number(I(1)),
        "mu_w_u_coeff_list" := List([I(1), I(2), I(3)]),
        "mu_x_u_coeff" := Number(I(1)),
        "mu_y_u_coeff" := Number(I(2)),
        "mu_y_c_coeff" := Number(I(2)),
        "mu_c_u_coeff" := Number(I(1)),
        "mu_c_x_coeff" := Number(I(3)),
        "mu_w_u_mat" := Mat([2, 1], [-1, 1]),
        "mu_x_u_mat" := Mat([2, 2], [-1, 1, 1, -1]),
        "mu_c_u_mat" := Mat([2, 3], [-2, 2, 2, -1, 1, 2]),
        "mu_c_x_mat" := Mat([2, 2, 3], [-2, 2, -1, 1, -2, -3, 2, -2, 1, -1, 2, 3]),
        "mu_y_c_mat" := Mat([2, 3], [3, -2, -1, 3, -1, -2]),
        "mu_y_u_mat" := Mat([2, 1], [1, 1]),
        "sd_c" := Number(F(0.0)),
        "sd_y" := Number(F(0.0)),
        "p_u" := List([F(0.5), F(0.5)])
      ]
  }

  lemma SixKeysApart()
    ensures SourcesApart(SixKeys()) && SourcesApart(FiveKeys())
  {
    var six := SixKeys();
    forall i, j | 0 <= i < 6 && 0 <= j < 6
      ensures six[i] != six[j] + "_coeff" && six[i] != six[j] + "_mat"
    {
      assert |six[i]| == 6 && |six[j]| == 6;
    }
    var five := FiveKeys();
    forall i, j | 0 <= i < 5 && 0 <= j < 5
      ensures five[i] != five[j] + "_coeff" && five[i] != five[j] + "_mat"
    {
      assert |five[i]| == 6 && |five[j]| == 6;
    }
  }

  /**
   * `Simulator.initialize` succeeds iff all six products can be formed; the
   * dictionary is then overridden by them.
   */
  lemma BaseInitialize(d: ParamDict)
    ensures InitSpec(Base, d).1 == Pass <==> forall k :: k in SixKeys() ==> Scaled(d, k).Success?
    ensures InitSpec(Base, d).1 == Pass ==> InitSpec(Base, d).0 == Override(d, Products(d, SixKeys()))
  {
    SixKeysApart();
    ScaleKeysSpec(d, SixKeys());
  }

  /** The base class alone has no defaults, so constructing it without a dictionary fails. */
  lemma BaseNeedsParameters()
    ensures InitSpec(Base, Merged(Defaults(Base), None)) == (map[], Fail(KeyError("mu_w_u_coeff")))
  {
    assert SixKeys()[0] + "_coeff" == "mu_w_u_coeff";
  }

  /**
   * `MultiWSimulator.initialize` on a dictionary that has all five factor
   * pairs, a list of int coefficients and the W matrix: it succeeds, and the
   * result is the five products followed by the coefficient matrices.
   */
  lemma WLoopResult(d: ParamDict, cs: seq<Num>, m: Param)
    requires "mu_w_u_mat" in d && d["mu_w_u_mat"] == m && forall j :: 0 <= j < |cs| ==> cs[j].I?
    ensures ScaleCoefficients(d, cs) == (Override(d, CoefficientMats(cs, m)), Pass)
  {
    if cs == [] {
      assert Override(d, map[]) == d;
    } else {
      ScaleCoefficientsSpec(d, cs);
    }
  }

  /** The W inputs are not among the five product keys. */
  lemma WInputsNotProducts()
    ensures "mu_w_u_coeff_list" !in FiveKeys() && "mu_w_u_mat" !in FiveKeys()
  {
    forall j | 0 <= j < 5
      ensures FiveKeys()[j] != "mu_w_u_coeff_list" && FiveKeys()[j] != "mu_w_u_mat"
    {
      assert |FiveKeys()[j]| == 6;
    }
  }

  lemma MultiWInitialize(d: ParamDict)
    requires forall k :: k in FiveKeys() ==> Scaled(d, k).Success?
    requires "mu_w_u_coeff_list" in d && d["mu_w_u_coeff_list"].List?
    requires forall j :: 0 <= j < |d["mu_w_u_coeff_list"].items| ==> d["mu_w_u_coeff_list"].items[j].I?
    requires "mu_w_u_mat" in d
    ensures InitSpec(MultiW, d) ==
      (Override(Override(d, Products(d, FiveKeys())), CoefficientMats(d["mu_w_u_coeff_list"].items, d["mu_w_u_mat"])), Pass)
  {
    SixKeysApart();
    WInputsNotProducts();
    InitMultiWSpec(d, FiveKeys());
  }

  /** `InitMultiW` for any product list that leaves the factors and the W inputs alone. */
  lemma InitMultiWSpec(d: ParamDict, keys: seq<string>)
    requires SourcesApart(keys) && "mu_w_u_coeff_list" !in keys && "mu_w_u_mat" !in keys
    requires forall k :: k in keys ==> Scaled(d, k).Success?
    requires "mu_w_u_coeff_list" in d && d["mu_w_u_coeff_list"].List?
    requires forall j :: 0 <= j < |d["mu_w_u_coeff_list"].items| ==> d["mu_w_u_coeff_list"].items[j].I?
    requires "mu_w_u_mat" in d
    ensures InitMultiW(d, keys) ==
      (Override(Override(d, Products(d, keys)), CoefficientMats(d["mu_w_u_coeff_list"].items, d["mu_w_u_mat"])), Pass)
  {
    ScaleKeysSpec(d, keys);
    var d1 := Override(d, Products(d, keys));
    assert d1["mu_w_u_coeff_list"] == d["mu_w_u_coeff_list"] && d1["mu_w_u_mat"] == d["mu_w_u_mat"];
    var cs := d["mu_w_u_coeff_list"].items;
    assert InitMultiW(d, keys) == ScaleCoefficients(d1, cs);
    WLoopResult(d1, cs, d["mu_w_u_mat"]);
  }

  // ---------------------------------------------------------------- the object

  class Simulator {
    const kind: Kind
    var paramDict: ParamDict

    /**
     * The dictionary part of `__init__`: the class defaults, then each
     * supplied entry written over them.
     */
    constructor (kind: Kind, given: Option<ParamDict>)
      ensures this.kind == kind
      ensures paramDict == Merged(Defaults(kind), given)
    {
      this.kind := kind;
      paramDict := Defaults(kind);
      new;
      if given.Some? {
        UpdateParamDict(given.value);
      }
    }

    /** `__init__` as a whole: the merged dictionary, then `initialize()`. */
    static method New(kind: Kind, given: Option<ParamDict>) returns (r: Result<Simulator>)
      ensures r.Success? ==> fresh(r.value) && r.value.kind == kind
      ensures var (d, o) := InitSpec(kind, Merged(Defaults(kind), given));
        && (r.Success? <==> o == Pass)
        && (r.Success? ==> r.value.paramDict == d)
        && (r.Failure? ==> r.error == o.error)
    {
      var s := new Simulator(kind, given);
      var o := s.Initialize();
      if o.Fail? {
        return Failure(o.error);
      }
      r := Success(s);
    }

    /** `initialize()`: the products of the class, stored one after another. */
    method Initialize() returns (o: Outcome)
      modifies this
      ensures (paramDict, o) == InitSpec(kind, old(paramDict))
    {
      var keys := if kind == Base then SixKeys() else FiveKeys();
      o := ScaleAll(keys);
      if kind == MultiW && o == Pass {
        if "mu_w_u_coeff_list" !in paramDict {
          return Fail(KeyError("mu_w_u_coeff_list"));
        }
        var cl := paramDict["mu_w_u_coeff_list"];
        if !cl.List? {
          return Fail(TypeError);
        }
        o := ScaleEachCoefficient(cl.items);
      }
    }

    /** The loop over the listed keys. */
    method ScaleAll(keys: seq<string>) returns (o: Outcome)
      modifies this
      ensures (paramDict, o) == ScaleKeys(old(paramDict), keys)
    {
      for i := 0 to |keys|
        invariant ScaleKeys(old(paramDict), keys) == ScaleKeys(paramDict, keys[i..])
      {
        var key := keys[i];
        assert keys[i..][1..] == keys[i + 1..];
        var v := Scaled(paramDict, key);
        if v.Failure? {
          return Fail(v.error);
        }
        paramDict := paramDict[key := v.value];
      }
      o := Pass;
    }

    /** The loop over the W coefficients of `MultiWSimulator.initialize`. */
    method ScaleEachCoefficient(cs: seq<Num>) returns (o: Outcome)
      modifies this
      ensures (paramDict, o) == ScaleCoefficients(old(paramDict), cs)
    {
      for i := 0 to |cs|
        invariant ScaleCoefficients(old(paramDict), cs) == ScaleCoefficients(paramDict, cs[i..])
      {
        assert cs[i..][1..] == cs[i + 1..];
        var c := cs[i];
        if !c.I? {
          return Fail(TypeError);
        }
        if "mu_w_u_mat" !in paramDict {
          return Fail(KeyError("mu_w_u_mat"));
        }
        var v := Mul(Number(c), paramDict["mu_w_u_mat"]);
        paramDict := paramDict[CoefficientKey(c.i) := v.value];
      }
      o := Pass;
    }

    /** `update_param_dict(**kwargs)`: each given entry overwrites; all other entries stay. */
    method UpdateParamDict(kwargs: ParamDict)
      modifies this
      ensures paramDict == Override(old(paramDict), kwargs)
    {
      var rest := kwargs.Keys;
      ghost var done: set<string> := {};
      while rest != {}
        invariant rest <= kwargs.Keys && done == kwargs.Keys - rest
        invariant paramDict == Override(old(paramDict), Restrict(kwargs, done))
        decreases rest
      {
        var k :| k in rest;
        RestrictStep(old(paramDict), kwargs, done, k);
        paramDict := paramDict[k := kwargs[k]];
        rest := rest - {k};
        done := done + {k};
      }
      RestrictAll(kwargs);
    }
  }
}
