/**
 * The values the adaptation pipeline passes around: data dictionaries,
 * the tuning dictionaries of `KernelMethod`, and the fitted estimators.
 * A conditional mean embedding or a bridge function is kept as an opaque
 * record of exactly what it was trained on; the regressions themselves
 * (cme.py, bridge_h0.py) are not part of this model.
 */
module Estimators {
  import opened Wrappers
  import opened NdArrays

  /** A data dictionary such as {"X": ..., "C": ..., "W": ..., "Y": ...}. */
  type Dataset = map<string, NdArray>

  predicate ValidDataset(d: Dataset)
  {
    forall k :: k in d ==> Valid(d[k])
  }

  /** `source_train` / `target_train`: one dictionary, or the list of three after `split_data`. */
  datatype TrainData = Whole(data: Dataset) | Parts(parts: seq<Dataset>)

  predicate ValidTrain(t: TrainData)
  {
    match t
    case Whole(d) => ValidDataset(d)
    case Parts(ps) => forall i :: 0 <= i < |ps| ==> ValidDataset(ps[i])
  }

  /** One entry of a kernel specification: a kernel name, or a list of {"kernel", "dim"} entries. */
  datatype Kernel = Named(name: string) | Stacked(parts: seq<(string, nat)>)

  /** `kernel_dict[...]`: the kernel of each variable of one estimator. */
  type KernelSpec = map<string, Kernel>

  type KernelDict = map<string, KernelSpec>

  /** `lam_set`: a value of None asks for leave-one-out selection. */
  type LamSet = map<string, Option<real>>

  type MethodSet = map<string, string>

  /** The dictionary `get_params` returns. */
  datatype Params = Params(lamSet: LamSet, methodSet: MethodSet, kernelDict: KernelDict, split: bool, scale: real)

  /** A dictionary handed to `set_params`: each of the five entries it reads may be missing. */
  datatype GivenParams = GivenParams(
    lamSet: Option<LamSet>, methodSet: Option<MethodSet>, kernelDict: Option<KernelDict>,
    split: Option<bool>, scale: Option<real>)

  /** The dictionary `get_params` returns, as one handed back to `set_params`. */
  function AsGiven(p: Params): (g: GivenParams)
    ensures g.lamSet == Some(p.lamSet) && g.methodSet == Some(p.methodSet) && g.kernelDict == Some(p.kernelDict)
    ensures g.split == Some(p.split) && g.scale == Some(p.scale)
  {
    GivenParams(Some(p.lamSet), Some(p.methodSet), Some(p.kernelDict), Some(p.split), Some(p.scale))
  }

  /** A fitted conditional mean embedding: its response, covariates, covariate names and settings. */
  datatype Cme = Cme(
    y: NdArray, x: Dataset, xlist: seq<string>,
    lam: Option<real>, kernel: KernelSpec, scale: real, optimizer: string,
    lamMin: Option<real>, lamMax: Option<real>)

  /** A fitted bridge function h0 (`BridgeH0`, or `BridgeH0CLF` when `classifier`). */
  datatype Bridge = Bridge(
    classifier: bool, cme: Cme, covars: Dataset, y: NdArray,
    lam: Option<real>, kernel: KernelSpec, scale: real, optimizer: string,
    lamMin: Option<real>, lamMax: Option<real>)

  datatype Estimator = CmeEst(cme: Cme) | BridgeEst(bridge: Bridge)

  /** The estimator dictionary of one domain. */
  type Bundle = map<string, Estimator>

  /** `h0.get_exp_y_x(test_x, cme_wc_x)`, which is not part of this model. */
  type ExpY = (Bridge, Estimator, Dataset) -> NdArray

  /** The `lam_set` used when none is supplied. */
  function DefaultLamSet(): (l: LamSet)
    ensures l.Keys == {"cme", "h0", "m0"}
    ensures forall k :: k in l ==> l[k] == None
  {
    map["cme" := None, "h0" := None, "m0" := None]
  }

  /** The `method_set` used when none is supplied. */
  function DefaultMethodSet(): (m: MethodSet)
    ensures m.Keys == {"cme", "h0", "m0"}
    ensures forall k :: k in m ==> m[k] == "original"
  {
    map["cme" := "original", "h0" := "original", "m0" := "original"]
  }

  /**
   * The default kernel table as the constructor writes it when no
   * `kernel_dict` is given: an RBF kernel for every variable, and for the
   * stacked response (W, C) of cme_wc_x an RBF kernel on 2 columns followed
   * by one on 1 column.
   */
  function DefaultKernelDict(): (k: KernelDict)
    ensures k.Keys == {"cme_w_xc", "cme_wc_x", "cme_c_x", "cme_w_x", "h0", "m0"}
    ensures k["cme_w_xc"].Keys == {"X", "C", "Y"} && k["cme_wc_x"].Keys == {"X", "Y"}
    ensures k["cme_wc_x"]["Y"] == Stacked([("rbf", 2), ("rbf", 1)])
    ensures k["h0"].Keys == {"C"} && k["m0"].Keys == {"C", "X"}
    ensures forall e, v :: e in k && v in k[e] && k[e][v].Named? ==> k[e][v].name == "rbf"
  {
    var rbf := Named("rbf");
    map[
      "cme_w_xc" := map["X" := rbf, "C" := rbf, "Y" := rbf],
      "cme_wc_x" := map["X" := rbf, "Y" := Stacked([("rbf", 2), ("rbf", 1)])],
      "cme_c_x" := map["X" := rbf, "Y" := rbf],
      "cme_w_x" := map["X" := rbf, "Y" := rbf],
      "h0" := map["C" := rbf],
      "m0" := map["C" := rbf, "X" := rbf]
    ]
  }

  /**
   * The `kernel_dict` handling of `KernelMethod.__init__` as written: the
   * default branch assigns into the missing dictionary itself, which raises
   * TypeError, so a kernel table must always be supplied.
   */
  function KernelDictAsWritten(given: Option<KernelDict>): (r: Result<KernelDict>)
    ensures r.Success? <==> given.Some?
    ensures r.Success? ==> r.value == given.value
  {
    if given.None? then Failure(TypeError) else Success(given.value)
  }

  /** Leaving out `kernel_dict` never reaches the default table. */
  lemma {:induction false} DefaultKernelsUnreachable()
    ensures KernelDictAsWritten(None) == Failure(TypeError)
  {
  }

  /** The evidently intended handling: the given table, or the default one when none is given. */
  function KernelDictOrDefault(given: Option<KernelDict>): (k: KernelDict)
    ensures given.Some? ==> k == given.value
    ensures given.None? ==> k == DefaultKernelDict()
  {
    if given.Some? then given.value else DefaultKernelDict()
  }

  /** Without a table, every kernel entry that `fit` reads is there: cme_w_xc, cme_wc_x and h0. */
  lemma DefaultKernelsServeFits()
    ensures var k := KernelDictOrDefault(None);
      "cme_w_xc" in k && "cme_wc_x" in k && "h0" in k
  {
  }
}
