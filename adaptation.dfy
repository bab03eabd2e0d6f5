/**
 * `KernelMethod` and its subclass `FullAdapt`: the adaptation estimator.
 * The object keeps the training and test dictionaries, the tuning
 * dictionaries and, once fitted, one estimator bundle per domain. The
 * regressions behind each estimator are opaque records (see Estimators);
 * what is modelled is which data each estimator is trained on, which keys
 * each bundle holds, and how `predict` and `evaluation` pick them.
 */
module Adaptation {
  import opened Wrappers
  import opened NdArrays
  import opened Estimators
  import opened Folds
  import opened Scoring

  // ---------------------------------------------------------------- one domain

  /** The dictionary stage i trains on: `domain_data[i]` with split, `domain_data` without. */
  function PartFor(data: TrainData, split: bool, i: nat): (r: Result<Dataset>)
    ensures r.Success? <==> if split then data.Parts? && i < |data.parts| else data.Whole?
    ensures r.Success? ==> r.value == if split then data.parts[i] else data.data
    ensures r.Success? && ValidTrain(data) ==> ValidDataset(r.value)
  {
    match data
    case Whole(d) => if split then Failure(IntKeyError(i)) else Success(d)
    case Parts(ps) => if !split then Failure(TypeError) else if i < |ps| then Success(ps[i]) else Failure(IndexError)
  }

  /** `ConditionalMeanEmbed(y=..., x=..., lam=lam_set["cme"], kernel_dict=kernel_dict[kernel], ...)`. */
  function MakeCme(y: NdArray, x: Dataset, xlist: seq<string>, p: Params, kernel: string): (r: Result<Cme>)
    ensures r.Success? <==> "cme" in p.lamSet && kernel in p.kernelDict && "cme" in p.methodSet
                            && "lam_min" in p.lamSet && "lam_max" in p.lamSet
    ensures r.Success? ==> r.value == Cme(y, x, xlist, p.lamSet["cme"], p.kernelDict[kernel], p.scale,
                                          p.methodSet["cme"], p.lamSet["lam_min"], p.lamSet["lam_max"])
  {
    var lam :- Get(p.lamSet, "cme");
    var k :- Get(p.kernelDict, kernel);
    var m :- Get(p.methodSet, "cme");
    var lamMin :- Get(p.lamSet, "lam_min");
    var lamMax :- Get(p.lamSet, "lam_max");
    Success(Cme(y, x, xlist, lam, k, p.scale, m, lamMin, lamMax))
  }

  /** Number of columns a block contributes once lifted: 1 for a 1-d block. */
  function LiftedWidth(a: NdArray): nat
    requires Rank(a) >= 1
  {
    if Rank(a) == 1 then 1 else a.shape[1]
  }

  /** `jnp.hstack((w, c))` with W and C lifted to columns when 1-d. */
  function StackWC(d: Dataset): (r: Result<NdArray>)
    requires ValidDataset(d)
    ensures r.Success? ==> Valid(r.value) && Rank(r.value) >= 2
    ensures "W" !in d ==> r == Failure(KeyError("W"))
    ensures "W" in d && Rank(d["W"]) == 0 ==> r == Failure(IndexError)
    ensures "W" in d && Rank(d["W"]) >= 1 && "C" !in d ==> r == Failure(KeyError("C"))
    ensures "W" in d && Rank(d["W"]) >= 1 && "C" in d && Rank(d["C"]) == 0 ==> r == Failure(IndexError)
    ensures "W" in d && "C" in d && Rank(d["W"]) >= 1 && Rank(d["C"]) >= 1 && r.Failure? ==> r.error == TypeError
  {
    var w :- Get(d, "W");
    var lw :- Lift(w);
    var c :- Get(d, "C");
    var lc :- Lift(c);
    HStack(lw, lc)
  }

  /**
   * The stacked (W, C) block has width(W) + width(C) columns, a 1-d block
   * counting as one column, and row i is row i of W followed by row i of C.
   */
  lemma StackWCSpec(d: Dataset)
    requires ValidDataset(d)
    requires StackWC(d).Success?
    ensures "W" in d && "C" in d && Rank(d["W"]) >= 1 && Rank(d["C"]) >= 1
    ensures var wc := StackWC(d).value;
      && Width(wc) == LiftedWidth(d["W"]) + LiftedWidth(d["C"])
      && wc.shape[0] == d["W"].shape[0] == d["C"].shape[0]
      && forall i :: 0 <= i < wc.shape[0] ==>
           Row(wc, i) == Row(Lift(d["W"]).value, i) + Row(Lift(d["C"]).value, i)
  {
    HStackSpec(Lift(d["W"]).value, Lift(d["C"]).value);
  }

  /** `covars[key] = train_data[key]` for each key, in order; the first missing key raises KeyError. */
  function Gather(d: Dataset, keys: seq<string>): (r: Result<Dataset>)
    ensures r.Success? <==> forall j :: 0 <= j < |keys| ==> keys[j] in d
    ensures r.Success? ==> r.value.Keys == (set j | 0 <= j < |keys| :: keys[j])
    ensures r.Success? ==> forall k :: k in r.value ==> r.value[k] == d[k]
    ensures r.Failure? ==> exists j :: 0 <= j < |keys| && keys[j] !in d && r.error == KeyError(keys[j])
                                       && forall i :: 0 <= i < j ==> keys[i] in d
  {
    if keys == [] then Success(map[])
    else
      var init := keys[..|keys| - 1];
      assert forall j :: 0 <= j < |init| ==> init[j] == keys[j];
      var front :- Gather(d, init);
      var v :- Get(d, keys[|keys| - 1]);
      assert (set j | 0 <= j < |keys| :: keys[j]) == (set j | 0 <= j < |init| :: init[j]) + {keys[|keys| - 1]};
      Success(front[keys[|keys| - 1] := v])
  }

  /** `BridgeH0(...)` for task "r", `BridgeH0CLF(...)` for task "c"; any other task leaves h0 unbound. */
  function MakeBridge(task: string, cme: Cme, covars: Dataset, d: Dataset, p: Params): (r: Result<Bridge>)
    ensures task != "r" && task != "c" ==> r == Failure(UnboundLocalError)
    ensures r.Success? ==> r.value.classifier == (task == "c") && r.value.cme == cme && r.value.covars == covars
    ensures r.Success? ==> "Y" in d && r.value.y == d["Y"]
  {
    if task != "r" && task != "c" then Failure(UnboundLocalError)
    else
      var y :- Get(d, "Y");
      var lam :- Get(p.lamSet, "h0");
      var k :- Get(p.kernelDict, "h0");
      var m :- Get(p.methodSet, "h0");
      var lamMin :- Get(p.lamSet, "lam_min");
      var lamMax :- Get(p.lamSet, "lam_max");
      Success(Bridge(task == "c", cme, covars, y, lam, k, p.scale, m, lamMin, lamMax))
  }

  /** The first fit of `_fit_one_domain`: cme(W | X, C) on stage 0's data. */
  function FitCmeWXC(data: TrainData, p: Params): (r: Result<Cme>)
    requires ValidTrain(data)
    ensures r.Success? ==> PartFor(data, p.split, 0).Success?
    ensures r.Success? ==> var d0 := PartFor(data, p.split, 0).value;
      && "W" in d0 && "X" in d0 && "C" in d0
      && r.value.y == d0["W"] && r.value.x == map["X" := d0["X"], "C" := d0["C"]] && r.value.xlist == ["X", "C"]
      && "lam_min" in p.lamSet && "lam_max" in p.lamSet
  {
    var d0 :- PartFor(data, p.split, 0);
    var x0 :- Get(d0, "X");
    var c0 :- Get(d0, "C");
    var w0 :- Get(d0, "W");
    MakeCme(w0, map["X" := x0, "C" := c0], ["X", "C"], p, "cme_w_xc")
  }

  /** The second fit: cme(W, C | X) on stage 1's stacked (W, C) and X. */
  function FitCmeWCX(data: TrainData, p: Params): (r: Result<Cme>)
    requires ValidTrain(data)
    ensures r.Success? ==> PartFor(data, p.split, 1).Success?
    ensures r.Success? ==> var d1 := PartFor(data, p.split, 1).value;
      && "X" in d1 && StackWC(d1).Success?
      && r.value.y == StackWC(d1).value && r.value.x == map["X" := d1["X"]] && r.value.xlist == ["X"]
  {
    var d1 :- PartFor(data, p.split, 1);
    var x1 :- Get(d1, "X");
    var wc :- StackWC(d1);
    MakeCme(wc, map["X" := x1], ["X"], p, "cme_wc_x")
  }

  /**
   * The third fit: the bridge h0 on stage 2's data, with cme as its
   * embedding and the blocks named in cme's covariate list as covariates.
   */
  function FitH0(data: TrainData, p: Params, task: string, cme: Cme): (r: Result<Bridge>)
    requires ValidTrain(data)
    ensures task != "r" && task != "c" ==> r.Failure?
    ensures r.Success? ==> PartFor(data, p.split, 2).Success?
    ensures r.Success? ==> var d2 := PartFor(data, p.split, 2).value;
      && Gather(d2, cme.xlist).Success? && r.value.covars == Gather(d2, cme.xlist).value
      && "Y" in d2 && r.value.y == d2["Y"]
      && r.value.cme == cme && r.value.classifier == (task == "c")
  {
    var d2 :- PartFor(data, p.split, 2);
    var covars :- Gather(d2, cme.xlist);
    MakeBridge(task, cme, covars, d2, p)
  }

  /**
   * `_fit_one_domain`: cme(W | X, C) on part 0, cme(W, C | X) on part 1 and
   * the bridge h0 on part 2 (all on the whole data without split).
   */
  function OneDomain(data: TrainData, p: Params, task: string): (r: Result<Bundle>)
    requires ValidTrain(data)
  {
    var cmeWXC :- FitCmeWXC(data, p);
    var cmeWCX :- FitCmeWCX(data, p);
    var h0 :- FitH0(data, p, task, cmeWXC);
    Success(map["cme_w_xc" := CmeEst(cmeWXC), "cme_wc_x" := CmeEst(cmeWCX), "h0" := BridgeEst(h0)])
  }

  /** A successful `_fit_one_domain` is the bundle of its three fits, each of which succeeded. */
  lemma OneDomainStages(data: TrainData, p: Params, task: string)
    requires ValidTrain(data)
    requires OneDomain(data, p, task).Success?
    ensures FitCmeWXC(data, p).Success? && FitCmeWCX(data, p).Success?
    ensures FitH0(data, p, task, FitCmeWXC(data, p).value).Success?
    ensures OneDomain(data, p, task).value
         == map["cme_w_xc" := CmeEst(FitCmeWXC(data, p).value), "cme_wc_x" := CmeEst(FitCmeWCX(data, p).value),
                "h0" := BridgeEst(FitH0(data, p, task, FitCmeWXC(data, p).value).value)]
  {
  }

  /**
   * A fitted bundle holds exactly cme_w_xc, cme_wc_x and h0; h0 is a
   * classifier bridge iff `task` is "c", and only tasks "r" and "c" fit.
   */
  lemma OneDomainBundle(data: TrainData, p: Params, task: string)
    requires ValidTrain(data)
    requires OneDomain(data, p, task).Success?
    ensures var b := OneDomain(data, p, task).value;
      && b.Keys == {"cme_w_xc", "cme_wc_x", "h0"}
      && b["cme_w_xc"].CmeEst? && b["cme_wc_x"].CmeEst? && b["h0"].BridgeEst?
      && b["h0"].bridge.classifier == (task == "c")
      && (task == "r" || task == "c")
  {
    OneDomainStages(data, p, task);
  }

  /** Any task but "r" or "c" makes `_fit_one_domain` fail. */
  lemma OtherTaskFails(data: TrainData, p: Params, task: string)
    requires ValidTrain(data)
    requires task != "r" && task != "c"
    ensures OneDomain(data, p, task).Failure?
  {
  }

  /**
   * Fold wiring: cme(W | X, C) is trained on the W, X, C of stage 0's data,
   * cme(W, C | X) on the stacked (W, C) and X of stage 1's, and h0 on the
   * covariates and Y of stage 2's, with cme_w_xc as its embedding.
   */
  lemma OneDomainWiring(data: TrainData, p: Params, task: string)
    requires ValidTrain(data)
    requires OneDomain(data, p, task).Success?
    ensures PartFor(data, p.split, 0).Success? && PartFor(data, p.split, 1).Success? && PartFor(data, p.split, 2).Success?
    ensures var b := OneDomain(data, p, task).value;
      var d0, d1, d2 := PartFor(data, p.split, 0).value, PartFor(data, p.split, 1).value, PartFor(data, p.split, 2).value;
      && "W" in d0 && "X" in d0 && "C" in d0 && "X" in d1 && "X" in d2 && "C" in d2 && "Y" in d2
      && b["cme_w_xc"].cme.y == d0["W"]
      && b["cme_w_xc"].cme.x == map["X" := d0["X"], "C" := d0["C"]]
      && b["cme_wc_x"].cme.y == StackWC(d1).value
      && b["cme_wc_x"].cme.x == map["X" := d1["X"]]
      && b["h0"].bridge.cme == b["cme_w_xc"].cme
      && b["h0"].bridge.covars == map["X" := d2["X"], "C" := d2["C"]]
      && b["h0"].bridge.y == d2["Y"]
  {
    OneDomainStages(data, p, task);
    GatherXC(PartFor(data, p.split, 2).value);
  }

  /** Gathering the covariates ["X", "C"] yields exactly those two blocks. */
  lemma GatherXC(d: Dataset)
    requires Gather(d, ["X", "C"]).Success?
    ensures "X" in d && "C" in d
    ensures Gather(d, ["X", "C"]).value == map["X" := d["X"], "C" := d["C"]]
  {
    var xs := ["X", "C"];
    assert xs[0] == "X" && xs[1] == "C";
    var covars := Gather(d, xs).value;
    assert (set j | 0 <= j < 2 :: xs[j]) == {"X", "C"};
    assert covars.Keys == {"X", "C"};
  }

  /** With split, stage i trains on part i; without split, every stage on the whole dictionary. */
  lemma OneDomainFolds(data: TrainData, p: Params, task: string)
    requires ValidTrain(data)
    requires OneDomain(data, p, task).Success?
    ensures p.split ==> data.Parts? && |data.parts| >= 3
                        && forall i :: 0 <= i < 3 ==> PartFor(data, p.split, i) == Success(data.parts[i])
    ensures !p.split ==> data.Whole? && forall i :: 0 <= i < 3 ==> PartFor(data, p.split, i) == Success(data.data)
  {
    OneDomainStages(data, p, task);
  }

  /** h0's covariates are exactly the blocks named in cme_w_xc's covariate list, taken from stage 2's data. */
  lemma H0CovarsFollowXlist(data: TrainData, p: Params, task: string)
    requires ValidTrain(data)
    requires OneDomain(data, p, task).Success?
    ensures var b := OneDomain(data, p, task).value;
      var xlist := b["cme_w_xc"].cme.xlist;
      && b["h0"].bridge.covars.Keys == (set j | 0 <= j < |xlist| :: xlist[j])
      && forall k :: k in b["h0"].bridge.covars ==> b["h0"].bridge.covars[k] == PartFor(data, p.split, 2).value[k]
  {
    OneDomainStages(data, p, task);
  }

  /** `_fit_target_domain`: only cme(W, C | X) on the whole target dictionary, stored under "cme_w_x". */
  function TargetDomain(data: TrainData, p: Params): (r: Result<Bundle>)
    requires ValidTrain(data)
    ensures r.Success? ==> r.value.Keys == {"cme_w_x"} && r.value["cme_w_x"].CmeEst?
    ensures r.Success? ==> data.Whole? && StackWC(data.data).Success? && r.value["cme_w_x"].cme.y == StackWC(data.data).value
  {
    match data
    case Parts(_) => Failure(TypeError)
    case Whole(d) =>
      var x :- Get(d, "X");
      var wc :- StackWC(d);
      var cme :- MakeCme(wc, map["X" := x], ["X"], p, "cme_wc_x");
      Success(map["cme_w_x" := CmeEst(cme)])
  }

  /** `classes_ = [i for i in range(source_train["Y"].shape[1])]`. */
  function ClassLabels(t: TrainData): (r: Result<seq<nat>>)
    ensures r.Success? <==> t.Whole? && "Y" in t.data && Rank(t.data["Y"]) >= 2
    ensures r.Success? ==> |r.value| == Width(t.data["Y"]) && forall i :: 0 <= i < |r.value| ==> r.value[i] == i
    ensures t.Parts? ==> r == Failure(TypeError)
  {
    match t
    case Parts(_) => Failure(TypeError)
    case Whole(d) =>
      var y :- Get(d, "Y");
      if Rank(y) < 2 then Failure(IndexError) else Success(seq(Width(y), i => i))
  }

  // ---------------------------------------------------------------- object state

  /** Everything a `FullAdapt` object holds. */
  datatype AdaptState = AdaptState(
    sourceTrain: TrainData, targetTrain: TrainData, sourceTest: Dataset, targetTest: Dataset,
    params: Params, thre: real, isFitted: bool, calibDomain: string, cmeDomain: string, hDomain: string,
    sourceEstimator: Option<Bundle>, targetEstimator: Option<Bundle>, classes: Option<seq<nat>>)

  predicate ValidState(s: AdaptState)
  {
    ValidTrain(s.sourceTrain) && ValidTrain(s.targetTrain)
  }

  /**
   * `split_data`: the source rows are cut along perm(n) at the cut points of
   * n; the target rows along perm(n2), also at the cut points of the source
   * n. The source list is stored before the target is read.
   */
  function SplitStep(s: AdaptState, perm: nat -> seq<nat>): (r: (AdaptState, Outcome))
    requires ValidState(s)
    ensures ValidState(r.0)
    ensures r.1 == Pass ==> r.0.sourceTrain.Parts? && r.0.targetTrain.Parts?
    ensures r.0 == s.(sourceTrain := r.0.sourceTrain, targetTrain := r.0.targetTrain)
  {
    match RowCount(s.sourceTrain)
    case Failure(e) => (s, Fail(e))
    case Success(n) =>
      match Partition(s.sourceTrain.data, perm(n), n)
      case Failure(e) => (s, Fail(e))
      case Success(src) =>
        PartitionValid(s.sourceTrain.data, perm(n), n);
        SplitTarget(s.(sourceTrain := Parts(src)), perm, n)
  }

  /** The second half of `split_data`: the target rows, cut at the cut points of the source row count n. */
  function SplitTarget(s: AdaptState, perm: nat -> seq<nat>, n: nat): (r: (AdaptState, Outcome))
    requires ValidState(s)
    ensures ValidState(r.0)
    ensures r.1 == Pass ==> r.0.targetTrain.Parts?
    ensures r.0 == s.(targetTrain := r.0.targetTrain)
  {
    match RowCount(s.targetTrain)
    case Failure(e) => (s, Fail(e))
    case Success(n2) =>
      match Partition(s.targetTrain.data, perm(n2), n)
      case Failure(e) => (s, Fail(e))
      case Success(tgt) =>
        PartitionValid(s.targetTrain.data, perm(n2), n);
        (s.(targetTrain := Parts(tgt)), Pass)
  }

  lemma PartitionValid(data: Dataset, index: seq<nat>, n: nat)
    requires ValidDataset(data) && Partition(data, index, n).Success?
    ensures ValidTrain(Parts(Partition(data, index, n).value))
  {
    var ps := Partition(data, index, n).value;
    forall i | 0 <= i < |ps|
      ensures ValidDataset(ps[i])
    {
      assert SplitWidx(data, Cut(index, n)[i]) == Success(ps[i]);
    }
  }

  /**
   * `fit(task, train_target)`: split when asked, then fit the bundles. An
   * exception leaves whatever was assigned before it.
   */
  function FitStep(s: AdaptState, task: string, trainTarget: bool, perm: nat -> seq<nat>): (r: (AdaptState, Outcome))
    requires ValidState(s)
    ensures ValidState(r.0)
  {
    if !s.params.split then FitBundles(s, task, trainTarget)
    else
      var (s1, o1) := SplitStep(s, perm);
      if o1.Fail? then (s1, o1) else FitBundles(s1, task, trainTarget)
  }

  /** The training data as `fit` sees it after the optional split. */
  function Prepared(s: AdaptState, perm: nat -> seq<nat>): (r: AdaptState)
    requires ValidState(s)
    ensures ValidState(r) && r.params == s.params
  {
    if s.params.split then SplitStep(s, perm).0 else s
  }

  /** The source bundle, stored before the target bundle is fitted. */
  function FitBundles(s: AdaptState, task: string, trainTarget: bool): (r: (AdaptState, Outcome))
    requires ValidState(s)
    ensures ValidState(r.0)
    ensures r.0 == s.(sourceEstimator := r.0.sourceEstimator, targetEstimator := r.0.targetEstimator,
                      isFitted := r.0.isFitted, classes := r.0.classes)
    ensures r.0.isFitted ==> r.0.sourceEstimator.Some? || s.isFitted
  {
    match OneDomain(s.sourceTrain, s.params, task)
    case Failure(e) => (s, Fail(e))
    case Success(src) => FitTarget(s.(sourceEstimator := Some(src)), task, trainTarget)
  }

  /** `_fit_one_domain` on the target when train_target, `_fit_target_domain` otherwise. */
  function TargetBundle(s: AdaptState, task: string, trainTarget: bool): (r: Result<Bundle>)
    requires ValidState(s)
  {
    if trainTarget then OneDomain(s.targetTrain, s.params, task) else TargetDomain(s.targetTrain, s.params)
  }

  /** The target bundle; then the object is marked fitted, and for task "c" the class labels are read. */
  function FitTarget(s: AdaptState, task: string, trainTarget: bool): (r: (AdaptState, Outcome))
    requires ValidState(s)
    ensures r.0 == s.(targetEstimator := r.0.targetEstimator, isFitted := r.0.isFitted, classes := r.0.classes)
    ensures r.0.isFitted ==> r.0.targetEstimator.Some? || s.isFitted
  {
    match TargetBundle(s, task, trainTarget)
    case Failure(e) => (s, Fail(e))
    case Success(t) => FitClasses(s.(targetEstimator := Some(t), isFitted := true), task)
  }

  /** For task "c", `classes_` is read from the source "Y"; other tasks keep it. */
  function FitClasses(s: AdaptState, task: string): (r: (AdaptState, Outcome))
    ensures r.0 == s.(classes := r.0.classes)
    ensures r.1 == Pass <==> task != "c" || ClassLabels(s.sourceTrain).Success?
    ensures r.1 == Pass && task == "c" ==> r.0.classes == Some(ClassLabels(s.sourceTrain).value)
    ensures task != "c" ==> r == (s, Pass)
  {
    if task != "c" then (s, Pass)
    else
      match ClassLabels(s.sourceTrain)
      case Failure(e) => (s, Fail(e))
      case Success(cl) => (s.(classes := Some(cl)), Pass)
  }

  /** A completed `FitBundles` stored both bundles it fitted. */
  lemma FitBundlesOutcome(s: AdaptState, task: string, trainTarget: bool)
    requires ValidState(s)
    requires FitBundles(s, task, trainTarget).1 == Pass
    ensures var r := FitBundles(s, task, trainTarget).0;
      && r.isFitted
      && OneDomain(s.sourceTrain, s.params, task).Success?
      && r.sourceEstimator == Some(OneDomain(s.sourceTrain, s.params, task).value)
      && (trainTarget ==> r.targetEstimator == Some(OneDomain(s.targetTrain, s.params, task).value))
      && (!trainTarget ==> r.targetEstimator == Some(TargetDomain(s.targetTrain, s.params).value))
      && (task == "c" ==> r.classes == Some(ClassLabels(s.sourceTrain).value))
      && (task != "c" ==> r.classes == s.classes)
  {
    var src := OneDomain(s.sourceTrain, s.params, task);
    assert src.Success?;
    var s1 := s.(sourceEstimator := Some(src.value));
    assert FitBundles(s, task, trainTarget) == FitTarget(s1, task, trainTarget);
    var t := TargetBundle(s1, task, trainTarget);
    assert t.Success?;
    assert FitTarget(s1, task, trainTarget) == FitClasses(s1.(targetEstimator := Some(t.value), isFitted := true), task);
  }

  /**
   * After a successful fit the object is fitted; the source bundle comes from
   * `_fit_one_domain`, the target bundle from `_fit_one_domain` iff
   * train_target and from `_fit_target_domain` otherwise; for task "c" the
   * classes are 0 .. k-1 with k the column count of the source Y.
   */
  lemma FitOutcome(s: AdaptState, task: string, trainTarget: bool, perm: nat -> seq<nat>)
    requires ValidState(s)
    requires FitStep(s, task, trainTarget, perm).1 == Pass
    ensures var s1, s2 := Prepared(s, perm), FitStep(s, task, trainTarget, perm).0;
      && s2.isFitted
      && OneDomain(s1.sourceTrain, s1.params, task).Success?
      && s2.sourceEstimator == Some(OneDomain(s1.sourceTrain, s1.params, task).value)
      && (trainTarget ==> s2.targetEstimator == Some(OneDomain(s1.targetTrain, s1.params, task).value))
      && (!trainTarget ==> s2.targetEstimator == Some(TargetDomain(s1.targetTrain, s1.params).value))
      && (task == "c" ==> s2.classes == Some(ClassLabels(s1.sourceTrain).value))
      && (task != "c" ==> s2.classes == s.classes)
      && s2.params == s.params && s2.thre == s.thre
      && s2.sourceTest == s.sourceTest && s2.targetTest == s.targetTest
  {
    var s1 := Prepared(s, perm);
    assert FitStep(s, task, trainTarget, perm) == FitBundles(s1, task, trainTarget);
    FitBundlesOutcome(s1, task, trainTarget);
  }

  /** A fitted object always holds both bundles, and fit keeps it that way. */
  lemma FitKeepsBundles(s: AdaptState, task: string, trainTarget: bool, perm: nat -> seq<nat>)
    requires ValidState(s)
    requires s.isFitted ==> s.sourceEstimator.Some? && s.targetEstimator.Some?
    ensures var s2 := FitStep(s, task, trainTarget, perm).0;
      s2.isFitted ==> s2.sourceEstimator.Some? && s2.targetEstimator.Some?
  {
    var s1 := Prepared(s, perm);
    var s2 := FitStep(s, task, trainTarget, perm).0;
    assert s2 == s1 || s2 == FitBundles(s1, task, trainTarget).0;
    if !s.isFitted && s2.isFitted {
      var src := OneDomain(s1.sourceTrain, s1.params, task);
      assert src.Success?;
      var sa := s1.(sourceEstimator := Some(src.value));
      assert FitBundles(s1, task, trainTarget) == FitTarget(sa, task, trainTarget);
    }
  }

  /** With split, task "c" never completes: `classes_` reads "Y" from the list of parts (after `_is_fitted` is set). */
  lemma SplitClassificationFails(s: AdaptState, trainTarget: bool, perm: nat -> seq<nat>)
    requires ValidState(s) && s.params.split
    ensures FitStep(s, "c", trainTarget, perm).1 != Pass
  {
    var s1 := SplitStep(s, perm).0;
    if FitStep(s, "c", trainTarget, perm).1 == Pass {
      FitBundlesOutcome(s1, "c", trainTarget);
      assert false;
    }
  }

  /** With split, train_target = False never completes: `_fit_target_domain` reads "X" from a list. */
  lemma SplitWithoutTargetFails(s: AdaptState, task: string, perm: nat -> seq<nat>)
    requires ValidState(s) && s.params.split
    ensures FitStep(s, task, false, perm).1 != Pass
  {
    var s1 := SplitStep(s, perm).0;
    if FitStep(s, task, false, perm).1 == Pass {
      FitBundlesOutcome(s1, task, false);
      assert false;
    }
  }

  /** A second fit with split fails at once, changing nothing: the training data is already a list. */
  lemma RefitWithSplitFails(s: AdaptState, task: string, trainTarget: bool, perm: nat -> seq<nat>)
    requires ValidState(s) && s.params.split && s.sourceTrain.Parts?
    ensures FitStep(s, task, trainTarget, perm) == (s, Fail(TypeError))
  {
  }

  /** `_fit_one_domain` reads "lam_min" and "lam_max" from lam_set. */
  lemma OneDomainNeedsLamBounds(data: TrainData, p: Params, task: string)
    requires ValidTrain(data)
    requires OneDomain(data, p, task).Success?
    ensures "lam_min" in p.lamSet && "lam_max" in p.lamSet
  {
    OneDomainStages(data, p, task);
  }

  /** Without "lam_min" in lam_set no embedding can be built, so fit never completes (the default lam_set lacks it). */
  lemma MissingLamBoundFails(s: AdaptState, task: string, trainTarget: bool, perm: nat -> seq<nat>)
    requires ValidState(s) && "lam_min" !in s.params.lamSet
    ensures FitStep(s, task, trainTarget, perm).1 != Pass
  {
    var s1 := Prepared(s, perm);
    if FitStep(s, task, trainTarget, perm).1 == Pass {
      FitOutcome(s, task, trainTarget, perm);
      OneDomainNeedsLamBounds(s1.sourceTrain, s1.params, task);
      assert false;
    }
  }

  // ---------------------------------------------------------------- predict and evaluation

  /** `bundle[key]` where the bundle may still be None. */
  function Entry(b: Option<Bundle>, key: string): (r: Result<Estimator>)
    ensures r.Success? <==> b.Some? && key in b.value
    ensures r.Success? ==> r.value == b.value[key]
    ensures b.None? ==> r == Failure(TypeError)
    ensures b.Some? && key !in b.value ==> r == Failure(KeyError(key))
  {
    if b.None? then Failure(TypeError) else Get(b.value, key)
  }

  function Pick(s: AdaptState, domain: string): Option<Bundle>
  {
    if domain == "source" then s.sourceEstimator else s.targetEstimator
  }

  /**
   * `predict(test_x, h_domain, cme_domain)`: h0 from the bundle of h_domain
   * and cme_wc_x from the bundle of cme_domain, then `h0.get_exp_y_x`.
   */
  function Predict(s: AdaptState, testX: Dataset, hDomain: string, cmeDomain: string, expY: ExpY): (r: Result<NdArray>)
  {
    var h0 :- Entry(Pick(s, hDomain), "h0");
    var cme :- Entry(Pick(s, cmeDomain), "cme_wc_x");
    if !h0.BridgeEst? then Failure(AttributeError) else Success(expY(h0.bridge, cme, testX))
  }

  /**
   * The two choices are independent: h0 comes from the source bundle iff
   * h_domain is "source", the embedding iff cme_domain is; any other string
   * means the target.
   */
  lemma PredictChooses(s: AdaptState, testX: Dataset, hDomain: string, cmeDomain: string, expY: ExpY)
    ensures Predict(s, testX, hDomain, cmeDomain, expY) ==
            Predict(s, testX, if hDomain == "source" then "source" else "target",
                    if cmeDomain == "source" then "source" else "target", expY)
    ensures Predict(s, testX, hDomain, cmeDomain, expY).Success? ==>
              var hb := if hDomain == "source" then s.sourceEstimator else s.targetEstimator;
              var cb := if cmeDomain == "source" then s.sourceEstimator else s.targetEstimator;
              && hb.Some? && "h0" in hb.value && hb.value["h0"].BridgeEst?
              && cb.Some? && "cme_wc_x" in cb.value
              && Predict(s, testX, hDomain, cmeDomain, expY).value == expY(hb.value["h0"].bridge, cb.value["cme_wc_x"], testX)
  {
  }

  /** After `_fit_target_domain`, any prediction that uses the target bundle fails its lookup. */
  lemma ReducedTargetPredictFails(s: AdaptState, testX: Dataset, hDomain: string, cmeDomain: string, expY: ExpY)
    requires s.targetEstimator.Some? && s.targetEstimator.value.Keys == {"cme_w_x"}
    requires hDomain != "source" || cmeDomain != "source"
    ensures Predict(s, testX, hDomain, cmeDomain, expY).Failure?
  {
  }

  /** One row of the evaluation table: its label and the (h, cme) domains and test set it uses. */
  datatype Combo = Combo(name: string, hDomain: string, cmeDomain: string, onTarget: bool)

  function Combos(): (cs: seq<Combo>)
    ensures |cs| == 5
  {
    [ Combo("source-source", "source", "source", false),
      Combo("target-source", "target", "target", false),
      Combo("target-target", "target", "target", true),
      Combo("source-target", "source", "source", true),
      Combo("adaptation", "source", "target", true) ]
  }

  /** One evaluation record: {"task": ..., "predict error": ...}. */
  datatype EvalRow = EvalRow(task: string, error: Metrics)

  /** The test covariates {"X": ...} and labels of one domain: the given dictionary, else the stored one. */
  function TestSet(given: Option<Dataset>, stored: Dataset): (r: Result<(Dataset, NdArray)>)
    ensures r.Success? ==> var d := if given.Some? then given.value else stored;
      "X" in d && "Y" in d && r.value == (map["X" := d["X"]], d["Y"])
  {
    var d := if given.Some? then given.value else stored;
    var x :- Get(d, "X");
    var y :- Get(d, "Y");
    Success((map["X" := x], y))
  }

  ghost predicate ValidOracle(expY: ExpY)
  {
    forall b, e, d :: Valid(expY(b, e, d))
  }

  predicate ValidTests(s: AdaptState, sourceData: Option<Dataset>, targetData: Option<Dataset>)
  {
    && ValidDataset(s.sourceTest) && ValidDataset(s.targetTest)
    && (sourceData.Some? ==> ValidDataset(sourceData.value))
    && (targetData.Some? ==> ValidDataset(targetData.value))
  }

  /** row is the score, against y, of the prediction c's (h, cme) domains make on x. */
  predicate Scores(s: AdaptState, c: Combo, x: Dataset, y: NdArray, task: string, expY: ExpY, row: EvalRow)
    requires ValidOracle(expY) && Valid(y)
  {
    && row.task == c.name
    && Predict(s, x, c.hDomain, c.cmeDomain, expY).Success?
    && ScoreOf(Predict(s, x, c.hDomain, c.cmeDomain, expY).value, y, task, s.thre) == Success(row.error)
  }

  /** Predict with the combination's domains on x, then score against y. */
  function RowFor(s: AdaptState, c: Combo, x: Dataset, y: NdArray, task: string, expY: ExpY): (r: Result<EvalRow>)
    requires ValidOracle(expY) && Valid(y)
    ensures r.Success? ==> Scores(s, c, x, y, task, expY, r.value)
    ensures r.Failure? ==> Predict(s, x, c.hDomain, c.cmeDomain, expY).Failure?
                           || ScoreOf(Predict(s, x, c.hDomain, c.cmeDomain, expY).value, y, task, s.thre).Failure?
  {
    var p :- Predict(s, x, c.hDomain, c.cmeDomain, expY);
    var m :- ScoreOf(p, y, task, s.thre);
    Success(EvalRow(c.name, m))
  }

  /** The source half of `evaluation`: the source test set, then rows 0 and 1 on it. */
  function SourceRows(s: AdaptState, task: string, sourceData: Option<Dataset>, expY: ExpY): (r: Result<seq<EvalRow>>)
    requires ValidOracle(expY) && ValidDataset(s.sourceTest) && (sourceData.Some? ==> ValidDataset(sourceData.value))
    ensures r.Success? ==> TestSet(sourceData, s.sourceTest).Success?
    ensures r.Success? ==> var (x, y) := TestSet(sourceData, s.sourceTest).value;
      |r.value| == 2 && forall i :: 0 <= i < 2 ==> Scores(s, Combos()[i], x, y, task, expY, r.value[i])
  {
    var (x, y) :- TestSet(sourceData, s.sourceTest);
    var ss :- RowFor(s, Combos()[0], x, y, task, expY);
    var ts :- RowFor(s, Combos()[1], x, y, task, expY);
    Success([ss, ts])
  }

  /** The target half of `evaluation`: the target test set, then rows 2, 3 and 4 on it. */
  function TargetRows(s: AdaptState, task: string, targetData: Option<Dataset>, expY: ExpY): (r: Result<seq<EvalRow>>)
    requires ValidOracle(expY) && ValidDataset(s.targetTest) && (targetData.Some? ==> ValidDataset(targetData.value))
    ensures r.Success? ==> TestSet(targetData, s.targetTest).Success?
    ensures r.Success? ==> var (x, y) := TestSet(targetData, s.targetTest).value;
      |r.value| == 3 && forall i :: 0 <= i < 3 ==> Scores(s, Combos()[i + 2], x, y, task, expY, r.value[i])
  {
    var (x, y) :- TestSet(targetData, s.targetTest);
    var tt :- RowFor(s, Combos()[2], x, y, task, expY);
    var st :- RowFor(s, Combos()[3], x, y, task, expY);
    var ad :- RowFor(s, Combos()[4], x, y, task, expY);
    Success([tt, st, ad])
  }

  /** `evaluation(task, source_data, target_data)`: the source rows, then the target rows. */
  function Evaluation(s: AdaptState, task: string, sourceData: Option<Dataset>, targetData: Option<Dataset>, expY: ExpY): (r: Result<seq<EvalRow>>)
    requires ValidOracle(expY) && ValidTests(s, sourceData, targetData)
  {
    var onSource :- SourceRows(s, task, sourceData, expY);
    var onTarget :- TargetRows(s, task, targetData, expY);
    Success(onSource + onTarget)
  }

  /**
   * The evaluation table has exactly five rows, in the order of Combos();
   * row i scores the prediction of its (h, cme) domains on its test set.
   */
  lemma EvaluationTable(s: AdaptState, task: string, sourceData: Option<Dataset>, targetData: Option<Dataset>, expY: ExpY)
    requires ValidOracle(expY) && ValidTests(s, sourceData, targetData)
    requires Evaluation(s, task, sourceData, targetData, expY).Success?
    ensures TestSet(sourceData, s.sourceTest).Success? && TestSet(targetData, s.targetTest).Success?
    ensures var rows := Evaluation(s, task, sourceData, targetData, expY).value;
      && |rows| == 5
      && forall i :: 0 <= i < 5 ==>
           var c := Combos()[i];
           var (x, y) := if c.onTarget then TestSet(targetData, s.targetTest).value else TestSet(sourceData, s.sourceTest).value;
           Scores(s, c, x, y, task, expY, rows[i])
  {
    var onSource := SourceRows(s, task, sourceData, expY).value;
    var onTarget := TargetRows(s, task, targetData, expY).value;
    var rows := onSource + onTarget;
    forall i | 2 <= i < 5
      ensures rows[i] == onTarget[i - 2] && Combos()[i] == Combos()[(i - 2) + 2]
    {
    }
  }

  /** A model fitted with train_target = False cannot be evaluated: the reduced target bundle has no h0. */
  lemma ReducedTargetCannotEvaluate(s: AdaptState, task: string, sourceData: Option<Dataset>, targetData: Option<Dataset>, expY: ExpY)
    requires ValidOracle(expY) && ValidTests(s, sourceData, targetData)
    requires s.targetEstimator.Some? && s.targetEstimator.value.Keys == {"cme_w_x"}
    ensures Evaluation(s, task, sourceData, targetData, expY).Failure?
  {
    var (sx, sy) := if TestSet(sourceData, s.sourceTest).Success? then TestSet(sourceData, s.sourceTest).value else (map[], Scalar(0.0));
    ReducedTargetPredictFails(s, sx, "target", "target", expY);
  }

  // ---------------------------------------------------------------- set_params

  /**
   * `set_params`: `lam_set`, `method_set`, `kernel_dict`, `split` and
   * `scale` are read and stored in that order, so a missing entry raises
   * KeyError after the entries before it have been stored.
   */
  function SetParamsStep(p: Params, g: GivenParams): (r: (Params, Outcome))
    ensures r.1 == Pass <==> g.lamSet.Some? && g.methodSet.Some? && g.kernelDict.Some? && g.split.Some? && g.scale.Some?
    ensures r.0.lamSet == (if g.lamSet.Some? then g.lamSet.value else p.lamSet)
    ensures r.0.methodSet == (if g.lamSet.Some? && g.methodSet.Some? then g.methodSet.value else p.methodSet)
    ensures r.0.kernelDict ==
              (if g.lamSet.Some? && g.methodSet.Some? && g.kernelDict.Some? then g.kernelDict.value else p.kernelDict)
    ensures r.0.split ==
              (if g.lamSet.Some? && g.methodSet.Some? && g.kernelDict.Some? && g.split.Some? then g.split.value else p.split)
    ensures r.0.scale == (if r.1 == Pass then g.scale.value else p.scale)
    ensures r.1 != Pass ==> r.1.error.KeyError? && r.1.error.key in {"lam_set", "method_set", "kernel_dict", "split", "scale"}
  {
    if g.lamSet.None? then (p, Fail(KeyError("lam_set")))
    else
      var p1 := p.(lamSet := g.lamSet.value);
      if g.methodSet.None? then (p1, Fail(KeyError("method_set")))
      else
        var p2 := p1.(methodSet := g.methodSet.value);
        if g.kernelDict.None? then (p2, Fail(KeyError("kernel_dict")))
        else
          var p3 := p2.(kernelDict := g.kernelDict.value);
          if g.split.None? then (p3, Fail(KeyError("split")))
          else
            var p4 := p3.(split := g.split.value);
            if g.scale.None? then (p4, Fail(KeyError("scale")))
            else (p4.(scale := g.scale.value), Pass)
  }

  /** Handing `get_params()` of any object to `set_params` stores exactly those parameters. */
  lemma {:induction false} GetSetRoundTrip(q: Params, p: Params)
    ensures SetParamsStep(q, AsGiven(p)) == (p, Pass)
  {
  }

  /** A dictionary without "split" raises KeyError("split") after storing lam_set, method_set and kernel_dict. */
  lemma MissingSplitPartlyStores(p: Params, g: GivenParams)
    requires g.lamSet.Some? && g.methodSet.Some? && g.kernelDict.Some? && g.split.None?
    ensures SetParamsStep(p, g) ==
              (p.(lamSet := g.lamSet.value, methodSet := g.methodSet.value, kernelDict := g.kernelDict.value),
               Fail(KeyError("split")))
  {
  }

  // ---------------------------------------------------------------- the object

  class FullAdapt {
    var sourceTrain: TrainData
    var targetTrain: TrainData
    var sourceTest: Dataset
    var targetTest: Dataset
    var sc: real
    var split: bool
    var isFitted: bool
    var calibDomain: string
    var thre: real
    var lamSet: LamSet
    var methodSet: MethodSet
    var kernelDict: KernelDict
    var sourceEstimator: Option<Bundle>
    var targetEstimator: Option<Bundle>
    var classes: Option<seq<nat>>
    var cmeDomain: string
    var hDomain: string

    function Snapshot(): AdaptState
      reads this
    {
      AdaptState(sourceTrain, targetTrain, sourceTest, targetTest, GetParams(), thre, isFitted,
                 calibDomain, cmeDomain, hDomain, sourceEstimator, targetEstimator, classes)
    }

    predicate WellFormed()
      reads this
    {
      ValidTrain(sourceTrain) && ValidTrain(targetTrain)
    }

    /**
     * `FullAdapt(...)`: stores the data and settings; a missing lam_set,
     * method_set or kernel_dict takes its default (the kernel_dict default
     * as evidently intended, see `KernelDictAsWritten`); nothing is fitted yet.
     */
    constructor (sourceTrain: TrainData, targetTrain: TrainData, sourceTest: Dataset, targetTest: Dataset,
                 split: bool, scale: real, lamSet: Option<LamSet>, methodSet: Option<MethodSet>,
                 kernelDict: Option<KernelDict>, thre: real)
      requires ValidTrain(sourceTrain) && ValidTrain(targetTrain)
      ensures WellFormed()
      ensures Snapshot() == AdaptState(
        sourceTrain, targetTrain, sourceTest, targetTest,
        Params(if lamSet.Some? then lamSet.value else DefaultLamSet(),
               if methodSet.Some? then methodSet.value else DefaultMethodSet(),
               KernelDictOrDefault(kernelDict), split, scale),
        thre, false, "source", "source", "source", None, None, None)
      ensures !IsFitted()
    {
      this.sourceTrain := sourceTrain;
      this.targetTrain := targetTrain;
      this.sourceTest := sourceTest;
      this.targetTest := targetTest;
      this.sc := scale;
      this.split := split;
      this.isFitted := false;
      this.calibDomain := "source";
      this.thre := thre;
      this.lamSet := if lamSet.Some? then lamSet.value else DefaultLamSet();
      this.methodSet := if methodSet.Some? then methodSet.value else DefaultMethodSet();
      this.kernelDict := KernelDictOrDefault(kernelDict);
      this.sourceEstimator := None;
      this.targetEstimator := None;
      this.classes := None;
      this.cmeDomain := "source";
      this.hDomain := "source";
    }

    /** `__sklearn_is_fitted__`. */
    predicate IsFitted()
      reads this
    {
      isFitted
    }

    /** `get_params`: the five tuning entries (thre is not one of them). */
    function GetParams(): Params
      reads this
    {
      Params(lamSet, methodSet, kernelDict, split, sc)
    }

    /**
     * `set_params(params)`: the five entries are read and stored one at a
     * time; nothing but the tuning parameters changes.
     */
    method SetParams(g: GivenParams) returns (o: Outcome)
      modifies this`lamSet, this`methodSet, this`kernelDict, this`split, this`sc
      ensures (GetParams(), o) == SetParamsStep(old(GetParams()), g)
      ensures Snapshot() == old(Snapshot()).(params := GetParams())
      ensures WellFormed() == old(WellFormed())
    {
      o := Pass;
      if g.lamSet.None? {
        o := Fail(KeyError("lam_set"));
      } else {
        lamSet := g.lamSet.value;
        if g.methodSet.None? {
          o := Fail(KeyError("method_set"));
        } else {
          methodSet := g.methodSet.value;
          if g.kernelDict.None? {
            o := Fail(KeyError("kernel_dict"));
          } else {
            kernelDict := g.kernelDict.value;
            if g.split.None? {
              o := Fail(KeyError("split"));
            } else {
              split := g.split.value;
              if g.scale.None? {
                o := Fail(KeyError("scale"));
              } else {
                sc := g.scale.value;
              }
            }
          }
        }
      }
    }

    /** `split_data`: replaces each domain's dictionary by its three parts. */
    method SplitData(perm: nat -> seq<nat>) returns (o: Outcome)
      requires WellFormed()
      modifies this
      ensures WellFormed()
      ensures (Snapshot(), o) == SplitStep(old(Snapshot()), perm)
    {
      var rc := RowCount(sourceTrain);
      if rc.Failure? {
        return Fail(rc.error);
      }
      var n := rc.value;
      var parts := SplitAll(sourceTrain.data, Cut(perm(n), n));
      if parts.Failure? {
        return Fail(parts.error);
      }
      PartitionValid(sourceTrain.data, perm(n), n);
      sourceTrain := Parts(parts.value);
      o := SplitTargetRows(perm, n);
    }

    /** The target half of `split_data`, cut at the cut points of the source row count n. */
    method SplitTargetRows(perm: nat -> seq<nat>, n: nat) returns (o: Outcome)
      requires WellFormed()
      modifies this
      ensures WellFormed()
      ensures (Snapshot(), o) == SplitTarget(old(Snapshot()), perm, n)
    {
      var rc := RowCount(targetTrain);
      if rc.Failure? {
        return Fail(rc.error);
      }
      var n2 := rc.value;
      var parts := SplitAll(targetTrain.data, Cut(perm(n2), n));
      if parts.Failure? {
        return Fail(parts.error);
      }
      PartitionValid(targetTrain.data, perm(n2), n);
      targetTrain := Parts(parts.value);
      o := Pass;
    }

    /** `_fit_one_domain`: builds the three estimators and the bundle step by step. */
    method FitOneDomain(domainData: TrainData, task: string) returns (r: Result<Bundle>)
      requires ValidTrain(domainData)
      ensures r == OneDomain(domainData, GetParams(), task)
    {
      var p := GetParams();
      var cmeWXC :- FitCmeWXC(domainData, p);
      var cmeWCX :- FitCmeWCX(domainData, p);
      var xlist := cmeWXC.xlist;
      var d2 :- PartFor(domainData, split, 2);
      var covars: Dataset := map[];
      var i := 0;
      while i < |xlist|
        invariant 0 <= i <= |xlist|
        invariant Gather(d2, xlist[..i]) == Success(covars)
      {
        assert xlist[..i + 1][..i] == xlist[..i];
        if xlist[i] !in d2 {
          return Failure(KeyError(xlist[i]));
        }
        covars := covars[xlist[i] := d2[xlist[i]]];
        i := i + 1;
      }
      assert xlist[..i] == xlist;
      var h0 :- MakeBridge(task, cmeWXC, covars, d2, p);
      var estimator: Bundle := map[];
      estimator := estimator["cme_w_xc" := CmeEst(cmeWXC)];
      estimator := estimator["cme_wc_x" := CmeEst(cmeWCX)];
      estimator := estimator["h0" := BridgeEst(h0)];
      r := Success(estimator);
    }

    /** `fit(task, train_target)`. */
    method Fit(task: string, trainTarget: bool, perm: nat -> seq<nat>) returns (o: Outcome)
      requires WellFormed()
      modifies this
      ensures WellFormed()
      ensures (Snapshot(), o) == FitStep(old(Snapshot()), task, trainTarget, perm)
    {
      if split {
        o := SplitData(perm);
        if o.Fail? {
          return;
        }
      }
      o := StoreBundles(task, trainTarget);
    }

    /** The source bundle, then the target bundle, the fitted flag and the class labels. */
    method StoreBundles(task: string, trainTarget: bool) returns (o: Outcome)
      requires WellFormed()
      modifies this
      ensures WellFormed()
      ensures (Snapshot(), o) == FitBundles(old(Snapshot()), task, trainTarget)
    {
      var src := FitOneDomain(sourceTrain, task);
      if src.Failure? {
        return Fail(src.error);
      }
      sourceEstimator := Some(src.value);
      o := StoreTarget(task, trainTarget);
    }

    /** The target bundle; then the object is fitted, and for task "c" `classes_` is set. */
    method StoreTarget(task: string, trainTarget: bool) returns (o: Outcome)
      requires WellFormed()
      modifies this
      ensures WellFormed()
      ensures (Snapshot(), o) == FitTarget(old(Snapshot()), task, trainTarget)
    {
      var tgt: Result<Bundle>;
      if trainTarget {
        tgt := FitOneDomain(targetTrain, task);
      } else {
        tgt := TargetDomain(targetTrain, GetParams());
      }
      assert tgt == TargetBundle(Snapshot(), task, trainTarget);
      if tgt.Failure? {
        return Fail(tgt.error);
      }
      targetEstimator := Some(tgt.value);
      isFitted := true;
      o := StoreClasses(task);
    }

    /** For task "c", `classes_` from the source labels. */
    method StoreClasses(task: string) returns (o: Outcome)
      modifies this
      ensures WellFormed() == old(WellFormed())
      ensures (Snapshot(), o) == FitClasses(old(Snapshot()), task)
    {
      o := Pass;
      if task == "c" {
        var labels := ClassLabels(sourceTrain);
        if labels.Failure? {
          return Fail(labels.error);
        }
        classes := Some(labels.value);
      }
    }

    /**
     * `evaluation(task, source_data, target_data)`: the rows are appended to
     * the evaluation list one at a time; the first error ends the call.
     */
    method Evaluate(task: string, sourceData: Option<Dataset>, targetData: Option<Dataset>, expY: ExpY)
      returns (r: Result<seq<EvalRow>>)
      requires ValidOracle(expY) && ValidTests(Snapshot(), sourceData, targetData)
      ensures r == Evaluation(Snapshot(), task, sourceData, targetData, expY)
    {
      var evalList :- EvaluateOnSource(task, sourceData, expY);
      var more :- EvaluateOnTarget(task, targetData, expY);
      evalList := evalList + more;
      r := Success(evalList);
    }

    /** The source part of `evaluation`: source-source, then target-source, on the source test set. */
    method EvaluateOnSource(task: string, sourceData: Option<Dataset>, expY: ExpY) returns (r: Result<seq<EvalRow>>)
      requires ValidOracle(expY) && ValidDataset(sourceTest) && (sourceData.Some? ==> ValidDataset(sourceData.value))
      ensures r == SourceRows(Snapshot(), task, sourceData, expY)
    {
      var s := Snapshot();
      var evalList: seq<EvalRow> := [];
      var testSet :- TestSet(sourceData, sourceTest);
      var (x, y) := testSet;
      var ss :- RowFor(s, Combos()[0], x, y, task, expY);
      evalList := evalList + [ss];
      var ts :- RowFor(s, Combos()[1], x, y, task, expY);
      evalList := evalList + [ts];
      assert evalList == [ss, ts];
      r := Success(evalList);
    }

    /** The target part of `evaluation`: target-target, source-target and adaptation, on the target test set. */
    method EvaluateOnTarget(task: string, targetData: Option<Dataset>, expY: ExpY) returns (r: Result<seq<EvalRow>>)
      requires ValidOracle(expY) && ValidDataset(targetTest) && (targetData.Some? ==> ValidDataset(targetData.value))
      ensures r == TargetRows(Snapshot(), task, targetData, expY)
    {
      var s := Snapshot();
      var evalList: seq<EvalRow> := [];
      var testSet :- TestSet(targetData, targetTest);
      var (x, y) := testSet;
      var tt :- RowFor(s, Combos()[2], x, y, task, expY);
      evalList := evalList + [tt];
      var st :- RowFor(s, Combos()[3], x, y, task, expY);
      evalList := evalList + [st];
      var adapt :- RowFor(s, Combos()[4], x, y, task, expY);
      evalList := evalList + [adapt];
      assert evalList == [tt, st, adapt];
      r := Success(evalList);
    }
  }
}
