# KPLA plain-kernel adaptation: a Dafny model

This project models the orchestration layer of the KPLA proxy-based domain
adaptation package:

- `KernelMethod` and its `FullAdapt` subclass (`models/plain_kernel`). The
  model covers the constructor defaults, `get_params`/`set_params`,
  `split_data`, `fit` with `_fit_one_domain` and `_fit_target_domain`,
  `predict`, `evaluation`, `score` and `__sklearn_is_fitted__`.
- The synthetic data pipeline of `data/data_lsa.py`: the simulator's
  parameter dictionary (`Simulator.__init__`, `initialize`,
  `update_param_dict`, the `MultiWSimulator` variants), `process_data`,
  `generate_data`, `from_Z_to_U`, `generate_multienv_data` and `tidy_w`.

What is modelled is the bookkeeping: which rows and blocks each estimator is
trained on, which keys each estimator bundle and data dictionary holds, which
bundles `predict` combines, how the evaluation table is assembled, how the
parameter dictionary is overridden and scaled, and the exceptions the
Python code raises along the way (those raised inside the numerical
routines are listed under "Left out"). Each exception is a `Result` failure that
carries the exception class (KeyError with its key, TypeError, IndexError,
ValueError, AssertionError, AttributeError, NotImplementedError,
UnboundLocalError).

Layout, one module per file:

- `wrappers.dfy`: the `Result` type and the exception classes.
- `ndarray.dfy`: numpy arrays as a shape plus row-major data, with squeeze,
  reshape, row selection, lifting to a column and `hstack`.
- `text.dfy`: `str(int)`, used in dictionary keys.
- `estimators.dfy`: the data dictionaries, the tuning dictionaries and their
  defaults, and the fitted estimators as opaque records.
- `folds.dfy`: `split_data_widx` and the three-way cut.
- `scoring.dfy`: `KernelMethod.score`.
- `adaptation.dfy`: the `FullAdapt` object and its specification functions.
- `simulator.dfy`: the simulator's parameter dictionary, as the `Simulator`
  class.
- `sim_data.dfy`: the data-generation helpers.

Style of the model:

- The object code is imperative. `FullAdapt`, `Simulator` and the shared
  sample dictionaries of `tidy_w` are classes whose methods update fields.
  Loops are methods with invariants. Each method is proved equal to a
  specification function, and the properties are lemmas about those
  functions.
- Randomness and numerics are parameters: the seeded permutation
  (`perm: nat -> seq<nat>`), the sampler (`get_samples`), the one-hot encoder
  and the bridge's `get_exp_y_x`.

Behaviours of the code that are modelled as written:

- The default `lam_set` has no `lam_min` or `lam_max`, but every fit reads
  both. Fitting with the default `lam_set` therefore always raises KeyError
  (`MissingLamBoundFails`).
- With `split`:
  - task "c" fails after the object is marked fitted, because `classes_`
    reads `"Y"` from the list of parts (`SplitClassificationFails`);
  - `train_target=False` fails, because `_fit_target_domain` indexes a list
    by `"X"` (`SplitWithoutTargetFails`);
  - a second `fit` fails at once (`RefitWithSplitFails`).
- The target rows are cut at the cut points of the source row count `n`,
  not of the target's own `n2` (`CutClamps`).
- After `fit(train_target=False)` the target bundle has no `h0`, so
  `evaluation` always fails (`ReducedTargetCannotEvaluate`).
- In the regression branch of `score`, the reshape paths never produce a
  score: only arrays whose squeezed shapes already agree are scored
  (`RegressionNeedsEqualShapes`).

A few behaviours of the code are worth stating plainly:

- Predicting or evaluating before `fit` indexes the estimators that the
  constructor leaves as `None` (method.py:132-133, adaptation.py:362-370),
  so it raises TypeError; there is no dedicated not-fitted error.
- Shapes that `score` cannot reconcile raise AssertionError (method.py:220-230).
- A missing `lam_min` or `lam_max` is found at `fit`, when the embeddings
  read them (adaptation.py:97-98), not at construction.
- The target split cuts at `int(0.33 * n)` and `int(0.67 * n)` with the
  source's row count n, not the target's own count n2 (adaptation.py:64-66).

## Model

| member | source | states |
|---|---|---|
| NdArrays.Squeeze | KPLA/models/plain_kernel/method.py:217-218 | the squeezed array keeps the elements, stays well formed and has no axis of length one |
| NdArrays.SqueezeShapeSize | KPLA/models/plain_kernel/method.py:217-218 | squeezing keeps the element count |
| NdArrays.SqueezeTrailingOne | KPLA/models/plain_kernel/method.py:217-218 | a trailing axis of length one does not change the squeezed shape |
| NdArrays.SqueezeShape | KPLA/models/plain_kernel/method.py:217-218 | the squeezed shape is no longer than the input, has no axis of length one, and keeps only axes of the input |
| NdArrays.Reshape | KPLA/models/plain_kernel/method.py:225 | reshape succeeds iff the sizes agree, keeping the elements in order |
| NdArrays.TakeRows | KPLA/models/plain_kernel/method.py:47-50 | `a[idx]` / `a[idx, :]` gives a well-formed array or IndexError |
| NdArrays.TakeRowsSpec | KPLA/models/plain_kernel/method.py:47-50 | row selection fails iff the array is 0-d or an index is past the last row; otherwise trailing axes are kept and row i is input row idx[i] |
| NdArrays.ChunksOfFlatten | KPLA/models/plain_kernel/method.py:47-50 | cutting the row-major buffer back into rows gives the rows (the layout round trip) |
| NdArrays.Lift | KPLA/models/plain_kernel/adaptation.py:109-117 | a 1-d block becomes one column of the same rows; a block of rank two or more is unchanged; a 0-d block fails |
| NdArrays.HStack | KPLA/models/plain_kernel/adaptation.py:118 | hstack succeeds iff ranks, row counts and the axes after the second agree; otherwise it raises TypeError, as jax's concatenate does |
| NdArrays.HStackSpec | KPLA/models/plain_kernel/adaptation.py:118 | the stacked block has width(a) + width(b) columns and row i is row i of a followed by row i of b |
| Text.NatToStringInjective | KPLA/data/data_lsa.py:274-277 | different naturals render differently |
| Text.IntToStringInjective | KPLA/data/data_lsa.py:274-277 | different integers render differently, so formatted keys never collide |
| Text.IntToString | KPLA/data/data_lsa.py:275 | `str(i)` starts with a digit or a minus sign |
| Scoring.LexTotal | KPLA/models/plain_kernel/method.py:220-230 | two different shapes compare one way or the other, so the fall-through case sees equal shapes |
| Scoring.LexIrreflexive | KPLA/models/plain_kernel/method.py:220-226 | no shape is smaller than itself |
| Scoring.LexAsymmetric | KPLA/models/plain_kernel/method.py:220-226 | no two shapes are each smaller than the other, so at most one reshape branch applies |
| Scoring.Reconcile | KPLA/models/plain_kernel/method.py:220-230 | equal shapes pass unchanged; AssertionError exactly when the larger shape neither has one more axis than the smaller nor is the smaller plus one axis; otherwise the smaller is reshaped (ValueError if the sizes differ), leaving one shape and the elements unchanged |
| Scoring.NoUnitAxes | KPLA/models/plain_kernel/method.py:217-218 | a 2-d shape without axes of length one is its own squeeze |
| Scoring.MeanSquaredError | KPLA/models/plain_kernel/method.py:231-233 | the mean squared error is non-negative |
| Scoring.RegressionScore | KPLA/models/plain_kernel/method.py:219-233 | a regression score is the mean squared error of the elements of two non-empty arrays of one size, hence non-negative |
| Scoring.FirstArgMaxAbs | KPLA/models/plain_kernel/method.py:241-244 | the first index holding the largest magnitude |
| Scoring.ArgMaxLabels | KPLA/models/plain_kernel/method.py:241-244 | one label per row, the row's first arg-max of the absolute value |
| Scoring.NegativeToZero | KPLA/models/plain_kernel/method.py:266-270 | labels -1 become 0, all others kept |
| Scoring.ThresholdLabels | KPLA/models/plain_kernel/method.py:264-272 | label 1 exactly where the prediction reaches the threshold |
| Scoring.CountEqualAll | KPLA/models/plain_kernel/method.py:276-278 | every position agrees iff the agreement count is the length |
| Scoring.CountEqualLast | KPLA/models/plain_kernel/method.py:276-278 | the count grows by one for a last position that agrees |
| Scoring.CountEqualAgreements | KPLA/models/plain_kernel/method.py:276-278 | the agreement count is the number of positions whose labels agree |
| Scoring.FractionBounds | KPLA/models/plain_kernel/method.py:276-278 | a count out of n lies in [0, 1] and is 1 iff it is all n |
| Scoring.Accuracy | KPLA/models/plain_kernel/method.py:276-278 | accuracy succeeds iff the label vectors are non-empty, of one length, with whole-number true labels; its value is the fraction of positions whose labels agree, in [0, 1], and 1 iff the labels agree |
| Scoring.LabelScore | KPLA/models/plain_kernel/method.py:274-280 | the metrics of two label vectors succeed iff accuracy does and the true labels hold exactly two classes, as roc_auc_score demands, with hard_acc the accuracy; otherwise ValueError |
| Scoring.ClassificationScore | KPLA/models/plain_kernel/method.py:235-280 | a classification score is a hard accuracy in [0, 1], and comes only from squeezed 2-d arrays with two or more prediction columns or from squeezed 1-d arrays |
| Scoring.ScoreOf | KPLA/models/plain_kernel/method.py:200-281 | task "r" gives the mean squared error of the elements of two non-empty arrays of one size (so l2 >= 0) or fails with AssertionError, TypeError or ValueError; task "c" succeeds only on two 1-d or two 2-d squeezed arrays, with an accuracy in [0, 1]; any other task raises UnboundLocalError |
| Scoring.CorrectNegativeLabels | KPLA/models/plain_kernel/method.py:266-270 | the in-place label correction leaves NegativeToZero of the old labels |
| Scoring.ThresholdLabelArray | KPLA/models/plain_kernel/method.py:264-272 | the fresh zero array with ones written at the threshold hits is ThresholdLabels |
| Scoring.Score | KPLA/models/plain_kernel/method.py:200-281 | the imperative score equals ScoreOf |
| Scoring.IdenticalScoresZero | KPLA/models/plain_kernel/method.py:219-233 | identical arrays (squeezed rank 1 or 2, non-empty) score l2 = 0 |
| Scoring.ShiftedByOneScoresOne | KPLA/models/plain_kernel/method.py:231-233 | [2,3,4] against [1,2,3] scores l2 = 1 |
| Scoring.ColumnVectorScoresAsFlat | KPLA/models/plain_kernel/method.py:217-218 | an (n, 1) column and the flat (n,) vector score the same on either side |
| Scoring.ScoreSeesSqueezed | KPLA/models/plain_kernel/method.py:217-218 | the score depends on each array only through its squeezed form |
| Scoring.RegressionNeedsEqualShapes | KPLA/models/plain_kernel/method.py:220-233 | a regression score exists only when the squeezed shapes are already equal |
| Scoring.ReshapeAcrossRanksFails | KPLA/models/plain_kernel/method.py:220-233 | reshaping the lexicographically smaller squeezed array to the larger shape never leads to a mean squared error |
| Scoring.AgreeingArgMaxScoresOne | KPLA/models/plain_kernel/method.py:238-280 | 2-d predictions whose row arg-max labels match the truth, over two true classes, score hard accuracy 1 |
| Scoring.RegressionScoreValue | KPLA/models/plain_kernel/method.py:219-233 | with equal squeezed shapes, regression succeeds iff the arrays are non-empty of rank one or two, and l2 is the mean squared error of the elements |
| Scoring.RegressionAssertionError | KPLA/models/plain_kernel/method.py:220-229 | regression raises AssertionError exactly when the larger squeezed shape neither has one more axis than the smaller nor extends it by one axis |
| Scoring.ArgMaxScore | KPLA/models/plain_kernel/method.py:238-280 | for squeezed 2-d arrays with two or more prediction columns, the score is that of the row-wise first arg-max labels of both arrays |
| Scoring.ThresholdScore | KPLA/models/plain_kernel/method.py:260-280 | for squeezed 1-d arrays, the score is that of label 1 iff value >= thres against the true labels with -1 read as 0 |
| Scoring.OneClassFails | KPLA/models/plain_kernel/method.py:274-280 | agreeing labels of a single class still fail with ValueError, raised by roc_auc_score |
| Estimators.DefaultLamSet | KPLA/models/plain_kernel/method.py:100-103 | the default lam_set has keys cme, h0, m0, all None |
| Estimators.DefaultMethodSet | KPLA/models/plain_kernel/method.py:105-111 | the default method_set maps cme, h0, m0 to "original" |
| Estimators.DefaultKernelDict | KPLA/models/plain_kernel/method.py:113-129 | the six default kernel entries, all RBF, with cme_wc_x's response stacked as dims 2 and 1 |
| Estimators.KernelDictAsWritten | KPLA/models/plain_kernel/method.py:113-131 | as written, a missing kernel_dict raises TypeError and a given one is used as is |
| Estimators.DefaultKernelsUnreachable | KPLA/models/plain_kernel/method.py:113-114 | leaving out kernel_dict fails with TypeError |
| Estimators.KernelDictOrDefault | KPLA/models/plain_kernel/method.py:113-131 | the given table, or the default table when none is given |
| Estimators.DefaultKernelsServeFits | KPLA/models/plain_kernel/method.py:113-129 | the default table holds every kernel entry fit reads: cme_w_xc, cme_wc_x and h0 |
| Estimators.AsGiven | KPLA/models/plain_kernel/method.py:136-143 | the dictionary get_params returns holds all five entries |
| Folds.CutPointsOrdered | KPLA/models/plain_kernel/adaptation.py:57 | int(0.33 n) <= int(0.67 n) <= n |
| Folds.Cut | KPLA/models/plain_kernel/adaptation.py:57 | np.split gives three consecutive slices whose concatenation is the index, cut at the clamped cut points |
| Folds.CutSizes | KPLA/models/plain_kernel/adaptation.py:55-57 | a permutation of n cuts into parts of FirstCut(n), SecondCut(n) - FirstCut(n) and n - SecondCut(n) |
| Folds.CutClamps | KPLA/models/plain_kernel/adaptation.py:64-66 | a target shorter than the source's cut points gets empty later parts |
| Folds.CutDisjoint | KPLA/models/plain_kernel/adaptation.py:56-57 | the three parts of a permutation share no row and stay below n |
| Folds.SplitWidx | KPLA/models/plain_kernel/method.py:35-51 | split_data_widx fails only with IndexError |
| Folds.SplitWidxRows | KPLA/models/plain_kernel/method.py:35-51 | split_data_widx succeeds iff every block is at least 1-d and every index is in range; it keeps the keys, and row i of each block is input row idx[i] |
| Folds.SplitDataWidx | KPLA/models/plain_kernel/method.py:44-51 | the key-by-key loop computes SplitWidx |
| Folds.Splits | KPLA/models/plain_kernel/adaptation.py:58-60 | one split_data_widx result per cut, in the order of the cuts |
| Folds.SplitEach | KPLA/models/plain_kernel/adaptation.py:58-60 | the list succeeds iff every cut does, entry i being cut i's sub-dictionary |
| Folds.SplitAll | KPLA/models/plain_kernel/adaptation.py:58-62 | the append loop computes SplitEach |
| Folds.RowCount | KPLA/models/plain_kernel/adaptation.py:55 | `train["X"].shape[0]` exists iff the data is one dictionary with an "X" of rank one or more |
| Folds.Partition | KPLA/models/plain_kernel/adaptation.py:55-62 | a successful partition has three parts |
| Folds.SplitInRange | KPLA/models/plain_kernel/method.py:44-51 | in-range indices on blocks of n rows always split, one row per index |
| Folds.PartitionShape | KPLA/models/plain_kernel/adaptation.py:55-62 | partitioning along a permutation of n succeeds, keeps every key, and gives parts with FirstCut(n), SecondCut(n) - FirstCut(n) and n - SecondCut(n) rows |
| Folds.CutInRange | KPLA/models/plain_kernel/adaptation.py:56-60 | every index of each part of a permutation of n is below n |
| Folds.PartShape | KPLA/models/plain_kernel/adaptation.py:58-62 | each part of a partition splits, keeps the keys and has as many rows as its cut |
| Folds.AllPartsSplit | KPLA/models/plain_kernel/adaptation.py:58-62 | when each cut splits, the list succeeds and holds those three sub-dictionaries in order |
| Adaptation.PartFor | KPLA/models/plain_kernel/adaptation.py:81-84 | stage i reads part i of the list with split and the whole dictionary without, and fails on any other combination |
| Adaptation.MakeCme | KPLA/models/plain_kernel/adaptation.py:90-99 | an embedding is built iff the lam, kernel, method and lam_min/lam_max entries exist, and it records exactly those settings |
| Adaptation.StackWC | KPLA/models/plain_kernel/adaptation.py:109-118 | the stacked (W, C) block is well formed and at least 2-d; a missing W or C raises KeyError with its name, a 0-d one IndexError, and blocks that do not stack TypeError |
| Adaptation.StackWCSpec | KPLA/models/plain_kernel/adaptation.py:109-118 | the (W, C) block has width(W) + width(C) columns, counting 1 for a 1-d block, and row i is W's row i followed by C's |
| Adaptation.Gather | KPLA/models/plain_kernel/adaptation.py:139-141 | the covariates are exactly the listed blocks, or KeyError for the first missing one |
| Adaptation.MakeBridge | KPLA/models/plain_kernel/adaptation.py:143-167 | h0 is a classifier iff task is "c"; it keeps the given embedding, covariates and Y; other tasks raise UnboundLocalError |
| Adaptation.FitCmeWXC | KPLA/models/plain_kernel/adaptation.py:81-99 | the embedding of W given X and C is trained on stage 0's W against its X and C |
| Adaptation.FitCmeWCX | KPLA/models/plain_kernel/adaptation.py:101-129 | the embedding of (W, C) given X is trained on stage 1's stacked (W, C) against its X |
| Adaptation.FitH0 | KPLA/models/plain_kernel/adaptation.py:131-167 | h0 is trained on stage 2's Y and the blocks named by the embedding's covariate list |
| Adaptation.OneDomain | KPLA/models/plain_kernel/adaptation.py:73-173 | `_fit_one_domain`: cme_w_xc on stage 0, cme_wc_x on stage 1 and h0 on stage 2, each stage being part i with split and the whole data without; the first failing step's error ends it (its properties are the OneDomain lemmas below) |
| Adaptation.OneDomainStages | KPLA/models/plain_kernel/adaptation.py:73-173 | a successful _fit_one_domain is the bundle of its three successful fits |
| Adaptation.OneDomainBundle | KPLA/models/plain_kernel/adaptation.py:143-173 | the bundle holds exactly cme_w_xc, cme_wc_x and h0, with h0 a classifier iff task is "c" |
| Adaptation.OtherTaskFails | KPLA/models/plain_kernel/adaptation.py:143-171 | any task but "r" or "c" fails |
| Adaptation.OneDomainWiring | KPLA/models/plain_kernel/adaptation.py:81-171 | each estimator is trained on its own stage's blocks, and h0 uses cme_w_xc with covariates X and C |
| Adaptation.GatherXC | KPLA/models/plain_kernel/adaptation.py:132-141 | gathering ["X", "C"] yields exactly those two blocks |
| Adaptation.OneDomainFolds | KPLA/models/plain_kernel/adaptation.py:81-137 | with split, stage i trains on part i of at least three; without, every stage on the whole dictionary |
| Adaptation.H0CovarsFollowXlist | KPLA/models/plain_kernel/adaptation.py:132-141 | h0's covariates are exactly the blocks of the covariate list, taken from stage 2 |
| Adaptation.TargetBundle | KPLA/models/plain_kernel/method.py:167-174 | the target bundle is `_fit_one_domain` of the target data when train_target, else `_fit_target_domain` |
| Adaptation.TargetDomain | KPLA/models/plain_kernel/adaptation.py:175-204 | the reduced bundle holds only cme_w_x, trained on the whole target's stacked (W, C) |
| Adaptation.ClassLabels | KPLA/models/plain_kernel/method.py:177-178 | classes_ is 0..k-1 for k the column count of the source Y; a list of parts raises TypeError |
| Adaptation.SplitStep | KPLA/models/plain_kernel/adaptation.py:53-71 | split_data replaces only the two training sets, by lists of parts on success |
| Adaptation.SplitTarget | KPLA/models/plain_kernel/adaptation.py:64-71 | the target half replaces only the target training set |
| Adaptation.PartitionValid | KPLA/models/plain_kernel/adaptation.py:55-62 | the parts of a partition are well-formed data dictionaries |
| Adaptation.FitStep | KPLA/models/plain_kernel/method.py:152-178 | fit keeps the training data well formed |
| Adaptation.Prepared | KPLA/models/plain_kernel/method.py:160-162 | the split keeps the tuning parameters |
| Adaptation.FitBundles | KPLA/models/plain_kernel/method.py:163-178 | fitting changes only the bundles, the fitted flag and classes_; a fitted object holds a source bundle |
| Adaptation.FitTarget | KPLA/models/plain_kernel/method.py:166-178 | the target step changes only the target bundle, the flag and classes_ |
| Adaptation.FitClasses | KPLA/models/plain_kernel/method.py:177-178 | for task "c", classes_ is the source label range or the call fails; other tasks change nothing |
| Adaptation.FitBundlesOutcome | KPLA/models/plain_kernel/method.py:163-178 | a completed fit stores the source bundle and the target bundle of the right kind, and sets classes_ for task "c" |
| Adaptation.FitOutcome | KPLA/models/plain_kernel/method.py:152-178 | after a successful fit the object is fitted and holds exactly the bundles fitted on the (split) data; parameters and test sets are unchanged |
| Adaptation.FitKeepsBundles | KPLA/models/plain_kernel/method.py:152-178 | a fitted object always holds both bundles, and fit keeps it so |
| Adaptation.SplitClassificationFails | KPLA/models/plain_kernel/method.py:161-178 | with split, task "c" never completes |
| Adaptation.SplitWithoutTargetFails | KPLA/models/plain_kernel/method.py:161-174 | with split, train_target=False never completes |
| Adaptation.RefitWithSplitFails | KPLA/models/plain_kernel/method.py:161-162 | a second fit with split fails with TypeError and changes nothing |
| Adaptation.OneDomainNeedsLamBounds | KPLA/models/plain_kernel/adaptation.py:97-98 | a successful _fit_one_domain implies lam_min and lam_max are in lam_set |
| Adaptation.MissingLamBoundFails | KPLA/models/plain_kernel/method.py:100-103 | without lam_min (as in the default lam_set) fit never completes |
| Adaptation.Entry | KPLA/models/plain_kernel/adaptation.py:362-370 | a bundle lookup succeeds iff the bundle exists and has the key; None gives TypeError, a missing key KeyError |
| Adaptation.Predict | KPLA/models/plain_kernel/adaptation.py:355-373 | `predict`: h0 from the bundle h_domain names and cme_wc_x from the one cme_domain names, each lookup failing on a missing bundle or key, then the oracle's get_exp_y_x of the two on test_x |
| Adaptation.PredictChooses | KPLA/models/plain_kernel/adaptation.py:355-373 | h0 comes from the source bundle iff h_domain is "source", the embedding iff cme_domain is; the prediction is get_exp_y_x of the two |
| Adaptation.ReducedTargetPredictFails | KPLA/models/plain_kernel/adaptation.py:362-370 | after _fit_target_domain, any prediction that uses the target bundle fails |
| Adaptation.Combos | KPLA/models/plain_kernel/adaptation.py:244-335 | the evaluation has five domain combinations |
| Adaptation.TestSet | KPLA/models/plain_kernel/adaptation.py:235-241 | the test covariates are {"X": d["X"]} and the labels d["Y"] of the given data, else of the stored test set |
| Adaptation.RowFor | KPLA/models/plain_kernel/adaptation.py:244-249 | a row is the score of the combination's prediction against the labels; it fails iff the prediction or the score fails |
| Adaptation.SourceRows | KPLA/models/plain_kernel/adaptation.py:234-268 | two rows, source-source and target-source, scored on the source test set |
| Adaptation.TargetRows | KPLA/models/plain_kernel/adaptation.py:281-336 | three rows, target-target, source-target and adaptation, scored on the target test set |
| Adaptation.Evaluation | KPLA/models/plain_kernel/adaptation.py:222-353 | `evaluation`: the source rows, then the target rows; the first failing row's error ends it |
| Adaptation.EvaluationTable | KPLA/models/plain_kernel/adaptation.py:222-353 | the table has five rows in order; row i scores the prediction of its (h, cme) domains on its domain's test set |
| Adaptation.ReducedTargetCannotEvaluate | KPLA/models/plain_kernel/adaptation.py:264-268 | a model fitted with train_target=False cannot be evaluated |
| Adaptation.FullAdapt.GetParams | KPLA/models/plain_kernel/method.py:135-143 | `get_params`: lam_set, method_set, kernel_dict, split and scale, read from the object |
| Adaptation.FullAdapt.IsFitted | KPLA/models/plain_kernel/method.py:283-285 | `__sklearn_is_fitted__`: the flag fit sets |
| Adaptation.SetParamsStep | KPLA/models/plain_kernel/method.py:145-150 | the five entries are stored in order: a field takes the given value iff it and every entry before it are present; the first missing entry raises KeyError with its name |
| Adaptation.GetSetRoundTrip | KPLA/models/plain_kernel/method.py:136-150 | handing get_params of any object to set_params stores exactly those parameters |
| Adaptation.MissingSplitPartlyStores | KPLA/models/plain_kernel/method.py:145-150 | a dictionary without "split" raises KeyError("split") after storing lam_set, method_set and kernel_dict |
| Adaptation.FullAdapt.constructor | KPLA/models/plain_kernel/adaptation.py:24-51 | stores the data and settings with the lam_set, method_set and kernel_dict defaults; not fitted; all domains "source" |
| Adaptation.FullAdapt.SetParams | KPLA/models/plain_kernel/method.py:145-150 | the fields take the values and outcome of SetParamsStep; nothing but the tuning parameters changes |
| Adaptation.FullAdapt.SplitData | KPLA/models/plain_kernel/adaptation.py:53-71 | the new state and outcome are SplitStep's |
| Adaptation.FullAdapt.SplitTargetRows | KPLA/models/plain_kernel/adaptation.py:64-71 | the new state and outcome are SplitTarget's |
| Adaptation.FullAdapt.FitOneDomain | KPLA/models/plain_kernel/adaptation.py:73-173 | the step-by-step fit returns OneDomain |
| Adaptation.FullAdapt.Fit | KPLA/models/plain_kernel/method.py:152-178 | the new state and outcome are FitStep's |
| Adaptation.FullAdapt.StoreBundles | KPLA/models/plain_kernel/method.py:163-178 | the new state and outcome are FitBundles' |
| Adaptation.FullAdapt.StoreTarget | KPLA/models/plain_kernel/method.py:166-178 | the new state and outcome are FitTarget's |
| Adaptation.FullAdapt.StoreClasses | KPLA/models/plain_kernel/method.py:177-178 | the new state and outcome are FitClasses' |
| Adaptation.FullAdapt.Evaluate | KPLA/models/plain_kernel/adaptation.py:222-353 | the list built row by row is Evaluation |
| Adaptation.FullAdapt.EvaluateOnSource | KPLA/models/plain_kernel/adaptation.py:232-268 | the two appended source rows are SourceRows |
| Adaptation.FullAdapt.EvaluateOnTarget | KPLA/models/plain_kernel/adaptation.py:281-336 | the three appended target rows are TargetRows |
| Simulation.MulNum | KPLA/data/data_lsa.py:72-74 | the product's value, an int iff both factors are |
| Simulation.Scale | KPLA/data/data_lsa.py:276 | a number times an array scales every entry and keeps the shape |
| Simulation.Repeat | KPLA/data/data_lsa.py:72-74 | an int k times a list has k times its length, and is empty when k <= 0 |
| Simulation.Mul | KPLA/data/data_lsa.py:72-74 | Python's `*` on parameter values: numbers, scaling, list repetition; an int factor always succeeds |
| Simulation.Product | KPLA/data/data_lsa.py:72-74 | the entry-wise product keeps the shape and multiplies entry by entry |
| Simulation.ArrayProduct | KPLA/data/data_lsa.py:72-74 | an array times an array succeeds iff the shapes agree |
| Simulation.Override | KPLA/data/data_lsa.py:48-50 | the given entries win and every other entry stays |
| Simulation.OverrideTwice | KPLA/data/data_lsa.py:163-166 | a second override by a superset of keys hides the first |
| Simulation.Restrict | KPLA/data/data_lsa.py:163-166 | the entries of the given dictionary written so far, unchanged |
| Simulation.RestrictStep | KPLA/data/data_lsa.py:163-166 | writing one more given entry extends the override by the entries written so far |
| Simulation.Scaled | KPLA/data/data_lsa.py:72-74 | {key} is {key}_coeff * {key}_mat, with the KeyError of the first missing factor |
| Simulation.ScaleKeys | KPLA/data/data_lsa.py:64-74 | the product loop: each `{key}_coeff * {key}_mat` is stored before the next is read, and the first exception stops it with the earlier writes kept |
| Simulation.ScaleKeysSpec | KPLA/data/data_lsa.py:64-74 | the product loop succeeds iff every product can be formed, and then it overrides the dictionary by exactly those products |
| Simulation.CoefficientKeyInjective | KPLA/data/data_lsa.py:275 | different coefficients get different mu_w_u_{c} keys |
| Simulation.CoefficientKeyShape | KPLA/data/data_lsa.py:275 | a coefficient key is "mu_w_u_" followed by a digit or a minus sign |
| Simulation.CoefficientKeyApart | KPLA/data/data_lsa.py:269-277 | coefficient keys never hit the W matrix, the coefficient list or the five product keys |
| Simulation.ScaleCoefficients | KPLA/data/data_lsa.py:274-277 | the coefficient loop: `mu_w_u_{c} = c * mu_w_u_mat` for each c in order, the first exception stopping it |
| Simulation.CoefficientMatsKeys | KPLA/data/data_lsa.py:274-277 | exactly one matrix per listed coefficient |
| Simulation.CoefficientMatsValues | KPLA/data/data_lsa.py:274-277 | mu_w_u_{c} is c times the W matrix for every listed c |
| Simulation.FirstCoefficient | KPLA/data/data_lsa.py:274-277 | a repeated coefficient leaves the same matrix |
| Simulation.ScaleCoefficientsSpec | KPLA/data/data_lsa.py:274-277 | the W loop succeeds iff all coefficients are ints and the W matrix exists (when there is one), and then overrides by the coefficient matrices |
| Simulation.SixKeysApart | KPLA/data/data_lsa.py:64-71 | no product key is the factor key of another |
| Simulation.InitSpec | KPLA/data/data_lsa.py:57-74 | `initialize` of each class: the six products for the base class, InitMultiW for MultiWSimulator |
| Simulation.InitMultiW | KPLA/data/data_lsa.py:264-277 | MultiWSimulator.initialize: the five products, then one W matrix per coefficient of the list; a missing list raises KeyError and a value that is not a list TypeError |
| Simulation.BaseInitialize | KPLA/data/data_lsa.py:57-74 | Simulator.initialize succeeds iff all six products can be formed, and then overrides by them |
| Simulation.BaseNeedsParameters | KPLA/data/data_lsa.py:46-55 | the base simulator without a dictionary fails with KeyError("mu_w_u_coeff") |
| Simulation.WLoopResult | KPLA/data/data_lsa.py:274-277 | with int coefficients and the W matrix, the W loop succeeds with the coefficient matrices |
| Simulation.WInputsNotProducts | KPLA/data/data_lsa.py:269-277 | the W loop's inputs are not overwritten by the five products |
| Simulation.MultiWInitialize | KPLA/data/data_lsa.py:264-277 | MultiWSimulator.initialize is the five products followed by the coefficient matrices |
| Simulation.InitMultiWSpec | KPLA/data/data_lsa.py:264-277 | the same for any product list that leaves the factors and the W inputs alone |
| Simulation.Merged | KPLA/data/data_lsa.py:46-50 | the dictionary `__init__` starts from: the defaults, overridden entry by entry when a dictionary is given |
| Simulation.Defaults | KPLA/data/data_lsa.py:53-55 | `get_default_param_dict`: empty for the base class, the MultiWSimulator table (data_lsa.py:364-388) otherwise |
| Simulation.Simulator.constructor | KPLA/data/data_lsa.py:46-50 | the dictionary is the class defaults overridden by the given entries |
| Simulation.Simulator.New | KPLA/data/data_lsa.py:36-51 | construction succeeds iff initialize does, with initialize's dictionary, or fails with its error |
| Simulation.Simulator.Initialize | KPLA/data/data_lsa.py:57-74 | the new dictionary and outcome are InitSpec's |
| Simulation.Simulator.ScaleAll | KPLA/data/data_lsa.py:64-74 | the product loop computes ScaleKeys |
| Simulation.Simulator.ScaleEachCoefficient | KPLA/data/data_lsa.py:274-277 | the coefficient loop computes ScaleCoefficients |
| Simulation.Simulator.UpdateParamDict | KPLA/data/data_lsa.py:163-166 | each given entry overwrites, all other entries stay |
| SimData.Binarize | KPLA/data/data_lsa.py:526 | 1.0 exactly where positive, the shape kept; a list raises TypeError |
| SimData.BinarizeIdempotent | KPLA/data/data_lsa.py:526 | binarising twice is binarising once |
| SimData.OneHot | KPLA/data/data_lsa.py:527-529 | the encoder accepts exactly 2-d arrays with at least one row and one column, and raises ValueError otherwise |
| SimData.ColumnOf | KPLA/data/data_lsa.py:531 | reshape(-1, 1) is one column of the same entries |
| SimData.Code | KPLA/data/data_lsa.py:526-529 | a column derives iff it is a 2-d array with rows and columns, into its binarisation and that one's encoding |
| SimData.WColsApart | KPLA/data/data_lsa.py:523 | the default proxy columns are distinct and not named like derived keys |
| SimData.ProcessCols | KPLA/data/data_lsa.py:525-529 | the column loop of process_data: `{w}_binary` then `{w}_one_hot` for each column in order, the first failing column ending it |
| SimData.ProcessSpec | KPLA/data/data_lsa.py:523-533 | `process_data`: the column loop on a copy, then u_one_hot; a missing u raises KeyError and a u that is not an array AttributeError |
| SimData.ProcessColsOutcome | KPLA/data/data_lsa.py:525-529 | the column loop succeeds iff every column derives, else with the first failing column's error |
| SimData.ProcessColsKeys | KPLA/data/data_lsa.py:525-529 | the loop adds exactly the _binary and _one_hot keys |
| SimData.ProcessColsKeeps | KPLA/data/data_lsa.py:524-529 | every entry the loop does not add keeps its value |
| SimData.ProcessColsAdds | KPLA/data/data_lsa.py:525-529 | each column's derived values land under its own keys |
| SimData.ReadyColumns | KPLA/data/data_lsa.py:526-529 | a column derives iff it is present as a 2-d array with rows and columns |
| SimData.ProcessDataOutcome | KPLA/data/data_lsa.py:523-533 | process_data succeeds iff every column is a 2-d array with rows and columns and "u" is a non-empty array |
| SimData.ProcessDataKeeps | KPLA/data/data_lsa.py:523-533 | the result's keys are the input's plus the derived ones and u_one_hot; other entries are kept |
| SimData.ProcessDataAdds | KPLA/data/data_lsa.py:523-533 | {w}_binary is the binarised column and {w}_one_hot its encoding |
| SimData.ProcessDataU | KPLA/data/data_lsa.py:530-532 | u_one_hot encodes "u", which is non-empty, as one column |
| SimData.EmptyUFails | KPLA/data/data_lsa.py:530-532 | an empty "u" reshapes to a (0, 1) column, which the encoder rejects with ValueError |
| SimData.MissingColumnFails | KPLA/data/data_lsa.py:523-526 | a missing w_2 fails with KeyError("w_2") |
| SimData.ProcessData | KPLA/data/data_lsa.py:523-533 | the loop on a copy computes ProcessSpec |
| SimData.PuTable | KPLA/data/data_lsa.py:561-566 | the pu_lookup table of tasks 1, 2 and 3, keyed by z in 0..4 |
| SimData.FromZToU | KPLA/data/data_lsa.py:560-570 | succeeds iff `task` is 1, 2 or 3 and z is 0..4, with p in (0, 1) and 5 environments; else NotImplementedError or KeyError(z) |
| SimData.LastEnvironments | KPLA/data/data_lsa.py:561-566 | environment 4 has p = 0.9 in tasks 1 and 2, and environments 3 and 4 share 0.4 in task 3 |
| SimData.Trunc | KPLA/data/data_lsa.py:543 | int() truncates toward zero |
| SimData.PartitionParams | KPLA/data/data_lsa.py:543-544 | the partition's dictionary has num_samples = int(frac * num) and p_u, all else kept |
| SimData.UpdatesDoNotAccumulate | KPLA/data/data_lsa.py:543-544 | each partition's update hides the previous one |
| SimData.Partitions | KPLA/data/data_lsa.py:540-547 | the partition loop over partition_dict.items() in order: set num_samples and p_u, draw with seed + 15 i, process, store under the key; the first failure ends it |
| SimData.PartitionsOutcome | KPLA/data/data_lsa.py:540-547 | the partition loop succeeds iff every partition does, with one entry per key; else with the first failure's error |
| SimData.PartitionsEntries | KPLA/data/data_lsa.py:540-547 | with distinct keys, each key holds its own partition's sample |
| SimData.PartitionsStop | KPLA/data/data_lsa.py:540-547 | once a prefix fails, the loop fails with that error |
| SimData.PartitionsExtend | KPLA/data/data_lsa.py:540-547 | one pass either stops the loop or stores its sample under its key |
| SimData.PartitionSampleFails | KPLA/data/data_lsa.py:545-546 | a failed draw with seed + 15 i is the partition's error |
| SimData.PartitionSampleProcessed | KPLA/data/data_lsa.py:545-547 | a successful draw is processed with the default proxy columns |
| SimData.GenerateSpec | KPLA/data/data_lsa.py:536-548 | `generate_data`: build the MultiWSimulator from param_dict, then run the partition loop on its dictionary |
| SimData.GenerateSpecProps | KPLA/data/data_lsa.py:536-548 | generate_data fails when the simulator does; otherwise each key holds its own partition's processed sample |
| SimData.GenerateFromInit | KPLA/data/data_lsa.py:536-548 | once the simulator is built, generate_data is the partition loop on its dictionary |
| SimData.GenerateKeys | KPLA/data/data_lsa.py:539-548 | the result has one entry per partition key |
| SimData.GenerateData | KPLA/data/data_lsa.py:536-548 | the method computes GenerateSpec |
| SimData.DrawPartitions | KPLA/data/data_lsa.py:539-548 | the update, draw and process loop computes the partition loop on the initial dictionary; the simulator is left with one partition's num_samples and p_u (the last one's after a success), or untouched when there are no partitions |
| SimData.MixtureOf | KPLA/data/data_lsa.py:578 | p_u is a two-entry list summing to 1 |
| SimData.WithEnv | KPLA/data/data_lsa.py:582-583 | every sample gets `n_env` set to the number of environments |
| SimData.WithEnvSpec | KPLA/data/data_lsa.py:582-583 | n_env is added to every sample, nothing else changes |
| SimData.MultiEnvFrom | KPLA/data/data_lsa.py:577-583 | generate_multienv_data is generate_data on the environment's mixture, then n_env |
| SimData.MultiEnvSpec | KPLA/data/data_lsa.py:573-585 | `generate_multienv_data`: from_Z_to_U, generate_data on the mixture [pu_0, 1 - pu_0], then n_env on every sample |
| SimData.MultiEnvSpecProps | KPLA/data/data_lsa.py:573-585 | succeeds iff `task` and z are known and generate_data succeeds; the mixture is proper; one entry per key, each with n_env = 5 and otherwise generate_data's sample |
| SimData.AddEnvironmentCount | KPLA/data/data_lsa.py:582-583 | the per-key loop computes WithEnv |
| SimData.GenerateMultiEnvData | KPLA/data/data_lsa.py:573-585 | the method computes MultiEnvSpec |
| SimData.WKeyApart | KPLA/data/data_lsa.py:554-556 | the aliases w, w_binary, w_one_hot are never the copied keys |
| SimData.TidyOne | KPLA/data/data_lsa.py:554-556 | the three assignments of tidy_w for one dictionary, in order, each raising KeyError when its source entry is missing and keeping the earlier writes |
| SimData.TidyOneSpec | KPLA/data/data_lsa.py:554-556 | the three assignments succeed iff the proxy's three entries exist, and then copy them; else KeyError |
| SimData.TidyIdempotent | KPLA/data/data_lsa.py:553-556 | tidying a tidied dictionary changes nothing |
| SimData.SampleTable.constructor | KPLA/data/data_lsa.py:552 | a shared sample dictionary holding the given entries |
| SimData.SampleTable.Tidy | KPLA/data/data_lsa.py:554-556 | the in-place assignments leave TidyOne's dictionary and outcome |
| SimData.Run | KPLA/data/data_lsa.py:553-556 | stepping the tables keeps the set of tables |
| SimData.TidyRun | KPLA/data/data_lsa.py:553-556 | the tidy_w loop over the tables in insertion order, TidyOne on each |
| SimData.RunSpec | KPLA/data/data_lsa.py:553-556 | the loop stops at the first table that fails, with its error; earlier tables are tidied, that one partly written, later ones untouched |
| SimData.RunPasses | KPLA/data/data_lsa.py:553-556 | the loop succeeds iff every table passes, and then every table is tidied |
| SimData.TidySettles | KPLA/data/data_lsa.py:554-556 | the per-table step fails exactly without the proxy's entries and otherwise tidies once and for all |
| SimData.TidyRunSpec | KPLA/data/data_lsa.py:551-557 | tidy_w stops at the first dictionary without the proxy's entries with a KeyError, leaving the partial writes |
| SimData.TidyRunPasses | KPLA/data/data_lsa.py:551-557 | tidy_w succeeds iff every dictionary has the proxy's three entries, and then every one is tidied |
| SimData.TidyW | KPLA/data/data_lsa.py:551-557 | the returned copy holds the caller's own dictionaries, and the writes land in them as TidyRun describes |

## Left out

- Random sampling (`get_samples` with its jax PRNG keys, and the numpy draws `np.random.binomial` and `np.random.normal` in the simulator's sampler, data_lsa.py:297 and 327-348, which use numpy's global random state): a `Sampler` parameter applied to the current dictionary and the seed.
- `np.random.RandomState(42).permutation`: a parameter `perm` from the row count to an index sequence. Lemmas that need it assume a permutation of `0..n-1`.
- scikit-learn's `OneHotEncoder`: an `Encoder` parameter on 2-d arrays with at least one row and one column. Its category order is not modelled.
- Adaptation.FitCmeWXC: the covariate list `Xlist` that `ConditionalMeanEmbed.get_params()` returns is taken to be the keys of the covariate dictionary in insertion order, `["X", "C"]`; that class is not part of this model.
- The kernel regressions (`ConditionalMeanEmbed`, `BridgeH0`, `BridgeH0CLF`, `get_exp_y_x`): opaque records of their training inputs and settings, plus an oracle parameter for `get_exp_y_x`. Their numerics and numerical failures are out of scope.
- The AUC value, `normalize` and the probability argument of `score`: the value of `roc_auc_score` is not computed. Its ValueError, when the true labels do not hold exactly two classes, is modelled.
- `predict_proba` is not part of this model.
- Plotting, `print`, `pd.DataFrame` and `flatten` in `evaluation`: the table is a list of rows, in order.
- Floating point: real numbers stand in for floats. `int(0.33 * n)` and `int(0.67 * n)` are `33n/100` and `67n/100`, which agree with double arithmetic for the row counts that occur. `int(frac * num)` is truncation of the exact product.
- numpy broadcasting, dtypes and `jnp.array` copies are not modelled.
- Simulation.ArrayProduct: two arrays of different shapes are rejected with ValueError, because broadcasting is not modelled; numpy would broadcast compatible shapes.
- Simulation.ScaleCoefficients: a coefficient that is not an int is rejected with TypeError, because formatting a float into a key such as `mu_w_u_1.5` is not modelled; the source goes on.
- SimData.FromZToU: `z_indicator` is an int. A float equal to an int key (such as 1.0) is not modelled.
- SimData.WKey: `w_value` is an int. `tidy_w` formats whatever it is given into `f"w_{w_value}"`, so a string or float `w_value` (such as "1" or 1.0) is not modelled.
- Simulation.InitMultiW: a numpy array given as `mu_w_u_coeff_list` is rejected with TypeError. The source iterates it like a list (its entries, or its rows when 2-d). Array dtypes are not modelled, and float coefficients are already rejected (see Simulation.ScaleCoefficients). A 0-d array raises TypeError in the source as well.
- Simulation.Simulator.Initialize: inherits the InitMultiW limitation above for an array coefficient list.
- Scoring.Accuracy: empty label vectors are rejected with ValueError here, while scikit-learn's accuracy_score returns nan for them. The score is unaffected, because roc_auc_score raises ValueError on empty labels, which LabelScore models.
- Dictionary iteration order:
  - `partition_dict` is an ordered list of pairs;
  - `update_param_dict` and `split_data_widx` are modelled order-independently, which is sound because their results do not depend on the order;
  - `tidy_w` runs over the dictionary's insertion order, given as an ordered list of tables, because which tables it has written when it raises KeyError depends on that order.
- `generate_multienv_data` writes `n_env` into the freshly generated samples in place. The model builds the new map instead, because those samples are not shared with anyone.
- `tidy_w` keeps the aliasing: the dictionaries are `SampleTable` objects, so the shallow copy returns the caller's own tables.
- The other simulator classes (`UnivariateSimulator`, `MultivariateSimulator`, and `MultiEnvMultiWSimulator`, whose `initialize` and defaults match `MultiWSimulator`'s), `from_U_to_Z`, `generate_multienv_data_continuous`, `MultiEnvAdapt`, model selection and the baselines are not part of this model.
- `KernelMethod`'s abstract methods that raise NotImplementedError, and scikit-learn's `BaseEstimator` machinery: the model is the concrete `FullAdapt` object.
- Adaptation.FullAdapt.Evaluate (and Adaptation.Evaluation): assume the `get_exp_y_x` oracle returns well-formed arrays.
- Adaptation.FullAdapt.constructor: takes the evidently intended `kernel_dict` default (see Findings) instead of the TypeError the source raises.

## Findings

| source | as written | input that shows it | evidently intended | confidence | as-written member | corrected member |
|---|---|---|---|---|---|---|
| KPLA/models/plain_kernel/method.py:113-131 | when `kernel_dict` is None, the default branch assigns entries into None itself | constructing with `kernel_dict=None` raises TypeError at the first assignment, so the defaults are never used | start from an empty dictionary, fill in the six default kernels, and store it | high; not executed | Estimators.KernelDictAsWritten, Estimators.DefaultKernelsUnreachable | Estimators.KernelDictOrDefault, Estimators.DefaultKernelsServeFits |
