# IBkLG in Dafny

IBkLG is a Weka k-nearest-neighbour classifier. It weights each neighbour's
vote by its distance: either the log weight `-ln(d + 1e-10)` or a Gaussian
density of mean 0 and spread `m_SD`. This project models the parts of
`IBkLG.java` that the class implements itself, and proves properties of
that model:

- `makeDistribution` turns the nearest neighbours and their distances into
  a class distribution (nominal class) or a weighted mean in slot 0
  (numeric class). It rewrites the caller's distance array in place.
- The weighting-mode field, its tag guard and `init`.
- The option list that `setOptions` reads and `getOptions` writes.
- The choice of text in `toString`.

The project has five modules:

- `Wrappers` (`wrappers.dfy`): `Option` and `Result`.
- `Numerics` (`numerics.dfy`):
  - Java's `int`;
  - the narrowing cast `(int) x`;
  - sums of real sequences;
  - `Utils.normalize` as an in-place method on an array.
- `WeightedVote` (`vote.dfy`): the vote as pure functions, and the
  properties proved about them. The functions are:
  - the prior `Seed`;
  - one neighbour's `Vote`;
  - the fold `Run` over the neighbours;
  - `Normalize`;
  - `Distribution`, the whole of makeDistribution: its result and the
    caller's distance array afterwards.
- `Configuration` (`configuration.dfy`): the settings as a `Config` value.
  - An option list is a sequence of tokens. An option that has been read
    is blanked to the empty word, as Weka's option helpers do.
  - `ApplyOptions` is setOptions, stage by stage.
  - `OptionsOf` is getOptions.
- `Lazy` (`ibklg.dfy`): the class `IBkLG`, with the fields the source
  reads and writes, and imperative methods for its operations.
  `MakeDistribution` works on `array<real>`. Its contract ties the
  arrays it leaves to `WeightedVote.Distribution`. The setters and
  `SetOptions` tie the new fields to `Configuration`.

`Math.log`, `Math.exp`, `Math.sqrt` and `Math.PI` are not interpreted. They
are the fields of a `MathOps` value the caller passes in, so each proof
holds whatever those functions are. The proofs are about the data flow,
not about floating point.

## Model

| member | source | states |
|---|---|---|
| Numerics.JavaIntCast | src/main/weka/classifiers/lazy/IBkLG.java:475 | `(int) x` rounds toward zero inside the `int` range and saturates at `INT_MIN`/`INT_MAX` outside it |
| Numerics.NormalizeArray | src/main/weka/classifiers/lazy/IBkLG.java:489 | every element of the array is divided, in place, by the non-zero sum |
| Numerics.SumUpdate | src/main/weka/classifiers/lazy/IBkLG.java:475 | adding `w` to one slot adds `w` to the sum of the slots |
| Numerics.SumConstant | src/main/weka/classifiers/lazy/IBkLG.java:448-451 | `n` slots of `c` add up to `n * c` |
| Numerics.SumDivided | src/main/weka/classifiers/lazy/IBkLG.java:489 | dividing every slot by `c` divides the sum by `c` |
| WeightedVote.GaussianSymmetric | src/main/weka/classifiers/lazy/IBkLG.java:426-430 | the density at `mean + d` equals the density at `mean - d` |
| WeightedVote.AdjustAll | src/main/weka/classifiers/lazy/IBkLG.java:457-458 | each distance is rewritten to `sqrt(d * d / numAttributesUsed)`, and the length is kept |
| WeightedVote.FallbackWeightIgnoresDistance | src/main/weka/classifiers/lazy/IBkLG.java:460-470 | a mode that is neither log nor Gaussian gives every distance the constant `-ln(1e-10)`, the log weight of distance 0 |
| WeightedVote.Seed | src/main/weka/classifiers/lazy/IBkLG.java:443-452 | nominal: every one of the `numClasses` slots is `1 / max(1, N)` and the total is `numClasses / max(1, N)`; any other class type: all slots and the total are 0 |
| WeightedVote.Vote | src/main/weka/classifiers/lazy/IBkLG.java:471-484 | the vote is refused exactly when the class value cannot be read, when a nominal label is out of range, or when a numeric class has no slot 0; otherwise the total grows by the weight, and each slot grows by its share and by nothing else |
| WeightedVote.Run | src/main/weka/classifiers/lazy/IBkLG.java:454-485 | an abort names a neighbour that exists; a completed run keeps the number of slots |
| WeightedVote.Normalize | src/main/weka/classifiers/lazy/IBkLG.java:487-491 | with a positive total each slot times the total is the accumulated slot; otherwise the slots are returned as accumulated |
| WeightedVote.SeedBalanced | src/main/weka/classifiers/lazy/IBkLG.java:447-452 | the nominal prior's slots add up to its total |
| WeightedVote.VoteNominal | src/main/weka/classifiers/lazy/IBkLG.java:474-476 | a nominal label in range adds the vote to slot `(int) classValue` and to the total |
| WeightedVote.VoteNumeric | src/main/weka/classifiers/lazy/IBkLG.java:477-479 | a numeric neighbour adds `classValue * weight` to slot 0 and the weight to the total |
| WeightedVote.VoteOther | src/main/weka/classifiers/lazy/IBkLG.java:472-484 | for any other class type the slots are unchanged and only the total grows |
| WeightedVote.RunStep | src/main/weka/classifiers/lazy/IBkLG.java:454-485 | one more pass of the loop: an abort stays; otherwise a refused vote aborts at this neighbour and a counted one continues |
| WeightedVote.RunAbortSticks | src/main/weka/classifiers/lazy/IBkLG.java:481-482 | once a prefix of the neighbours aborts, the whole run aborts at the same neighbour |
| WeightedVote.RunAbortsAtFirstRejected | src/main/weka/classifiers/lazy/IBkLG.java:472-483 | the run completes iff no neighbour is refused, and it aborts at `at` iff `at` is the first refused neighbour |
| WeightedVote.RunTallies | src/main/weka/classifiers/lazy/IBkLG.java:454-485 | after a completed run the total is the seed plus every vote, and each slot is its seed plus the shares voted for it |
| WeightedVote.RunKeepsBalance | src/main/weka/classifiers/lazy/IBkLG.java:447-485 | for a nominal class, slots that add up to the total still do so after every counted neighbour |
| WeightedVote.NormalizeSumsToOne | src/main/weka/classifiers/lazy/IBkLG.java:487-490 | a balanced tally with a positive total normalises to slots that add up to 1 |
| WeightedVote.NominalDistributionSumsToOne | src/main/weka/classifiers/lazy/IBkLG.java:443-491 | for a nominal class with a training set and every label in range, a distribution is returned; it has `numClasses` slots, and they add up to 1 or to a total that is not positive |
| WeightedVote.DistancesRewritten | src/main/weka/classifiers/lazy/IBkLG.java:454-458 | the distances of the counted neighbours are rewritten, including the one that aborts the vote; every later entry is left as it was |
| WeightedVote.NumericMeanOfTwo | src/main/weka/classifiers/lazy/IBkLG.java:477-490 | two numeric neighbours of values 10 and 20 with equal, positive votes predict 15 |
| Configuration.FindFlag | src/main/weka/classifiers/lazy/IBkLG.java:303 | finds the first `-c`, and finds none iff the list has no `-c` |
| Configuration.GetOption | src/main/weka/classifiers/lazy/IBkLG.java:303 | the value after the first `-c`, and the list with exactly that `-c` and its value blanked; the empty word and the list unchanged when `-c` is absent; an error iff `-c` is the last token |
| Configuration.GetFlag | src/main/weka/classifiers/lazy/IBkLG.java:315 | true iff `-c` is present; the list with exactly its first `-c` blanked, or unchanged when there is none |
| Configuration.ParseInt | src/main/weka/classifiers/lazy/IBkLG.java:305 | accepts exactly the integer literals in the `int` range |
| Configuration.ParseFloat | src/main/weka/classifiers/lazy/IBkLG.java:320 | accepts exactly the numeric literals, with their value |
| Configuration.SelectWeighting | src/main/weka/classifiers/lazy/IBkLG.java:181-186 | a tag from TAGS_WEIGHTING_LG gives its id, which is log or Gaussian; any other tag leaves the current mode; a known mode stays known |
| Configuration.ReadKnn | src/main/weka/classifiers/lazy/IBkLG.java:303-308 | without `-K`, k is 1 and the list is unchanged; with `-K`, it fails iff `-K` is last (no value) or its value is neither empty nor an `int` literal, and then k is unchanged; otherwise k is that integer (1 if empty) and exactly `-K` and its value are blanked |
| Configuration.ReadWindow | src/main/weka/classifiers/lazy/IBkLG.java:309-314 | without `-W`, the window is 0 and the list is unchanged; with `-W`, it fails iff `-W` is last or its value is neither empty nor an `int` literal, and then the window is unchanged; otherwise the window is that integer (0 if empty) and exactly `-W` and its value are blanked |
| Configuration.ReadWeighting | src/main/weka/classifiers/lazy/IBkLG.java:315-323 | the mode is always log or Gaussian; `-L` wins over `-G`, gives log weighting and blanks that `-L`; neither flag gives log weighting with the list unchanged; `-G` alone gives Gaussian weighting and fails iff `-S` is missing, last, or followed by a value that is not a number; on success the spread is that number and exactly `-G`, `-S` and the value are blanked |
| Configuration.ReadFlags | src/main/weka/classifiers/lazy/IBkLG.java:324-325 | cross-validation is on iff `-X` is present, and mean-squared iff `-E` is present |
| Configuration.ReadSearch | src/main/weka/classifiers/lazy/IBkLG.java:327-344 | without `-A` the search is the linear search; with `-A`, it fails iff `-A` is last, or its value is a number or a word of only white space, and then the search is unchanged; otherwise the search is that word (the linear search if it is empty) and exactly `-A` and its value are blanked |
| Configuration.SwitchFlags | src/main/weka/classifiers/lazy/IBkLG.java:362-367 | `-X` iff cross-validation is on, `-E` iff mean-squared is on, and nothing else |
| Configuration.WeightingFlag | src/main/weka/classifiers/lazy/IBkLG.java:368-372 | `-L` iff the mode is log, `-G` iff it is Gaussian, at most one flag, and none for any other mode |
| Configuration.OptionsOf | src/main/weka/classifiers/lazy/IBkLG.java:356-376 | `-K`, `-W` and `-S` with their values open the list in every case, `-A` and the search close it, and the list has 8 to 11 tokens |
| Configuration.OptionsOfFlags | src/main/weka/classifiers/lazy/IBkLG.java:362-372 | the whole list holds `-X`, `-E`, `-L` and `-G` exactly when the settings ask for them |
| Configuration.ApplyOptionsPicksKnownMode | src/main/weka/classifiers/lazy/IBkLG.java:315-323 | when setOptions gets through, the mode is log or Gaussian |
| Configuration.ApplyOptionsKeepsKnownWeighting | src/main/weka/classifiers/lazy/IBkLG.java:301-323 | setOptions ends with the old mode or one it selected, so a known mode stays known, and a setOptions that gets through leaves a known mode |
| Configuration.SpreadUnreadUnlessGaussian | src/main/weka/classifiers/lazy/IBkLG.java:315-323 | when setOptions ends in log mode, the spread keeps its old value and every `-S` stays in the list it leaves |
| Configuration.GaussianOptionsReadBack | src/main/weka/classifiers/lazy/IBkLG.java:317-320 | reading back the options written for a Gaussian configuration whose search is not only white space restores every setting IBkLG reads itself |
| Configuration.LogOptionsLeaveSpread | src/main/weka/classifiers/lazy/IBkLG.java:315-316 | reading back the options written for a log configuration restores every setting but the spread, and leaves `-S` and its value unread |
| Lazy.IBkLG.constructor | src/main/weka/classifiers/lazy/IBkLG.java:151-153 | init's spread 1.0 and log weighting; no training set |
| Lazy.IBkLG.WithKNN | src/main/weka/classifiers/lazy/IBkLG.java:142-145 | as the constructor without arguments, and k is the one given |
| Lazy.IBkLG.Init | src/main/weka/classifiers/lazy/IBkLG.java:158-162 | the spread becomes 1.0 and the mode log, a known mode; nothing else changes |
| Lazy.IBkLG.GetDistanceWeighting | src/main/weka/classifiers/lazy/IBkLG.java:165-173 | a tag of TAGS_WEIGHTING_LG whose id is the mode, given exactly when the mode is log or Gaussian; otherwise the SelectedTag constructor refuses it |
| Lazy.IBkLG.SetDistanceWeighting | src/main/weka/classifiers/lazy/IBkLG.java:175-186 | the mode becomes the tag's id only when the tag is from TAGS_WEIGHTING_LG, and is then log or Gaussian; otherwise it is unchanged; nothing else changes |
| Lazy.IBkLG.GetSD | src/main/weka/classifiers/lazy/IBkLG.java:212-214 | returns the spread |
| Lazy.IBkLG.SetSD | src/main/weka/classifiers/lazy/IBkLG.java:202-204 | the spread becomes the value given; nothing else changes |
| Lazy.IBkLG.SetKNN | src/main/weka/classifiers/lazy/IBkLG.java:305 | k becomes the value given; nothing else changes |
| Lazy.IBkLG.SetWindowSize | src/main/weka/classifiers/lazy/IBkLG.java:311 | the window becomes the value given; nothing else changes |
| Lazy.IBkLG.SetCrossValidate | src/main/weka/classifiers/lazy/IBkLG.java:324 | cross-validation becomes the value given; nothing else changes |
| Lazy.IBkLG.SetMeanSquared | src/main/weka/classifiers/lazy/IBkLG.java:325 | mean-squared becomes the value given; nothing else changes |
| Lazy.IBkLG.SetNearestNeighbourSearch | src/main/weka/classifiers/lazy/IBkLG.java:337-344 | the search becomes the value given; nothing else changes |
| Lazy.IBkLG.SetOptions | src/main/weka/classifiers/lazy/IBkLG.java:301-345 | the new settings and the outcome are those of `ApplyOptions` on the old settings; a known mode stays known, and a setOptions that gets through leaves one; the training state is unchanged |
| Lazy.IBkLG.SetLaterOptions | src/main/weka/classifiers/lazy/IBkLG.java:315-344 | the weighting, switch and search stages, as `ApplyLaterOptions` gives them |
| Lazy.IBkLG.GetOptions | src/main/weka/classifiers/lazy/IBkLG.java:356-376 | the list built step by step is `OptionsOf` the current settings |
| Lazy.IBkLG.Describe | src/main/weka/classifiers/lazy/IBkLG.java:387-421 | no model iff no training set; the ZeroR warning iff the training set is empty; otherwise the summary names k, log weighting iff the mode is log, Gaussian with the spread iff the mode is Gaussian, and the window iff it is not 0 |
| Lazy.IBkLG.MakeDistribution | src/main/weka/classifiers/lazy/IBkLG.java:440-492 | the distances left in the caller's array, the fault, and the fresh distribution array are exactly those of `Distribution` |
| Lazy.IBkLG.CountVotes | src/main/weka/classifiers/lazy/IBkLG.java:454-485 | the loop completes iff `Run` does, leaving its slots and total; either way the distances up to the neighbour that stopped it are rewritten |
| Lazy.IBkLG.CountVote | src/main/weka/classifiers/lazy/IBkLG.java:455-484 | one pass extends the run by the neighbour at `i` and rewrites its distance |
| Lazy.IBkLG.Prior | src/main/weka/classifiers/lazy/IBkLG.java:443-452 | a fresh array and a total equal to `Seed` |
| Lazy.IBkLG.NeighbourWeight | src/main/weka/classifiers/lazy/IBkLG.java:460-471 | the weight is the mode's weight of the distance times the instance weight |
| Lazy.IBkLG.AddVote | src/main/weka/classifiers/lazy/IBkLG.java:472-483 | counted iff `Vote` accepts the neighbour, leaving its slots; a refused vote leaves the array unchanged |
| Lazy.IBkLG.RewriteDistance | src/main/weka/classifiers/lazy/IBkLG.java:457-458 | only entry `i` changes, to its rewritten distance |

## Left out

- Floating point. Reals stand for doubles, with no rounding, NaN or
  infinity. A missing class value is NaN in Weka, and `(int) NaN` is 0, so
  its vote goes to slot 0; the model has no NaN and does not capture this.
  Because there is no infinity either, the model requires
  `numAttributesUsed > 0` and, in Gaussian mode, a spread at which the
  density does not divide by zero.
- `Math.log`, `Math.exp`, `Math.sqrt` and `Math.PI` are the uninterpreted
  fields of `MathOps`. So no property relies on their values, for instance
  on the sign of the log weight.
- Weka's `Instances`/`Instance` accessors. A neighbour is its class value
  and its instance weight. It has `None` class value when `classValue()`
  throws, for example when there is no class attribute.
- Lazy.IBkLG.MakeDistribution: requires at least as many distances as
  neighbours. A shorter array throws outside the `try` in the source, and
  the model does not describe that exception.
- Numerics.NormalizeArray: requires a non-zero sum. makeDistribution only
  calls it with a positive total; the rest of `Utils.normalize` is not
  modelled.
- The base class IBk and everything the source delegates to it:
  - `super.init`, `super.setOptions`, `super.getOptions`,
    `Utils.checkForRemainingOptions`;
  - the neighbour search itself, windowing and `crossValidate()`, which
    toString calls (lines 397-399);
  - `runClassifier`/`main`.
  `SetOptions` returns the token list it would hand to the base class.
- Lazy.IBkLG.constructor and Lazy.IBkLG.WithKNN promise nothing about the
  inherited settings, because IBk's own `init` is not part of this model.
- Lazy.IBkLG.Init: `super.init` (line 159) is modelled as doing nothing, so
  the contract keeps the inherited settings unchanged.
- The `-A` value is recorded whole as the search's name. The source splits it
  (`Utils.splitOptions`) and instantiates the first word by reflection
  (`Utils.forName`), passing the rest as the search's options.
  - A value of only white space splits into nothing. That is the "Invalid
    NearestNeighbourSearch" error (lines 330-332), `InvalidSearchSpec`.
    White space is `Character.isWhitespace` below U+0080; the wider
    Unicode spaces and splitOptions' quoting are not modelled.
  - A number cannot name a class, so `Utils.forName` (line 338) fails on it:
    `UnknownSearchClass`. Whether a word names an existing class is not
    modelled; every other word is accepted.
  - getOptions writes the class name and its options; the model writes the
    recorded name.
- The SelectedTag constructor refuses an id its tag set does not list. For
  TAGS_WEIGHTING_LG that is built into the type `SelectedTag`. The ids of
  other tag sets are not known here, so any id is accepted for them. The
  mode field can still hold any `int`, as a subclass can set the protected
  field; makeDistribution's fallback weight covers that case.
- `Float.parseFloat` and `Integer.parseInt` on strings. A token is already
  an integer literal, a decimal literal or a word. `-S` loses no precision
  in the model.
- `listOptions` and the tip texts: they are static help text.
- The exact strings toString builds. `Describe` gives which text it is
  and the values it shows.

The model follows the code where the documented behaviour says otherwise:

- setOptions stores each setting as soon as it reads it. An error part-way
  leaves the earlier settings changed, and `ApplyOptions` keeps them.
- getOptions always writes `-S` (line 361). setOptions reads `-S` only
  after `-G` (lines 317-320). So reading back a log configuration leaves
  the spread as it was, with `-S` unread (`LogOptionsLeaveSpread`); only a
  Gaussian configuration reads back whole (`GaussianOptionsReadBack`). The
  unread `-S` pair then reaches `Utils.checkForRemainingOptions` (line 348),
  which refuses leftover options unless the base class consumed them.
