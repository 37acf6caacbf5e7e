/**
 * The IBkLG classifier object: the settings it keeps in its fields, the
 * option handling that reads and writes them, the summary toString gives,
 * and makeDistribution, which rewrites the caller's distance array in place
 * and fills a fresh distribution array.
 */
module Lazy {
  import opened Wrappers
  import opened Numerics
  import opened WeightedVote
  import opened Configuration

  /** How toString reports the weighting mode. */
  datatype WeightingNote = LogWeighted | GaussianWeighted(sd: real) | Unweighted

  /** The three kinds of text toString returns. */
  datatype Description =
    | NoModelBuilt                      // "IBk: No model built yet."
    | NoTrainingInstances               // "Warning: no training instances - ZeroR model used."
    | Summary(kNN: Int32, weighting: WeightingNote, window: Option<Int32>)

  class IBkLG {
    /** m_DistanceWeightingLG and m_SD. */
    var distanceWeighting: int
    var sd: real

    /** The inherited settings setOptions and getOptions handle. */
    var kNN: Int32
    var windowSize: Int32
    var crossValidate: bool
    var meanSquared: bool
    var nnSearch: string

    /**
     * The inherited training state makeDistribution and toString read: the
     * class type, the number of classes, the size of m_Train (`None` while
     * it is null) and the number of attributes used.
     */
    var classType: ClassType
    var numClasses: nat
    var train: Option<nat>
    var numAttributesUsed: real

    /** The settings, as setOptions reads and getOptions writes them. */
    function Settings(): Config
      reads this
    {
      Config(kNN, windowSize, distanceWeighting, sd, crossValidate, meanSquared, nnSearch)
    }

    /** The fields makeDistribution reads. */
    function CurrentSetup(): Setup
      reads this
    {
      Setup(distanceWeighting, sd, classType, numClasses, train, numAttributesUsed)
    }

    /** The training state, which the option handling leaves alone. */
    function TrainingState(): (ClassType, nat, Option<nat>, real)
      reads this
    {
      (classType, numClasses, train, numAttributesUsed)
    }

    /** IBkLG(): init gives spread 1.0 and log weighting; no model is built. */
    constructor ()
      ensures sd == 1.0 && distanceWeighting == WEIGHT_LOG && train.None?
    {
      sd := 1.0;
      distanceWeighting := WEIGHT_LOG;
      kNN := 0;
      windowSize := 0;
      crossValidate := false;
      meanSquared := false;
      nnSearch := LINEAR_NN_SEARCH;
      classType := Nominal;
      numClasses := 0;
      train := None;
      numAttributesUsed := 1.0;
    }

    /** IBkLG(k): init, then setKNN(k). */
    constructor WithKNN(k: Int32)
      ensures sd == 1.0 && distanceWeighting == WEIGHT_LOG && kNN == k && train.None?
    {
      sd := 1.0;
      distanceWeighting := WEIGHT_LOG;
      kNN := k;
      windowSize := 0;
      crossValidate := false;
      meanSquared := false;
      nnSearch := LINEAR_NN_SEARCH;
      classType := Nominal;
      numClasses := 0;
      train := None;
      numAttributesUsed := 1.0;
    }

    /** init: the spread is 1.0 and the weighting is by log distance. */
    method Init()
      modifies this
      ensures Settings() == old(Settings()).(mode := WEIGHT_LOG, sd := 1.0)
      ensures TrainingState() == old(TrainingState())
      ensures KnownWeighting(distanceWeighting)
    {
      SetSD(1.0);
      distanceWeighting := WEIGHT_LOG;
    }

    /**
     * getDistanceWeighting: the mode, as a tag of TAGS_WEIGHTING_LG; `None`
     * when the mode is not one the tags list, which the SelectedTag
     * constructor refuses.
     */
    method GetDistanceWeighting() returns (t: Option<SelectedTag>)
      ensures t.Some? <==> KnownWeighting(distanceWeighting)
      ensures t.Some? ==> t.value.tags == TagsWeightingLG && t.value.id == distanceWeighting
    {
      if KnownWeighting(distanceWeighting) {
        t := Some(TagChoice(distanceWeighting, TagsWeightingLG));
      } else {
        t := None;
      }
    }

    /** setDistanceWeighting: a tag of TAGS_WEIGHTING_LG sets the mode; any other is ignored. */
    method SetDistanceWeighting(t: SelectedTag)
      modifies this
      ensures Settings() == old(Settings()).(mode := SelectWeighting(old(distanceWeighting), t))
      ensures TrainingState() == old(TrainingState())
      ensures t.tags == TagsWeightingLG || old(KnownWeighting(distanceWeighting)) ==> KnownWeighting(distanceWeighting)
    {
      if t.tags == TagsWeightingLG {
        distanceWeighting := t.id;
      }
    }

    method GetSD() returns (r: real)
      ensures r == sd
    {
      r := sd;
    }

    method SetSD(x: real)
      modifies this
      ensures Settings() == old(Settings()).(sd := x)
      ensures TrainingState() == old(TrainingState())
    {
      sd := x;
    }

    /** The inherited setters setOptions calls. */
    method SetKNN(x: Int32)
      modifies this
      ensures Settings() == old(Settings()).(kNN := x)
      ensures TrainingState() == old(TrainingState())
    {
      kNN := x;
    }

    method SetWindowSize(x: Int32)
      modifies this
      ensures Settings() == old(Settings()).(windowSize := x)
      ensures TrainingState() == old(TrainingState())
    {
      windowSize := x;
    }

    method SetCrossValidate(x: bool)
      modifies this
      ensures Settings() == old(Settings()).(crossValidate := x)
      ensures TrainingState() == old(TrainingState())
    {
      crossValidate := x;
    }

    method SetMeanSquared(x: bool)
      modifies this
      ensures Settings() == old(Settings()).(meanSquared := x)
      ensures TrainingState() == old(TrainingState())
    {
      meanSquared := x;
    }

    method SetNearestNeighbourSearch(x: string)
      modifies this
      ensures Settings() == old(Settings()).(nnSearch := x)
      ensures TrainingState() == old(TrainingState())
    {
      nnSearch := x;
    }

    /**
     * setOptions, as far as IBkLG reads the options itself: -K, -W, the
     * weighting, -X and -E, and -A, each stored as soon as it is read. The
     * outcome is the list left for the base class, or the error that stops
     * the reading; what was stored before the error stays.
     */
    method SetOptions(options: seq<Token>) returns (outcome: Result<seq<Token>, OptionError>)
      modifies this
      ensures Settings() == ApplyOptions(old(Settings()), options).config
      ensures outcome == ApplyOptions(old(Settings()), options).rest
      ensures TrainingState() == old(TrainingState())
      ensures outcome.Success? || old(KnownWeighting(distanceWeighting)) ==> KnownWeighting(distanceWeighting)
    {
      ApplyOptionsKeepsKnownWeighting(Settings(), options);
      var a1 := ReadKnn(Settings(), options);
      SetKNN(a1.config.kNN);
      if a1.rest.Failure? {
        return a1.rest;
      }
      var a2 := ReadWindow(Settings(), a1.rest.value);
      SetWindowSize(a2.config.windowSize);
      if a2.rest.Failure? {
        return a2.rest;
      }
      outcome := SetLaterOptions(a2.rest.value);
    }

    /** The rest of setOptions, once -K and -W are read. */
    method SetLaterOptions(options: seq<Token>) returns (outcome: Result<seq<Token>, OptionError>)
      modifies this
      ensures Settings() == ApplyLaterOptions(old(Settings()), options).config
      ensures outcome == ApplyLaterOptions(old(Settings()), options).rest
      ensures TrainingState() == old(TrainingState())
    {
      var a3 := ReadWeighting(Settings(), options);
      SetDistanceWeighting(TagChoice(a3.config.mode, TagsWeightingLG));
      SetSD(a3.config.sd);
      if a3.rest.Failure? {
        return a3.rest;
      }
      var a4 := ReadFlags(Settings(), a3.rest.value);
      SetCrossValidate(a4.config.crossValidate);
      SetMeanSquared(a4.config.meanSquared);
      var a5 := ReadSearch(Settings(), a4.rest.value);
      SetNearestNeighbourSearch(a5.config.nnSearch);
      outcome := a5.rest;
    }

    /** getOptions, as far as IBkLG writes the options itself. */
    method GetOptions() returns (options: seq<Token>)
      ensures options == OptionsOf(Settings())
    {
      options := [Flag('K'), IntLit(kNN)];
      options := options + [Flag('W'), IntLit(windowSize)];
      options := options + [Flag('S'), RealLit(sd)];
      var switches := [];
      if crossValidate {
        switches := switches + [Flag('X')];
      }
      if meanSquared {
        switches := switches + [Flag('E')];
      }
      var weighting := [];
      if distanceWeighting == WEIGHT_LOG {
        weighting := [Flag('L')];
      } else if distanceWeighting == WEIGHT_GAUSSIAN {
        weighting := [Flag('G')];
      }
      assert switches == SwitchFlags(Settings()) && weighting == WeightingFlag(Settings());
      options := options + switches + weighting + [Flag('A'), Word(nnSearch)];
      RegroupOptions(Settings(), switches + weighting);
    }

    /**
     * toString: which text it gives. Without a training set there is no
     * model; with an empty one ZeroR is used; otherwise the summary names
     * k, the weighting (with the spread when Gaussian) and the window when
     * there is one.
     */
    function Describe(): (d: Description)
      reads this
      ensures d == NoModelBuilt <==> train.None?
      ensures d == NoTrainingInstances <==> train == Some(0)
      ensures d.Summary? ==> d.kNN == kNN
      ensures d.Summary? ==> (d.weighting == LogWeighted <==> distanceWeighting == WEIGHT_LOG)
      ensures d.Summary? ==> (d.weighting.GaussianWeighted? <==> distanceWeighting == WEIGHT_GAUSSIAN)
      ensures d.Summary? && d.weighting.GaussianWeighted? ==> d.weighting.sd == sd
      ensures d.Summary? ==> (d.window.Some? <==> windowSize != 0)
      ensures d.Summary? && d.window.Some? ==> d.window.value == windowSize
    {
      if train.None? then NoModelBuilt
      else if train.value == 0 then NoTrainingInstances
      else
        var note := if distanceWeighting == WEIGHT_LOG then LogWeighted
                    else if distanceWeighting == WEIGHT_GAUSSIAN then GaussianWeighted(sd)
                    else Unweighted;
        Summary(kNN, note, if windowSize != 0 then Some(windowSize) else None)
    }

    /**
     * makeDistribution(neighbours, distances): the distances of the
     * neighbours are rewritten in place and a fresh array holds the
     * distribution, both as `Distribution` describes them.
     */
    method MakeDistribution(ops: MathOps, neighbours: seq<Neighbour>, distances: array<real>)
      returns (result: Result<array<real>, Fault>)
      requires Usable(ops, CurrentSetup()) && |neighbours| <= distances.Length
      modifies distances
      ensures var m := Distribution(ops, CurrentSetup(), neighbours, old(distances[..]));
              distances[..] == m.distances &&
              (result.Failure? <==> m.result.Failure?) &&
              (result.Failure? ==> result.error == m.result.error) &&
              (result.Success? ==> fresh(result.value) && result.value[..] == m.result.value)
    {
      ghost var s := CurrentSetup();
      ghost var raw := distances[..];
      if classType == Nominal && train.None? {
        return Failure(NoTrainingSet);
      }
      ghost var ds := AdjustAll(ops, raw[..|neighbours|], numAttributesUsed);
      var distribution, total := Prior();
      var counted;
      total, counted := CountVotes(ops, neighbours, distances, distribution, total);
      if !counted {
        return Failure(NoClassAttribute);
      }
      ghost var tally := Tally(distribution[..], total);
      if total > 0.0 {
        NormalizeArray(distribution, total);
      }
      assert distribution[..] == Normalize(tally);
      result := Success(distribution);
    }

    /**
     * The loop of makeDistribution: each neighbour's distance is rewritten
     * in place and its vote added, starting from `distribution` and
     * `total`, until a vote cannot be counted. On success the new slots
     * and total are those of `Run`; either way the distances rewritten so
     * far are those up to and including the neighbour that stopped it.
     */
    method CountVotes(ops: MathOps, neighbours: seq<Neighbour>, distances: array<real>,
                      distribution: array<real>, start: real)
      returns (total: real, counted: bool)
      requires Usable(ops, CurrentSetup()) && |neighbours| <= distances.Length
      requires distribution != distances
      modifies distances, distribution
      ensures var raw := old(distances[..]);
              var ds := AdjustAll(ops, raw[..|neighbours|], numAttributesUsed);
              var run := Run(ops, CurrentSetup(), neighbours, ds, Tally(old(distribution[..]), start));
              (counted <==> run.Running?) &&
              (counted ==> distribution[..] == run.tally.dist && total == run.tally.total &&
                           distances[..] == ds + raw[|neighbours|..]) &&
              (!counted ==> distances[..] == ds[..run.at + 1] + raw[run.at + 1..])
    {
      ghost var s := CurrentSetup();
      ghost var raw := distances[..];
      ghost var seed := Tally(distribution[..], start);
      ghost var ds := AdjustAll(ops, raw[..|neighbours|], numAttributesUsed);
      total := start;
      assert neighbours[..0] == [] && ds[..0] == [];
      assert distances[..] == ds[..0] + raw[0..];
      for i := 0 to |neighbours|
        invariant Run(ops, s, neighbours[..i], ds[..i], seed) == Running(Tally(distribution[..], total))
        invariant distances[..] == ds[..i] + raw[i..]
      {
        total, counted := CountVote(ops, neighbours, distances, distribution, total, i, raw, ds, seed);
        if !counted {
          RunAbortSticks(ops, s, neighbours, ds, seed, i + 1);
          return;
        }
      }
      assert neighbours[..|neighbours|] == neighbours && ds[..|neighbours|] == ds;
      counted := true;
    }

    /**
     * One pass of the loop of makeDistribution, at neighbour `i`: its
     * distance is rewritten in place and its vote added, extending the run
     * over the first `i` neighbours by one.
     */
    method CountVote(ops: MathOps, neighbours: seq<Neighbour>, distances: array<real>,
                     distribution: array<real>, total: real, i: nat,
                     ghost raw: seq<real>, ghost ds: seq<real>, ghost seed: Tally)
      returns (total': real, counted: bool)
      requires Usable(ops, CurrentSetup()) && i < |neighbours| <= distances.Length == |raw|
      requires distribution != distances
      requires ds == AdjustAll(ops, raw[..|neighbours|], numAttributesUsed)
      requires Run(ops, CurrentSetup(), neighbours[..i], ds[..i], seed) == Running(Tally(distribution[..], total))
      requires distances[..] == ds[..i] + raw[i..]
      modifies distances, distribution
      ensures distances[..] == ds[..i + 1] + raw[i + 1..]
      ensures counted ==>
                Run(ops, CurrentSetup(), neighbours[..i + 1], ds[..i + 1], seed) ==
                Running(Tally(distribution[..], total'))
      ensures !counted ==> Run(ops, CurrentSetup(), neighbours[..i + 1], ds[..i + 1], seed) == Aborted(i)
    {
      var current := neighbours[i];
      Rewritten(ops, ds, raw, i, numAttributesUsed);
      assert distances[i] == raw[i];
      RewriteDistance(ops, distances, i, numAttributesUsed);
      assert distances[i] == ds[i];
      var weight := NeighbourWeight(ops, current, distances[i]);
      RunStep(ops, CurrentSetup(), neighbours, ds, seed, i);
      counted := AddVote(ops, current, distances[i], weight, distribution, total);
      total' := total + weight;
    }

    /**
     * The distribution before any neighbour is counted: for a nominal class
     * every slot holds 1 / max(1, training size) and the total is the
     * number of classes over the same; otherwise all zero.
     */
    method Prior() returns (distribution: array<real>, total: real)
      requires classType == Nominal ==> train.Some?
      ensures fresh(distribution)
      ensures distribution[..] == Seed(CurrentSetup()).dist && total == Seed(CurrentSetup()).total
    {
      total := 0.0;
      distribution := new real[numClasses](_ => 0.0);
      if classType == Nominal {
        var n := Max(1, train.value) as real;
        for i := 0 to numClasses
          modifies distribution
          invariant forall k :: 0 <= k < i ==> distribution[k] == 1.0 / n
          invariant forall k :: i <= k < numClasses ==> distribution[k] == 0.0
        {
          distribution[i] := 1.0 / n;
        }
        total := numClasses as real / n;
      }
    }

    /**
     * The vote of a neighbour at rewritten distance `d`: the weight the
     * mode gives `d`, times the neighbour's instance weight.
     */
    method NeighbourWeight(ops: MathOps, current: Neighbour, d: real) returns (weight: real)
      requires Usable(ops, CurrentSetup())
      ensures weight == VoteWeight(ops, CurrentSetup(), current, d)
    {
      if distanceWeighting == WEIGHT_LOG {
        weight := -ops.ln(d + EPSILON);
      } else if distanceWeighting == WEIGHT_GAUSSIAN {
        weight := Gaussian(ops, 0.0, sd, d);
      } else {
        weight := -ops.ln(EPSILON);
      }
      weight := weight * current.weight;
    }

    /**
     * Adding the vote `weight` of one neighbour to its slot; `false` when
     * the neighbour is rejected, which makes makeDistribution fail.
     */
    method AddVote(ops: MathOps, current: Neighbour, d: real, weight: real, distribution: array<real>,
                   ghost total: real)
      returns (counted: bool)
      requires Usable(ops, CurrentSetup()) && weight == VoteWeight(ops, CurrentSetup(), current, d)
      modifies distribution
      ensures var v := Vote(ops, CurrentSetup(), current, d, Tally(old(distribution[..]), total));
              (counted <==> v.Some?) &&
              (counted ==> distribution[..] == v.value.dist) &&
              (!counted ==> distribution[..] == old(distribution[..]))
    {
      ghost var s := CurrentSetup();
      ghost var before := Tally(distribution[..], total);
      match classType {
        case Nominal =>
          if current.classValue.None? {
            return false;
          }
          var slot := JavaIntCast(current.classValue.value);
          assert slot == Label(current);
          if !(0 <= slot < distribution.Length) {
            return false;
          }
          distribution[slot] := distribution[slot] + weight;
          VoteNominal(ops, s, current, d, before, weight);
        case Numeric =>
          if current.classValue.None? || distribution.Length == 0 {
            return false;
          }
          distribution[0] := distribution[0] + current.classValue.value * weight;
          VoteNumeric(ops, s, current, d, before, weight);
        case OtherType =>
          VoteOther(ops, s, current, d, before, weight);
      }
      counted := true;
    }

    /** distances[i] becomes sqrt(distances[i]^2 / numAttributesUsed); nothing else changes. */
    static method RewriteDistance(ops: MathOps, distances: array<real>, i: nat, numAttributesUsed: real)
      requires i < distances.Length && numAttributesUsed > 0.0
      modifies distances
      ensures distances[..] == old(distances[..])[i := Adjust(ops, old(distances[i]), numAttributesUsed)]
    {
      distances[i] := distances[i] * distances[i];
      distances[i] := ops.sqrt(distances[i] / numAttributesUsed);
    }

    /**
     * Distance `i` is still the caller's before it is rewritten, and
     * rewriting it extends the rewritten prefix by one.
     */
    static lemma Rewritten(ops: MathOps, ds: seq<real>, raw: seq<real>, i: nat, numAttributesUsed: real)
      requires numAttributesUsed > 0.0 && i < |ds| <= |raw|
      requires ds == AdjustAll(ops, raw[..|ds|], numAttributesUsed)
      ensures (ds[..i] + raw[i..])[i] == raw[i]
      ensures ds[i] == Adjust(ops, raw[i], numAttributesUsed)
      ensures (ds[..i] + raw[i..])[i := ds[i]] == ds[..i + 1] + raw[i + 1..]
    {
      assert raw[..|ds|][i] == raw[i];
    }

    /** What getOptions builds step by step is what `OptionsOf` writes. */
    static lemma RegroupOptions(c: Config, flags: seq<Token>)
      requires flags == SwitchFlags(c) + WeightingFlag(c)
      ensures [Flag('K'), IntLit(c.kNN)] + [Flag('W'), IntLit(c.windowSize)] + [Flag('S'), RealLit(c.sd)]
              + SwitchFlags(c) + WeightingFlag(c) + [Flag('A'), Word(c.nnSearch)] == OptionsOf(c)
    {
      var tail := [Flag('A'), Word(c.nnSearch)];
      var lhs := [Flag('K'), IntLit(c.kNN)] + [Flag('W'), IntLit(c.windowSize)] + [Flag('S'), RealLit(c.sd)]
                 + SwitchFlags(c) + WeightingFlag(c) + tail;
      var fixed := [Flag('K'), IntLit(c.kNN), Flag('W'), IntLit(c.windowSize), Flag('S'), RealLit(c.sd)];
      assert lhs == fixed + flags + tail;
      assert OptionsOf(c) == fixed + flags + tail;
    }
  }
}
