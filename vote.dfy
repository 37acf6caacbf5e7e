/**
 * The weighted vote of IBkLG.makeDistribution, as functions: how a list of
 * nearest neighbours and their raw distances becomes a class distribution
 * (nominal class) or a weighted sum (numeric class).
 *
 * The floating-point library (Math.log, Math.exp, Math.sqrt, Math.PI) is
 * not interpreted: it is a `MathOps` value the caller supplies, so the
 * proofs are about the data flow and hold whatever those functions are.
 */
module WeightedVote {
  import opened Wrappers
  import opened Numerics

  /** Weighting modes of TAGS_WEIGHTING_LG. */
  const WEIGHT_LOG: int := 8
  const WEIGHT_GAUSSIAN: int := 16

  /** The offset 1e-10 that keeps the log weight finite at distance 0. */
  const EPSILON: real := 0.0000000001

  /** Math.log, Math.exp, Math.sqrt and Math.PI. */
  datatype MathOps = MathOps(ln: real -> real, exp: real -> real, sqrt: real -> real, pi: real)

  /** Attribute.NOMINAL, Attribute.NUMERIC, and every other class type (date, ...). */
  datatype ClassType = Nominal | Numeric | OtherType

  /**
   * A neighbouring training instance: its class value (`None` when
   * `classValue()` cannot be read) and its instance weight.
   */
  datatype Neighbour = Neighbour(classValue: Option<real>, weight: real)

  /**
   * The fields makeDistribution reads: the weighting mode and spread, the
   * class type, the number of classes, the training-set size (`None` when
   * no training set is held) and the number of attributes used.
   */
  datatype Setup = Setup(
    mode: int,
    sd: real,
    classType: ClassType,
    numClasses: nat,
    trainSize: Option<nat>,
    numAttributesUsed: real)

  /** The running state of the vote: the slots and their running total. */
  datatype Tally = Tally(dist: seq<real>, total: real)

  /** The state after a prefix of the neighbours, or the index that aborted it. */
  datatype Accum = Running(tally: Tally) | Aborted(at: nat)

  /** The two ways makeDistribution ends abnormally. */
  datatype Fault =
    | NoClassAttribute   // the fatal Error "Data has no class attribute!"
    | NoTrainingSet      // a nominal class with no training set (a null dereference)

  /** The returned array (or the fault) and the caller's distances afterwards. */
  datatype Made = Made(result: Result<seq<real>, Fault>, distances: seq<real>)

  /** The Gaussian density can be evaluated without dividing by zero. */
  predicate GaussianDefined(ops: MathOps, sd: real) {
    sd != 0.0 && ops.sqrt(2.0 * ops.pi * sd * sd) != 0.0
  }

  /** What the real-valued model needs so that no step divides by zero. */
  predicate Usable(ops: MathOps, s: Setup) {
    s.numAttributesUsed > 0.0 && (s.mode == WEIGHT_GAUSSIAN ==> GaussianDefined(ops, s.sd))
  }

  /** gaussian(mean, sd, x): the normal density with the given mean and spread. */
  function Gaussian(ops: MathOps, mean: real, sd: real, x: real): real
    requires GaussianDefined(ops, sd)
  {
    assert sd * sd > 0.0 by {
      if sd < 0.0 { assert sd * sd == (-sd) * (-sd); }
    }
    ops.exp(-((x - mean) * (x - mean)) / (2.0 * sd * sd)) / ops.sqrt(2.0 * ops.pi * sd * sd)
  }

  /** The density is symmetric about its mean. */
  lemma GaussianSymmetric(ops: MathOps, mean: real, sd: real, d: real)
    requires GaussianDefined(ops, sd)
    ensures Gaussian(ops, mean, sd, mean + d) == Gaussian(ops, mean, sd, mean - d)
  {
    assert (mean + d - mean) * (mean + d - mean) == (mean - d - mean) * (mean - d - mean);
  }

  /** A raw distance rewritten as sqrt(d*d / numAttributesUsed). */
  function Adjust(ops: MathOps, raw: real, numAttributesUsed: real): real
    requires numAttributesUsed > 0.0
  {
    ops.sqrt(raw * raw / numAttributesUsed)
  }

  /** Every distance of `raw` rewritten. */
  function AdjustAll(ops: MathOps, raw: seq<real>, numAttributesUsed: real): (r: seq<real>)
    requires numAttributesUsed > 0.0
    ensures |r| == |raw|
    ensures forall k :: 0 <= k < |raw| ==> r[k] == Adjust(ops, raw[k], numAttributesUsed)
  {
    seq(|raw|, k requires 0 <= k < |raw| => Adjust(ops, raw[k], numAttributesUsed))
  }

  /** The weight the configured mode gives a rewritten distance `d`. */
  function Weight(ops: MathOps, mode: int, sd: real, d: real): real
    requires mode == WEIGHT_GAUSSIAN ==> GaussianDefined(ops, sd)
  {
    if mode == WEIGHT_LOG then -ops.ln(d + EPSILON)
    else if mode == WEIGHT_GAUSSIAN then Gaussian(ops, 0.0, sd, d)
    else -ops.ln(EPSILON)
  }

  /**
   * A mode that is neither WEIGHT_LOG nor WEIGHT_GAUSSIAN gives every
   * distance the same weight: the log weight of distance 0.
   */
  lemma FallbackWeightIgnoresDistance(ops: MathOps, mode: int, sd: real, d: real)
    requires mode != WEIGHT_LOG && mode != WEIGHT_GAUSSIAN
    ensures Weight(ops, mode, sd, d) == Weight(ops, WEIGHT_LOG, sd, 0.0) == -ops.ln(EPSILON)
  {
  }

  /** A neighbour's final vote: the mode's weight times its instance weight. */
  function VoteWeight(ops: MathOps, s: Setup, n: Neighbour, d: real): real
    requires Usable(ops, s)
  {
    Weight(ops, s.mode, s.sd, d) * n.weight
  }

  /** The slot of a nominal label, `(int) classValue`. */
  function Label(n: Neighbour): int
    requires n.classValue.Some?
  {
    JavaIntCast(n.classValue.value)
  }

  /**
   * The neighbour makes the vote abort when `slots` slots are allocated:
   * its class value cannot be read, or for a nominal class the label is out
   * of range, or for a numeric class there is no slot 0.
   */
  predicate Rejects(s: Setup, n: Neighbour, slots: nat) {
    match s.classType
    case Nominal => n.classValue.None? || !(0 <= Label(n) < slots)
    case Numeric => n.classValue.None? || slots == 0
    case OtherType => false
  }

  /** A neighbour's contribution to slot `k`, independent of the tally. */
  function Share(ops: MathOps, s: Setup, n: Neighbour, d: real, k: int): real
    requires Usable(ops, s)
  {
    match s.classType
    case Nominal =>
      if n.classValue.Some? && Label(n) == k then VoteWeight(ops, s, n, d) else 0.0
    case Numeric =>
      if n.classValue.Some? && k == 0 then n.classValue.value * VoteWeight(ops, s, n, d) else 0.0
    case OtherType => 0.0
  }

  /** The slots and total before any neighbour is counted (lines 443-452). */
  function Seed(s: Setup): (t: Tally)
    requires s.classType == Nominal ==> s.trainSize.Some?
    ensures |t.dist| == s.numClasses
    ensures s.classType == Nominal ==>
              var n := Max(1, s.trainSize.value) as real;
              (forall k :: 0 <= k < s.numClasses ==> t.dist[k] == 1.0 / n) &&
              t.total == s.numClasses as real / n
    ensures s.classType != Nominal ==>
              (forall k :: 0 <= k < s.numClasses ==> t.dist[k] == 0.0) && t.total == 0.0
  {
    if s.classType == Nominal then
      var n := Max(1, s.trainSize.value) as real;
      Tally(seq(s.numClasses, _ => 1.0 / n), s.numClasses as real / n)
    else
      Tally(seq(s.numClasses, _ => 0.0), 0.0)
  }

  /** Counting one neighbour at rewritten distance `d` (lines 460-484). */
  function Vote(ops: MathOps, s: Setup, n: Neighbour, d: real, t: Tally): (r: Option<Tally>)
    requires Usable(ops, s)
    ensures r.Some? <==> !Rejects(s, n, |t.dist|)
    ensures r.Some? ==> |r.value.dist| == |t.dist|
    ensures r.Some? ==> r.value.total == t.total + VoteWeight(ops, s, n, d)
    ensures r.Some? ==>
              forall k :: 0 <= k < |t.dist| ==> r.value.dist[k] == t.dist[k] + Share(ops, s, n, d, k)
  {
    var w := VoteWeight(ops, s, n, d);
    match s.classType
    case Nominal =>
      if n.classValue.None? || !(0 <= Label(n) < |t.dist|) then None
      else Some(Tally(t.dist[Label(n) := t.dist[Label(n)] + w], t.total + w))
    case Numeric =>
      if n.classValue.None? || |t.dist| == 0 then None
      else Some(Tally(t.dist[0 := t.dist[0] + n.classValue.value * w], t.total + w))
    case OtherType =>
      Some(Tally(t.dist, t.total + w))
  }

  /** Counting the neighbours `ns` in order, from `start` (lines 454-485). */
  function Run(ops: MathOps, s: Setup, ns: seq<Neighbour>, ds: seq<real>, start: Tally): (r: Accum)
    requires Usable(ops, s) && |ds| == |ns|
    ensures r.Aborted? ==> r.at < |ns|
    ensures r.Running? ==> |r.tally.dist| == |start.dist|
    decreases |ns|
  {
    if |ns| == 0 then Running(start)
    else
      var m := |ns| - 1;
      match Run(ops, s, ns[..m], ds[..m], start)
      case Aborted(at) => Aborted(at)
      case Running(t) =>
        match Vote(ops, s, ns[m], ds[m], t)
        case None => Aborted(m)
        case Some(t') => Running(t')
  }

  /** Utils.normalize, applied only when the total is positive (lines 487-490). */
  function Normalize(t: Tally): (r: seq<real>)
    ensures |r| == |t.dist|
    ensures t.total > 0.0 ==> forall k :: 0 <= k < |r| ==> r[k] * t.total == t.dist[k]
    ensures t.total <= 0.0 ==> r == t.dist
  {
    if t.total > 0.0 then Divided(t.dist, t.total) else t.dist
  }

  /**
   * makeDistribution(neighbours, distances): the result and the caller's
   * distances afterwards. The distances of the counted neighbours are
   * rewritten, including the one that makes the vote abort.
   */
  function Distribution(ops: MathOps, s: Setup, ns: seq<Neighbour>, raw: seq<real>): Made
    requires Usable(ops, s) && |ns| <= |raw|
  {
    if s.classType == Nominal && s.trainSize.None? then Made(Failure(NoTrainingSet), raw)
    else
      var ds := AdjustAll(ops, raw[..|ns|], s.numAttributesUsed);
      match Run(ops, s, ns, ds, Seed(s))
      case Aborted(at) => Made(Failure(NoClassAttribute), ds[..at + 1] + raw[at + 1..])
      case Running(t) => Made(Success(Normalize(t)), ds + raw[|ns|..])
  }

  // ---------------------------------------------------------------------
  // Reference sums the vote is compared with.

  /** The sum of every neighbour's vote. */
  function TotalWeight(ops: MathOps, s: Setup, ns: seq<Neighbour>, ds: seq<real>): real
    requires Usable(ops, s) && |ds| == |ns|
    decreases |ns|
  {
    if |ns| == 0 then 0.0
    else
      var m := |ns| - 1;
      TotalWeight(ops, s, ns[..m], ds[..m]) + VoteWeight(ops, s, ns[m], ds[m])
  }

  /** The sum of every neighbour's share of slot `k`. */
  function SlotVotes(ops: MathOps, s: Setup, ns: seq<Neighbour>, ds: seq<real>, k: int): real
    requires Usable(ops, s) && |ds| == |ns|
    decreases |ns|
  {
    if |ns| == 0 then 0.0
    else
      var m := |ns| - 1;
      SlotVotes(ops, s, ns[..m], ds[..m], k) + Share(ops, s, ns[m], ds[m], k)
  }

  // ---------------------------------------------------------------------
  // Properties.

  /** The nominal prior is balanced: its slots add up to its total. */
  lemma SeedBalanced(s: Setup)
    requires s.classType == Nominal ==> s.trainSize.Some?
    ensures Sum(Seed(s).dist) == Seed(s).total
  {
    var n := if s.classType == Nominal then Max(1, s.trainSize.value) as real else 1.0;
    var c := if s.classType == Nominal then 1.0 / n else 0.0;
    assert Seed(s).dist == seq(s.numClasses, _ => c);
    SumConstant(s.numClasses, c);
    assert s.numClasses as real * (1.0 / n) == s.numClasses as real / n;
  }

  /** A nominal neighbour with a label in range adds its vote `w` to that slot. */
  lemma VoteNominal(ops: MathOps, s: Setup, n: Neighbour, d: real, t: Tally, w: real)
    requires Usable(ops, s) && s.classType == Nominal && n.classValue.Some? && 0 <= Label(n) < |t.dist|
    requires w == VoteWeight(ops, s, n, d)
    ensures Vote(ops, s, n, d, t) == Some(Tally(t.dist[Label(n) := t.dist[Label(n)] + w], t.total + w))
  {
  }

  /** A numeric neighbour adds its value times its vote `w` to slot 0. */
  lemma VoteNumeric(ops: MathOps, s: Setup, n: Neighbour, d: real, t: Tally, w: real)
    requires Usable(ops, s) && s.classType == Numeric && n.classValue.Some? && 0 < |t.dist|
    requires w == VoteWeight(ops, s, n, d)
    ensures Vote(ops, s, n, d, t) == Some(Tally(t.dist[0 := t.dist[0] + n.classValue.value * w], t.total + w))
  {
    var r := Vote(ops, s, n, d, t);
    var u := t.dist[0 := t.dist[0] + n.classValue.value * w];
    forall k | 0 <= k < |t.dist|
      ensures r.value.dist[k] == u[k]
    {
      assert r.value.dist[k] == t.dist[k] + Share(ops, s, n, d, k);
    }
    assert r.value.dist == u;
  }

  /** For any other class type only the total grows, by the vote `w`. */
  lemma VoteOther(ops: MathOps, s: Setup, n: Neighbour, d: real, t: Tally, w: real)
    requires Usable(ops, s) && s.classType == OtherType
    requires w == VoteWeight(ops, s, n, d)
    ensures Vote(ops, s, n, d, t) == Some(Tally(t.dist, t.total + w))
  {
  }

  /** Counting one more neighbour: the prefix of length `i + 1` from the prefix of length `i`. */
  lemma RunStep(ops: MathOps, s: Setup, ns: seq<Neighbour>, ds: seq<real>, start: Tally, i: nat)
    requires Usable(ops, s) && |ds| == |ns| && i < |ns|
    ensures Run(ops, s, ns[..i + 1], ds[..i + 1], start) ==
              match Run(ops, s, ns[..i], ds[..i], start)
              case Aborted(at) => Aborted(at)
              case Running(t) =>
                match Vote(ops, s, ns[i], ds[i], t)
                case None => Aborted(i)
                case Some(t') => Running(t')
  {
    assert ns[..i + 1][..i] == ns[..i] && ds[..i + 1][..i] == ds[..i];
    assert ns[..i + 1][i] == ns[i] && ds[..i + 1][i] == ds[i];
  }

  /** Once the vote aborts, counting more neighbours keeps it aborted at the same index. */
  lemma {:induction false} RunAbortSticks(ops: MathOps, s: Setup, ns: seq<Neighbour>, ds: seq<real>,
                                          start: Tally, j: nat)
    requires Usable(ops, s) && |ds| == |ns| && j <= |ns|
    requires Run(ops, s, ns[..j], ds[..j], start).Aborted?
    ensures Run(ops, s, ns, ds, start) == Run(ops, s, ns[..j], ds[..j], start)
    decreases |ns| - j
  {
    if j < |ns| {
      var m := |ns| - 1;
      assert ns[..m][..j] == ns[..j] && ds[..m][..j] == ds[..j];
      RunAbortSticks(ops, s, ns[..m], ds[..m], start, j);
    } else {
      assert ns[..j] == ns && ds[..j] == ds;
    }
  }

  /**
   * The vote aborts exactly at the first neighbour it rejects, and runs to
   * the end exactly when no neighbour is rejected.
   */
  lemma {:induction false} RunAbortsAtFirstRejected(ops: MathOps, s: Setup, ns: seq<Neighbour>,
                                                    ds: seq<real>, start: Tally)
    requires Usable(ops, s) && |ds| == |ns|
    ensures Run(ops, s, ns, ds, start).Running? <==>
              forall i :: 0 <= i < |ns| ==> !Rejects(s, ns[i], |start.dist|)
    ensures forall at: nat :: Run(ops, s, ns, ds, start) == Aborted(at) <==>
              at < |ns| && Rejects(s, ns[at], |start.dist|) &&
              forall i :: 0 <= i < at ==> !Rejects(s, ns[i], |start.dist|)
    decreases |ns|
  {
    if |ns| > 0 {
      var m := |ns| - 1;
      RunAbortsAtFirstRejected(ops, s, ns[..m], ds[..m], start);
      assert forall i :: 0 <= i < m ==> ns[..m][i] == ns[i];
      var prefix := Run(ops, s, ns[..m], ds[..m], start);
      if prefix.Running? {
        // Every earlier neighbour was counted; the last one decides.
        assert forall i :: 0 <= i < m ==> !Rejects(s, ns[i], |start.dist|);
        assert |prefix.tally.dist| == |start.dist|;
        assert Run(ops, s, ns, ds, start).Running? <==> !Rejects(s, ns[m], |start.dist|);
      } else {
        // The abort happened within the prefix and stays.
        assert Run(ops, s, ns, ds, start) == prefix;
        assert prefix.at < m && Rejects(s, ns[prefix.at], |start.dist|);
      }
    }
  }

  /**
   * When the vote runs to the end, every slot holds its seed plus the
   * shares of the neighbours that vote for it, and the total holds its
   * seed plus every vote.
   */
  lemma {:induction false} RunTallies(ops: MathOps, s: Setup, ns: seq<Neighbour>, ds: seq<real>, start: Tally)
    requires Usable(ops, s) && |ds| == |ns|
    requires Run(ops, s, ns, ds, start).Running?
    ensures var t := Run(ops, s, ns, ds, start).tally;
            t.total == start.total + TotalWeight(ops, s, ns, ds) &&
            forall k :: 0 <= k < |start.dist| ==> t.dist[k] == start.dist[k] + SlotVotes(ops, s, ns, ds, k)
    decreases |ns|
  {
    if |ns| > 0 {
      var m := |ns| - 1;
      RunTallies(ops, s, ns[..m], ds[..m], start);
    }
  }

  /** For a nominal class every vote keeps the slots adding up to the total. */
  lemma {:induction false} RunKeepsBalance(ops: MathOps, s: Setup, ns: seq<Neighbour>, ds: seq<real>, start: Tally)
    requires Usable(ops, s) && |ds| == |ns| && s.classType == Nominal
    requires Sum(start.dist) == start.total
    requires Run(ops, s, ns, ds, start).Running?
    ensures Sum(Run(ops, s, ns, ds, start).tally.dist) == Run(ops, s, ns, ds, start).tally.total
    decreases |ns|
  {
    if |ns| > 0 {
      var m := |ns| - 1;
      RunKeepsBalance(ops, s, ns[..m], ds[..m], start);
      var t := Run(ops, s, ns[..m], ds[..m], start).tally;
      var n := ns[m];
      SumUpdate(t.dist, Label(n), VoteWeight(ops, s, n, ds[m]));
    }
  }

  /** A balanced tally with a positive total normalises to slots that add up to 1. */
  lemma NormalizeSumsToOne(t: Tally)
    requires Sum(t.dist) == t.total && t.total > 0.0
    ensures Sum(Normalize(t)) == 1.0
  {
    SumDivided(t.dist, t.total);
  }

  /**
   * For a nominal class with a training set and every label in range, a
   * distribution is returned, and it either adds up to 1 (the total was
   * positive and it was normalised) or is the raw tally, whose slots add up
   * to a total that is not positive.
   */
  lemma NominalDistributionSumsToOne(ops: MathOps, s: Setup, ns: seq<Neighbour>, raw: seq<real>)
    requires Usable(ops, s) && |ns| <= |raw| && s.classType == Nominal && s.trainSize.Some?
    requires forall i :: 0 <= i < |ns| ==> ns[i].classValue.Some? && 0 <= Label(ns[i]) < s.numClasses
    ensures Distribution(ops, s, ns, raw).result.Success?
    ensures var r := Distribution(ops, s, ns, raw).result.value;
            |r| == s.numClasses && (Sum(r) == 1.0 || Sum(r) <= 0.0)
  {
    var ds := AdjustAll(ops, raw[..|ns|], s.numAttributesUsed);
    RunAbortsAtFirstRejected(ops, s, ns, ds, Seed(s));
    SeedBalanced(s);
    RunKeepsBalance(ops, s, ns, ds, Seed(s));
    var t := Run(ops, s, ns, ds, Seed(s)).tally;
    if t.total > 0.0 {
      NormalizeSumsToOne(t);
    }
  }

  /**
   * The distances of the neighbours are rewritten and nothing past them
   * changes; when the vote aborts at neighbour `at`, the distances up to and
   * including `at` are rewritten.
   */
  lemma DistancesRewritten(ops: MathOps, s: Setup, ns: seq<Neighbour>, raw: seq<real>)
    requires Usable(ops, s) && |ns| <= |raw|
    ensures var after := Distribution(ops, s, ns, raw).distances;
            var done := match Distribution(ops, s, ns, raw).result
                        case Success(_) => |ns|
                        case Failure(NoTrainingSet) => 0
                        case Failure(NoClassAttribute) =>
                          Run(ops, s, ns, AdjustAll(ops, raw[..|ns|], s.numAttributesUsed), Seed(s)).at + 1;
            done <= |ns| && |after| == |raw| &&
            (forall k :: 0 <= k < done ==> after[k] == Adjust(ops, raw[k], s.numAttributesUsed)) &&
            (forall k :: done <= k < |raw| ==> after[k] == raw[k])
  {
  }

  /**
   * A numeric class with two neighbours of values 10 and 20 at the same
   * distance and with the same instance weight predicts their mean, 15,
   * whenever that common vote is positive.
   */
  lemma NumericMeanOfTwo(ops: MathOps, s: Setup, w: real, raw: seq<real>)
    requires Usable(ops, s) && s.classType == Numeric && s.numClasses == 1
    requires |raw| >= 2 && raw[0] == raw[1]
    requires VoteWeight(ops, s, Neighbour(Some(10.0), w), Adjust(ops, raw[0], s.numAttributesUsed)) > 0.0
    ensures Distribution(ops, s, [Neighbour(Some(10.0), w), Neighbour(Some(20.0), w)], raw).result
            == Success([15.0])
  {
    var ns := [Neighbour(Some(10.0), w), Neighbour(Some(20.0), w)];
    var ds := AdjustAll(ops, raw[..2], s.numAttributesUsed);
    var v := VoteWeight(ops, s, ns[0], ds[0]);
    assert VoteWeight(ops, s, ns[1], ds[1]) == v;
    assert ns[..1] == [ns[0]] && ds[..1] == [ds[0]];
    assert [ns[0]][..0] == [] && [ds[0]][..0] == [];
    var t0 := Seed(s);
    assert t0 == Tally([0.0], 0.0);
    var t1 := Tally([0.0 + 10.0 * v], 0.0 + v);
    assert Run(ops, s, ns[..0], ds[..0], t0) == Running(t0);
    assert Run(ops, s, ns[..1], ds[..1], t0) == Running(t1);
    var t := Tally([0.0 + 10.0 * v + 20.0 * v], 0.0 + v + v);
    assert Run(ops, s, ns, ds, t0) == Running(t);
    assert (0.0 + 10.0 * v + 20.0 * v) / (0.0 + v + v) == 15.0;
    assert Normalize(t) == [15.0];
  }
}
