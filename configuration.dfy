/**
 * The configuration surface of IBkLG: the settings it keeps, the option
 * list setOptions reads and getOptions writes, and the tag guard of
 * setDistanceWeighting.
 *
 * An option list is a sequence of tokens. A flag token `-c` is `Flag(c)`;
 * an argument is a word, an integer literal or a decimal literal. A token
 * that has been read is overwritten with the empty word, as Weka's option
 * helpers do.
 */
module Configuration {
  import opened Wrappers
  import opened Numerics
  import opened WeightedVote

  datatype Token = Flag(name: char) | Word(text: string) | IntLit(i: int) | RealLit(r: real)

  /** The empty string: an absent option's value, and what a read token becomes. */
  const BLANK: Token := Word("")

  /** The default nearest-neighbour search of the -A option. */
  const LINEAR_NN_SEARCH: string := "weka.core.neighboursearch.LinearNNSearch"

  /** Why setOptions throws. */
  datatype OptionError =
    | NoValueGiven(flag: char)       // a value option is the last token
    | NumberFormat(value: Token)     // Integer.parseInt / Float.parseFloat refused the value
    | InvalidSearchSpec(value: Token) // the -A value holds nothing but white space
    | UnknownSearchClass(value: Token) // a number cannot be the class name Utils.forName looks up

  /** The tag set a SelectedTag is drawn from; only identity matters. */
  datatype TagSet = TagsWeightingLG | OtherTags(id: nat)

  /** The weighting modes TAGS_WEIGHTING_LG lists. */
  predicate KnownWeighting(mode: int) {
    mode == WEIGHT_LOG || mode == WEIGHT_GAUSSIAN
  }

  datatype TagChoice = TagChoice(id: int, tags: TagSet)

  /**
   * new SelectedTag(id, tags): the constructor refuses an id its tag set
   * does not list. Only the ids of TAGS_WEIGHTING_LG are known here.
   */
  type SelectedTag = t: TagChoice | t.tags == TagsWeightingLG ==> KnownWeighting(t.id)
    witness TagChoice(WEIGHT_LOG, TagsWeightingLG)

  /** The settings IBkLG reads and writes through its options. */
  datatype Config = Config(
    kNN: Int32,
    windowSize: Int32,
    mode: int,
    sd: real,
    crossValidate: bool,
    meanSquared: bool,
    nnSearch: string)

  /** A configuration after (part of) setOptions, and the tokens left or the error raised. */
  datatype Applied = Applied(config: Config, rest: Result<seq<Token>, OptionError>)

  /** `rest` is `opts` with some tokens blanked, and every token `t` kept. */
  predicate Keeps(opts: seq<Token>, rest: seq<Token>, t: Token) {
    |rest| == |opts| &&
    forall k :: 0 <= k < |opts| && opts[k] == t ==> rest[k] == t
  }

  /** Every token of `rest` is the one of `opts` or was blanked. */
  predicate OnlyBlanks(opts: seq<Token>, rest: seq<Token>) {
    |rest| == |opts| &&
    forall k :: 0 <= k < |opts| ==> rest[k] == opts[k] || rest[k] == BLANK
  }

  // ---------------------------------------------------------------------
  // The option helpers (Weka's Utils.getOption and Utils.getFlag).

  /** The position of the first `-c`. */
  function FindFlag(c: char, opts: seq<Token>): (r: Option<nat>)
    ensures r.None? <==> Flag(c) !in opts
    ensures r.Some? ==> r.value < |opts| && opts[r.value] == Flag(c) && Flag(c) !in opts[..r.value]
  {
    if |opts| == 0 then None
    else if opts[0] == Flag(c) then Some(0)
    else
      match FindFlag(c, opts[1..])
      case None => None
      case Some(i) =>
        assert opts[..i + 1] == [opts[0]] + opts[1..][..i];
        Some(i + 1)
  }

  /**
   * The value that follows the first `-c`, with both blanked; the empty
   * word when there is no `-c`; an error when `-c` is the last token.
   */
  function GetOption(c: char, opts: seq<Token>): (r: Result<(Token, seq<Token>), OptionError>)
    ensures Flag(c) !in opts ==> r == Success((BLANK, opts))
    ensures r.Failure? <==> Flag(c) in opts && FindFlag(c, opts).value == |opts| - 1
    ensures r.Failure? ==> r.error == NoValueGiven(c)
    ensures r.Success? ==> OnlyBlanks(opts, r.value.1)
    ensures r.Success? ==> forall k :: 0 <= k < |opts| && r.value.1[k] != opts[k] ==>
                             opts[k] == Flag(c) || opts[k] == r.value.0
    ensures r.Success? && Flag(c) in opts ==>
              var i := FindFlag(c, opts).value;
              r.value.0 == opts[i + 1] && r.value.1 == opts[i := BLANK][i + 1 := BLANK]
  {
    match FindFlag(c, opts)
    case None => Success((BLANK, opts))
    case Some(i) =>
      if i + 1 == |opts| then Failure(NoValueGiven(c))
      else Success((opts[i + 1], opts[i := BLANK][i + 1 := BLANK]))
  }

  /** Whether `-c` is present; the first `-c` is blanked. */
  function GetFlag(c: char, opts: seq<Token>): (r: (bool, seq<Token>))
    ensures r.0 <==> Flag(c) in opts
    ensures !r.0 ==> r.1 == opts
    ensures OnlyBlanks(opts, r.1)
    ensures forall k :: 0 <= k < |opts| && r.1[k] != opts[k] ==> opts[k] == Flag(c)
    ensures r.0 ==> r.1 == opts[FindFlag(c, opts).value := BLANK]
  {
    match FindFlag(c, opts)
    case None => (false, opts)
    case Some(i) => (true, opts[i := BLANK])
  }

  /** Integer.parseInt: only an integer literal within the `int` range. */
  function ParseInt(t: Token): (r: Option<Int32>)
    ensures r.Some? <==> t.IntLit? && INT_MIN <= t.i <= INT_MAX
    ensures r.Some? ==> r.value == t.i
  {
    if t.IntLit? && INT_MIN <= t.i <= INT_MAX then Some(t.i) else None
  }

  /** Character.isWhitespace, for the characters below U+0080. */
  predicate IsWhiteSpace(ch: char) {
    ch == ' ' || 9 <= ch as int <= 13 || 28 <= ch as int <= 31
  }

  /** Utils.splitOptions finds no option in `s`: it holds nothing but white space. */
  predicate WhiteSpaceOnly(s: string) {
    forall k :: 0 <= k < |s| ==> IsWhiteSpace(s[k])
  }

  /** Float.parseFloat: an integer or a decimal literal (precision loss is not modelled). */
  function ParseFloat(t: Token): (r: Option<real>)
    ensures r.Some? <==> t.IntLit? || t.RealLit?
    ensures t.IntLit? ==> r == Some(t.i as real)
    ensures t.RealLit? ==> r == Some(t.r)
  {
    match t
    case IntLit(i) => Some(i as real)
    case RealLit(x) => Some(x)
    case _ => None
  }

  // ---------------------------------------------------------------------
  // setDistanceWeighting and setOptions.

  /** setDistanceWeighting: the new mode, or the current one unless the tag is from TAGS_WEIGHTING_LG. */
  function SelectWeighting(current: int, t: SelectedTag): (m: int)
    ensures t.tags == TagsWeightingLG ==> m == t.id
    ensures t.tags != TagsWeightingLG ==> m == current
    ensures t.tags == TagsWeightingLG || KnownWeighting(current) ==> KnownWeighting(m)
  {
    if t.tags == TagsWeightingLG then t.id else current
  }

  /** -K: the neighbour count, 1 when absent (lines 303-308). */
  function ReadKnn(c: Config, opts: seq<Token>): (a: Applied)
    ensures Flag('K') !in opts ==> a == Applied(c.(kNN := 1), Success(opts))
    ensures a.rest.Success? && Flag('K') in opts ==>
              FindFlag('K', opts).value + 1 < |opts| &&
              var v := opts[FindFlag('K', opts).value + 1];
              (v == BLANK && a.config.kNN == 1) || (v.IntLit? && a.config.kNN == v.i)
    ensures a.config == c || a.config == c.(kNN := a.config.kNN)
    ensures a.rest.Success? ==> forall t: Token :: t.Flag? && t != Flag('K') ==> Keeps(opts, a.rest.value, t)
    ensures Flag('K') in opts ==>
              var i := FindFlag('K', opts).value;
              (a.rest.Failure? <==> i + 1 == |opts| || (opts[i + 1] != BLANK && ParseInt(opts[i + 1]).None?)) &&
              (a.rest.Success? ==>
                 a.rest.value == opts[i := BLANK][i + 1 := BLANK] &&
                 a.config == c.(kNN := if opts[i + 1] == BLANK then 1 else opts[i + 1].i)) &&
              (a.rest.Failure? ==>
                 a.config == c &&
                 a.rest.error == if i + 1 == |opts| then NoValueGiven('K') else NumberFormat(opts[i + 1]))
  {
    match GetOption('K', opts)
    case Failure(e) => Applied(c, Failure(e))
    case Success((v, rest)) =>
      if v == BLANK then Applied(c.(kNN := 1), Success(rest))
      else
        match ParseInt(v)
        case None => Applied(c, Failure(NumberFormat(v)))
        case Some(k) => Applied(c.(kNN := k), Success(rest))
  }

  /** -W: the window size, 0 when absent (lines 309-314). */
  function ReadWindow(c: Config, opts: seq<Token>): (a: Applied)
    ensures Flag('W') !in opts ==> a == Applied(c.(windowSize := 0), Success(opts))
    ensures a.rest.Success? && Flag('W') in opts ==>
              FindFlag('W', opts).value + 1 < |opts| &&
              var v := opts[FindFlag('W', opts).value + 1];
              (v == BLANK && a.config.windowSize == 0) || (v.IntLit? && a.config.windowSize == v.i)
    ensures a.config == c || a.config == c.(windowSize := a.config.windowSize)
    ensures a.rest.Success? ==> forall t: Token :: t.Flag? && t != Flag('W') ==> Keeps(opts, a.rest.value, t)
    ensures Flag('W') in opts ==>
              var i := FindFlag('W', opts).value;
              (a.rest.Failure? <==> i + 1 == |opts| || (opts[i + 1] != BLANK && ParseInt(opts[i + 1]).None?)) &&
              (a.rest.Success? ==>
                 a.rest.value == opts[i := BLANK][i + 1 := BLANK] &&
                 a.config == c.(windowSize := if opts[i + 1] == BLANK then 0 else opts[i + 1].i)) &&
              (a.rest.Failure? ==>
                 a.config == c &&
                 a.rest.error == if i + 1 == |opts| then NoValueGiven('W') else NumberFormat(opts[i + 1]))
  {
    match GetOption('W', opts)
    case Failure(e) => Applied(c, Failure(e))
    case Success((v, rest)) =>
      if v == BLANK then Applied(c.(windowSize := 0), Success(rest))
      else
        match ParseInt(v)
        case None => Applied(c, Failure(NumberFormat(v)))
        case Some(w) => Applied(c.(windowSize := w), Success(rest))
  }

  /**
   * -L, -G and -S (lines 315-323): -L wins over -G, neither means log
   * weighting, and -S is read only under -G, after the mode has been set.
   */
  function ReadWeighting(c: Config, opts: seq<Token>): (a: Applied)
    ensures Flag('L') in opts ==>
              a.config == c.(mode := WEIGHT_LOG) && a.rest.Success? &&
              forall t :: t != Flag('L') ==> Keeps(opts, a.rest.value, t)
    ensures Flag('L') !in opts && Flag('G') !in opts ==>
              a == Applied(c.(mode := WEIGHT_LOG), Success(opts))
    ensures Flag('L') !in opts && Flag('G') in opts ==>
              a.config.mode == WEIGHT_GAUSSIAN &&
              (a.rest.Success? ==>
                 Flag('S') in opts && FindFlag('S', opts).value + 1 < |opts| &&
                 ParseFloat(opts[FindFlag('S', opts).value + 1]) == Some(a.config.sd)) &&
              (a.config == c.(mode := WEIGHT_GAUSSIAN) || a.config == c.(mode := WEIGHT_GAUSSIAN, sd := a.config.sd))
    ensures KnownWeighting(a.config.mode)
    ensures Flag('L') in opts ==> a.rest.value == opts[FindFlag('L', opts).value := BLANK]
    ensures Flag('L') !in opts && Flag('G') in opts ==>
              var o := opts[FindFlag('G', opts).value := BLANK];
              var j := FindFlag('S', o);
              (a.rest.Failure? <==> j.None? || j.value + 1 == |o| || ParseFloat(o[j.value + 1]).None?) &&
              (a.rest.Success? ==>
                 a.config == c.(mode := WEIGHT_GAUSSIAN, sd := ParseFloat(o[j.value + 1]).value) &&
                 a.rest.value == o[j.value := BLANK][j.value + 1 := BLANK]) &&
              (a.rest.Failure? ==>
                 a.config == c.(mode := WEIGHT_GAUSSIAN) &&
                 a.rest.error == if j.None? then NumberFormat(BLANK)
                                 else if j.value + 1 == |o| then NoValueGiven('S')
                                 else NumberFormat(o[j.value + 1]))
  {
    var (isLog, o1) := GetFlag('L', opts);
    if isLog then
      Applied(c.(mode := SelectWeighting(c.mode, TagChoice(WEIGHT_LOG, TagsWeightingLG))), Success(o1))
    else
      var (isGaussian, o2) := GetFlag('G', o1);
      if isGaussian then
        var c1 := c.(mode := SelectWeighting(c.mode, TagChoice(WEIGHT_GAUSSIAN, TagsWeightingLG)));
        match GetOption('S', o2)
        case Failure(e) => Applied(c1, Failure(e))
        case Success((v, o3)) =>
          match ParseFloat(v)
          case None => Applied(c1, Failure(NumberFormat(v)))
          case Some(x) => Applied(c1.(sd := x), Success(o3))
      else
        Applied(c.(mode := SelectWeighting(c.mode, TagChoice(WEIGHT_LOG, TagsWeightingLG))), Success(o1))
  }

  /** -X and -E: each is on exactly when its flag is present (lines 324-325). */
  function ReadFlags(c: Config, opts: seq<Token>): (a: Applied)
    ensures a.config == c.(crossValidate := Flag('X') in opts, meanSquared := Flag('E') in opts)
    ensures a.rest.Success? && OnlyBlanks(opts, a.rest.value)
    ensures forall t :: t != Flag('X') && t != Flag('E') ==> Keeps(opts, a.rest.value, t)
  {
    var (x, o1) := GetFlag('X', opts);
    var (e, o2) := GetFlag('E', o1);
    Applied(c.(crossValidate := x, meanSquared := e), Success(o2))
  }

  /** -A: the search specification, the linear search when absent (lines 327-344). */
  function ReadSearch(c: Config, opts: seq<Token>): (a: Applied)
    ensures Flag('A') !in opts ==> a == Applied(c.(nnSearch := LINEAR_NN_SEARCH), Success(opts))
    ensures a.rest.Success? ==> !WhiteSpaceOnly(a.config.nnSearch)
    ensures a.config == c || a.config == c.(nnSearch := a.config.nnSearch)
    ensures a.rest.Success? ==> forall t: Token :: t.Flag? && t != Flag('A') ==> Keeps(opts, a.rest.value, t)
    ensures Flag('A') in opts ==>
              var i := FindFlag('A', opts).value;
              (a.rest.Failure? <==>
                 i + 1 == |opts| || (opts[i + 1] != BLANK && !(opts[i + 1].Word? && !WhiteSpaceOnly(opts[i + 1].text)))) &&
              (a.rest.Success? ==>
                 a.rest.value == opts[i := BLANK][i + 1 := BLANK] &&
                 a.config == c.(nnSearch := if opts[i + 1] == BLANK then LINEAR_NN_SEARCH else opts[i + 1].text)) &&
              (a.rest.Failure? ==>
                 a.config == c &&
                 a.rest.error == if i + 1 == |opts| then NoValueGiven('A')
                                 else if opts[i + 1].Word? then InvalidSearchSpec(opts[i + 1])
                                 else UnknownSearchClass(opts[i + 1]))
  {
    match GetOption('A', opts)
    case Failure(e) => Applied(c, Failure(e))
    case Success((v, rest)) =>
      if v == BLANK then
        assert !IsWhiteSpace(LINEAR_NN_SEARCH[0]);
        Applied(c.(nnSearch := LINEAR_NN_SEARCH), Success(rest))
      else if v.Word? && !WhiteSpaceOnly(v.text) then Applied(c.(nnSearch := v.text), Success(rest))
      else if v.Word? then Applied(c, Failure(InvalidSearchSpec(v)))
      else Applied(c, Failure(UnknownSearchClass(v)))
  }

  /**
   * setOptions, as far as IBkLG reads the options itself: the stages in
   * order, each applied to the configuration the previous stage left; the
   * first error stops it with the earlier settings already applied.
   */
  function ApplyOptions(c: Config, opts: seq<Token>): Applied {
    var a1 := ReadKnn(c, opts);
    if a1.rest.Failure? then a1 else
    var a2 := ReadWindow(a1.config, a1.rest.value);
    if a2.rest.Failure? then a2 else
    ApplyLaterOptions(a2.config, a2.rest.value)
  }

  /** The stages after -K and -W: the weighting, the switches and the search. */
  function ApplyLaterOptions(c: Config, opts: seq<Token>): Applied {
    var a3 := ReadWeighting(c, opts);
    if a3.rest.Failure? then a3 else
    var a4 := ReadFlags(a3.config, a3.rest.value);
    ReadSearch(a4.config, a4.rest.value)
  }

  // ---------------------------------------------------------------------
  // getOptions.

  /** The -X and -E flags getOptions writes for `c`. */
  function SwitchFlags(c: Config): (r: seq<Token>)
    ensures Flag('X') in r <==> c.crossValidate
    ensures Flag('E') in r <==> c.meanSquared
    ensures forall t :: t in r ==> t == Flag('X') || t == Flag('E')
  {
    (if c.crossValidate then [Flag('X')] else []) + (if c.meanSquared then [Flag('E')] else [])
  }

  /** The weighting flag getOptions writes for `c`: -L, -G or nothing. */
  function WeightingFlag(c: Config): (r: seq<Token>)
    ensures Flag('L') in r <==> c.mode == WEIGHT_LOG
    ensures Flag('G') in r <==> c.mode == WEIGHT_GAUSSIAN
    ensures |r| <= 1 && forall t :: t in r ==> t == Flag('L') || t == Flag('G')
  {
    if c.mode == WEIGHT_LOG then [Flag('L')] else if c.mode == WEIGHT_GAUSSIAN then [Flag('G')] else []
  }

  /** getOptions, as far as IBkLG writes the options itself (lines 356-376). */
  function OptionsOf(c: Config): (r: seq<Token>)
    ensures 8 <= |r| <= 11
    ensures r[0] == Flag('K') && r[1] == IntLit(c.kNN)
    ensures r[2] == Flag('W') && r[3] == IntLit(c.windowSize)
    ensures r[4] == Flag('S') && r[5] == RealLit(c.sd)
    ensures r[|r| - 2] == Flag('A') && r[|r| - 1] == Word(c.nnSearch)
  {
    [Flag('K'), IntLit(c.kNN)] + ([Flag('W'), IntLit(c.windowSize)] +
      ([Flag('S'), RealLit(c.sd)] + SwitchFlags(c) + WeightingFlag(c) + [Flag('A'), Word(c.nnSearch)]))
  }

  /** getOptions writes -X, -E, -L and -G exactly when the setting asks for them. */
  lemma OptionsOfFlags(c: Config)
    ensures Flag('X') in OptionsOf(c) <==> c.crossValidate
    ensures Flag('E') in OptionsOf(c) <==> c.meanSquared
    ensures Flag('L') in OptionsOf(c) <==> c.mode == WEIGHT_LOG
    ensures Flag('G') in OptionsOf(c) <==> c.mode == WEIGHT_GAUSSIAN
  {
    var fixed := [Flag('K'), IntLit(c.kNN), Flag('W'), IntLit(c.windowSize), Flag('S'), RealLit(c.sd)];
    var mid := SwitchFlags(c) + WeightingFlag(c);
    var tail := [Flag('A'), Word(c.nnSearch)];
    var r := OptionsOf(c);
    assert r == fixed + mid + tail;
    forall f | f in "XELG" ensures Flag(f) in r <==> Flag(f) in mid {
      assert Flag(f) !in fixed && Flag(f) !in tail;
    }
  }

  // ---------------------------------------------------------------------
  // Properties.

  /** Whenever setOptions gets past the weighting options, the mode is WEIGHT_LOG or WEIGHT_GAUSSIAN. */
  lemma ApplyOptionsPicksKnownMode(c: Config, opts: seq<Token>)
    requires ApplyOptions(c, opts).rest.Success?
    ensures ApplyOptions(c, opts).config.mode == WEIGHT_LOG || ApplyOptions(c, opts).config.mode == WEIGHT_GAUSSIAN
  {
    var a1 := ReadKnn(c, opts);
    var a2 := ReadWindow(a1.config, a1.rest.value);
    var a3 := ReadWeighting(a2.config, a2.rest.value);
    var a4 := ReadFlags(a3.config, a3.rest.value);
    assert a4.config.mode == a3.config.mode;
  }

  /**
   * setOptions leaves a known weighting mode known, and always leaves one
   * when it gets through: the mode is the old one or one it selected.
   */
  lemma ApplyOptionsKeepsKnownWeighting(c: Config, opts: seq<Token>)
    ensures var m := ApplyOptions(c, opts).config.mode;
            m == c.mode || KnownWeighting(m)
    ensures ApplyOptions(c, opts).rest.Success? || KnownWeighting(c.mode) ==>
              KnownWeighting(ApplyOptions(c, opts).config.mode)
  {
    var a1 := ReadKnn(c, opts);
    if a1.rest.Success? {
      var a2 := ReadWindow(a1.config, a1.rest.value);
      if a2.rest.Success? {
        var a3 := ReadWeighting(a2.config, a2.rest.value);
        if a3.rest.Success? {
          var a4 := ReadFlags(a3.config, a3.rest.value);
          assert a4.config.mode == a3.config.mode;
        }
      }
    }
  }

  /**
   * When setOptions ends in log mode, the spread keeps its old value and
   * every -S token is still in the list it leaves.
   */
  lemma SpreadUnreadUnlessGaussian(c: Config, opts: seq<Token>)
    requires ApplyOptions(c, opts).rest.Success?
    requires ApplyOptions(c, opts).config.mode == WEIGHT_LOG
    ensures ApplyOptions(c, opts).config.sd == c.sd
    ensures Keeps(opts, ApplyOptions(c, opts).rest.value, Flag('S'))
  {
    var a1 := ReadKnn(c, opts);
    var a2 := ReadWindow(a1.config, a1.rest.value);
    var a3 := ReadWeighting(a2.config, a2.rest.value);
    var a4 := ReadFlags(a3.config, a3.rest.value);
    var a5 := ReadSearch(a4.config, a4.rest.value);
    assert a3.config.mode == WEIGHT_LOG;
    assert Flag('L') in a2.rest.value || Flag('G') !in a2.rest.value;
    assert a3.config.sd == c.sd;
    assert Keeps(opts, a1.rest.value, Flag('S'));
    assert Keeps(a1.rest.value, a2.rest.value, Flag('S'));
    assert Keeps(a2.rest.value, a3.rest.value, Flag('S'));
    assert Keeps(a3.rest.value, a4.rest.value, Flag('S'));
    assert Keeps(a4.rest.value, a5.rest.value, Flag('S'));
    KeepsChain(opts, a1.rest.value, a2.rest.value, Flag('S'));
    KeepsChain(opts, a2.rest.value, a3.rest.value, Flag('S'));
    KeepsChain(opts, a3.rest.value, a4.rest.value, Flag('S'));
    KeepsChain(opts, a4.rest.value, a5.rest.value, Flag('S'));
  }

  /** A token two stages each keep is kept by both together. */
  lemma KeepsChain(o0: seq<Token>, o1: seq<Token>, o2: seq<Token>, t: Token)
    requires Keeps(o0, o1, t) && Keeps(o1, o2, t)
    ensures Keeps(o0, o2, t)
  {
  }

  /** The first `-c` of `opts` is at position `i`. */
  lemma FlagAt(c: char, opts: seq<Token>, i: nat)
    requires i < |opts| && opts[i] == Flag(c)
    requires forall k :: 0 <= k < i ==> opts[k] != Flag(c)
    ensures FindFlag(c, opts) == Some(i)
  {
  }

  function Blanks(n: nat): seq<Token> {
    seq(n, _ => BLANK)
  }

  lemma KnnReadBack(c: Config, k: Int32, rest: seq<Token>)
    ensures ReadKnn(c, [Flag('K'), IntLit(k)] + rest) == Applied(c.(kNN := k), Success(Blanks(2) + rest))
  {
    var o := [Flag('K'), IntLit(k)] + rest;
    FlagAt('K', o, 0);
    assert o[0 := BLANK][1 := BLANK] == Blanks(2) + rest;
  }

  lemma WindowReadBack(c: Config, w: Int32, rest: seq<Token>)
    ensures ReadWindow(c, Blanks(2) + [Flag('W'), IntLit(w)] + rest)
            == Applied(c.(windowSize := w), Success(Blanks(4) + rest))
  {
    var o := Blanks(2) + [Flag('W'), IntLit(w)] + rest;
    FlagAt('W', o, 2);
    assert o[2 := BLANK][3 := BLANK] == Blanks(4) + rest;
  }

  /** In `Blanks(4) + [-S, x] + mid + [-c] + tail`, the first `-c` is after `mid`. */
  lemma FlagAfterMid(x: real, mid: seq<Token>, c: char, tail: seq<Token>)
    requires c != 'S' && Flag(c) !in mid
    ensures FindFlag(c, Blanks(4) + [Flag('S'), RealLit(x)] + mid + [Flag(c)] + tail) == Some(6 + |mid|)
  {
    var o := Blanks(4) + [Flag('S'), RealLit(x)] + mid + [Flag(c)] + tail;
    var g := 6 + |mid|;
    forall k | 0 <= k < g ensures o[k] != Flag(c) {
      if k >= 6 { assert o[k] == mid[k - 6]; }
    }
    FlagAt(c, o, g);
  }

  lemma LogWeightingReadBack(c: Config, x: real, mid: seq<Token>, tail: seq<Token>)
    requires Flag('L') !in mid
    ensures var o := Blanks(4) + [Flag('S'), RealLit(x)] + mid + [Flag('L')] + tail;
            ReadWeighting(c, o) == Applied(c.(mode := WEIGHT_LOG), Success(o[6 + |mid| := BLANK]))
  {
    FlagAfterMid(x, mid, 'L', tail);
  }

  lemma NoFlagAround(x: real, mid: seq<Token>, m: char, tail: seq<Token>, c: char)
    requires c != 'S' && c != m && Flag(c) !in mid && Flag(c) !in tail
    ensures Flag(c) !in Blanks(4) + [Flag('S'), RealLit(x)] + mid + [Flag(m)] + tail
  {
    var o := Blanks(4) + [Flag('S'), RealLit(x)] + mid + [Flag(m)] + tail;
    var g := 6 + |mid|;
    forall k | 0 <= k < |o| ensures o[k] != Flag(c) {
      if 6 <= k < g { assert o[k] == mid[k - 6]; }
      if k > g { assert o[k] == tail[k - g - 1]; }
    }
  }

  lemma SpreadAfterGaussian(x: real, mid: seq<Token>, tail: seq<Token>)
    requires Flag('G') !in mid
    ensures var o := Blanks(4) + [Flag('S'), RealLit(x)] + mid + [Flag('G')] + tail;
            var o1 := o[6 + |mid| := BLANK];
            FindFlag('G', o) == Some(6 + |mid|) && FindFlag('S', o1) == Some(4) &&
            o1[5] == RealLit(x) && 5 < |o1| &&
            o1[4 := BLANK][5 := BLANK] == Blanks(6) + mid + [BLANK] + tail
  {
    var o := Blanks(4) + [Flag('S'), RealLit(x)] + mid + [Flag('G')] + tail;
    FlagAfterMid(x, mid, 'G', tail);
    var o1 := o[6 + |mid| := BLANK];
    assert o1 == Blanks(4) + [Flag('S'), RealLit(x)] + mid + [BLANK] + tail by {
      BlankAfterMid(Blanks(4) + [Flag('S'), RealLit(x)], mid, Flag('G'), tail);
    }
    assert FindFlag('S', o1) == Some(4) by {
      assert forall k :: 0 <= k < 4 ==> o1[k] == BLANK;
      FlagAt('S', o1, 4);
    }
    BlankSpread(x, mid, tail);
  }

  /** Blanking the token after `p + mid`. */
  lemma BlankAfterMid(p: seq<Token>, mid: seq<Token>, w: Token, tail: seq<Token>)
    ensures (p + mid + [w] + tail)[|p| + |mid| := BLANK] == p + mid + [BLANK] + tail
  {
  }

  /** Blanking -S and its value in front of the switches. */
  lemma BlankSpread(x: real, mid: seq<Token>, tail: seq<Token>)
    ensures (Blanks(4) + [Flag('S'), RealLit(x)] + mid + [BLANK] + tail)[4 := BLANK][5 := BLANK]
            == Blanks(6) + mid + [BLANK] + tail
  {
    var o := Blanks(4) + [Flag('S'), RealLit(x)] + mid + [BLANK] + tail;
    var r := Blanks(6) + mid + [BLANK] + tail;
    assert forall k :: 6 <= k < |o| ==> o[k] == r[k];
  }

  lemma GaussianWeightingReadBack(c: Config, x: real, mid: seq<Token>, tail: seq<Token>)
    requires Flag('L') !in mid && Flag('G') !in mid && Flag('L') !in tail
    ensures var o := Blanks(4) + [Flag('S'), RealLit(x)] + mid + [Flag('G')] + tail;
            ReadWeighting(c, o) ==
              Applied(c.(mode := WEIGHT_GAUSSIAN, sd := x), Success(Blanks(6) + mid + [BLANK] + tail))
  {
    var o := Blanks(4) + [Flag('S'), RealLit(x)] + mid + [Flag('G')] + tail;
    NoFlagAround(x, mid, 'G', tail, 'L');
    SpreadAfterGaussian(x, mid, tail);
    var o1 := o[6 + |mid| := BLANK];
    assert GetFlag('L', o) == (false, o);
    assert GetFlag('G', o) == (true, o1);
    assert GetOption('S', o1) == Success((RealLit(x), Blanks(6) + mid + [BLANK] + tail));
  }

  /** The tokens the -X, -E and -A stages see when they read back what getOptions writes. */
  function SwitchesTail(p: seq<Token>, mid: seq<Token>, nn: string): seq<Token> {
    p + mid + [BLANK] + [Flag('A'), Word(nn)]
  }

  /** Where -X, -E and -A occur in `SwitchesTail(p, mid, nn)`. */
  lemma SwitchesTailFlags(c: Config, p: seq<Token>, mid: seq<Token>)
    requires mid == SwitchFlags(c)
    requires forall t :: t in p ==> t == BLANK || t == Flag('S') || t.RealLit?
    ensures var o := SwitchesTail(p, mid, c.nnSearch);
            (Flag('X') in o <==> c.crossValidate) && (Flag('E') in o <==> c.meanSquared) &&
            (forall k :: 0 <= k < |o| - 2 ==> o[k] != Flag('A')) &&
            o[..|p|] == p && o[|o| - 2] == Flag('A') && o[|o| - 1] == Word(c.nnSearch)
  {
    var o := SwitchesTail(p, mid, c.nnSearch);
    var n := |o|;
    var q := |p|;
    assert forall k :: 0 <= k < q ==> o[k] == p[k];
    assert forall k :: 0 <= k < |mid| ==> o[q + k] == mid[k];
    forall k | 0 <= k < n - 2 ensures o[k] != Flag('A') && (o[k].Flag? && o[k] != Flag('S') ==> o[k] in mid) {
      if k < q { assert o[k] in p; }
      else if k < q + |mid| { assert o[k] == mid[k - q]; }
    }
    if Flag('X') in mid { var k :| 0 <= k < |mid| && mid[k] == Flag('X'); assert o[q + k] == Flag('X'); }
    if Flag('E') in mid { var k :| 0 <= k < |mid| && mid[k] == Flag('E'); assert o[q + k] == Flag('E'); }
    assert o[..q] == p;
  }

  /** The -X/-E stage keeps -A, its value and the prefix. */
  lemma SwitchesKeepSearch(c0: Config, o: seq<Token>, q: nat, nn: string)
    requires 2 + q <= |o| && o[|o| - 2] == Flag('A') && o[|o| - 1] == Word(nn)
    requires forall k :: 0 <= k < |o| - 2 ==> o[k] != Flag('A')
    requires forall k :: 0 <= k < q ==> o[k] == BLANK || o[k] == Flag('S') || o[k].RealLit?
    ensures var o4 := ReadFlags(c0, o).rest.value;
            |o4| == |o| && o4[|o| - 2] == Flag('A') && o4[|o| - 1] == Word(nn) &&
            (forall k :: 0 <= k < |o| - 2 ==> o4[k] != Flag('A')) &&
            o4[..q] == o[..q]
  {
    var o4 := ReadFlags(c0, o).rest.value;
    assert Keeps(o, o4, Flag('A')) && Keeps(o, o4, Word(nn));
    forall k | 0 <= k < q ensures o4[k] == o[k] {
      assert Keeps(o, o4, o[k]);
    }
  }

  /** The -A stage reads the search specification and keeps the prefix. */
  lemma SearchReadBack(c: Config, o: seq<Token>, q: nat, nn: string)
    requires !WhiteSpaceOnly(nn) && 2 + q <= |o| && o[|o| - 2] == Flag('A') && o[|o| - 1] == Word(nn)
    requires forall k :: 0 <= k < |o| - 2 ==> o[k] != Flag('A')
    ensures var a := ReadSearch(c, o);
            a.config == c.(nnSearch := nn) && a.rest.Success? && |a.rest.value| == |o| &&
            a.rest.value[..q] == o[..q]
  {
    FlagAt('A', o, |o| - 2);
    var r := ReadSearch(c, o).rest.value;
    assert forall k :: 0 <= k < q ==> r[k] == o[k];
  }

  /**
   * The last two stages read the -X, -E and -A that getOptions writes, and
   * leave the prefix `p` (blanks, -S and a decimal value) as it is.
   */
  lemma SwitchesAndSearchReadBack(c0: Config, c: Config, p: seq<Token>, mid: seq<Token>)
    requires !WhiteSpaceOnly(c.nnSearch) && mid == SwitchFlags(c)
    requires forall t :: t in p ==> t == BLANK || t == Flag('S') || t.RealLit?
    ensures var o := SwitchesTail(p, mid, c.nnSearch);
            var a4 := ReadFlags(c0, o);
            var a5 := ReadSearch(a4.config, a4.rest.value);
            a5.config == c0.(crossValidate := c.crossValidate, meanSquared := c.meanSquared, nnSearch := c.nnSearch) &&
            a5.rest.Success? && |p| <= |a5.rest.value| && a5.rest.value[..|p|] == p
  {
    var o := SwitchesTail(p, mid, c.nnSearch);
    SwitchesTailFlags(c, p, mid);
    assert forall k :: 0 <= k < |p| ==> o[k] == p[k];
    SwitchesKeepSearch(c0, o, |p|, c.nnSearch);
    var a4 := ReadFlags(c0, o);
    SearchReadBack(a4.config, a4.rest.value, |p|, c.nnSearch);
  }

  lemma ConcatAssoc(a: seq<Token>, b: seq<Token>, c: seq<Token>)
    ensures a + (b + c) == a + b + c
  {
  }

  /** Regrouping the tokens behind the four blanks the first two stages leave. */
  lemma RegroupWeighting(x: real, mid: seq<Token>, w: Token, tail: seq<Token>)
    ensures Blanks(4) + ([Flag('S'), RealLit(x)] + mid + [w] + tail)
            == Blanks(4) + [Flag('S'), RealLit(x)] + mid + [w] + tail
  {
    var s := [Flag('S'), RealLit(x)];
    ConcatAssoc(Blanks(4), s + mid + [w], tail);
    ConcatAssoc(Blanks(4), s + mid, [w]);
    ConcatAssoc(Blanks(4), s, mid);
  }

  /** ApplyOptions after three stages that succeed. */
  lemma ThreeStagesSucceed(c0: Config, o: seq<Token>, c1: Config, o1: seq<Token>,
                           c2: Config, o2: seq<Token>, c3: Config, o3: seq<Token>)
    requires ReadKnn(c0, o) == Applied(c1, Success(o1))
    requires ReadWindow(c1, o1) == Applied(c2, Success(o2))
    requires ReadWeighting(c2, o2) == Applied(c3, Success(o3))
    ensures ApplyOptions(c0, o) == ReadSearch(ReadFlags(c3, o3).config, ReadFlags(c3, o3).rest.value)
  {
  }

  /** The -K and -W stages read back what getOptions writes first. */
  lemma OpeningReadBack(c0: Config, k: Int32, w: Int32, r2: seq<Token>)
    ensures var r1 := [Flag('W'), IntLit(w)] + r2;
            ReadKnn(c0, [Flag('K'), IntLit(k)] + r1) == Applied(c0.(kNN := k), Success(Blanks(2) + r1)) &&
            ReadWindow(c0.(kNN := k), Blanks(2) + r1) == Applied(c0.(kNN := k, windowSize := w), Success(Blanks(4) + r2))
  {
    var r1 := [Flag('W'), IntLit(w)] + r2;
    KnnReadBack(c0, k, r1);
    assert Blanks(2) + r1 == Blanks(2) + [Flag('W'), IntLit(w)] + r2;
    WindowReadBack(c0.(kNN := k), w, r2);
  }

  /** The weighting stage reads back -G and its -S. */
  lemma GaussianStage(c2: Config, x: real, mid: seq<Token>, nn: string)
    requires Flag('L') !in mid && Flag('G') !in mid
    ensures ReadWeighting(c2, Blanks(4) + ([Flag('S'), RealLit(x)] + mid + [Flag('G')] + [Flag('A'), Word(nn)]))
            == Applied(c2.(mode := WEIGHT_GAUSSIAN, sd := x), Success(SwitchesTail(Blanks(6), mid, nn)))
  {
    var tail := [Flag('A'), Word(nn)];
    RegroupWeighting(x, mid, Flag('G'), tail);
    GaussianWeightingReadBack(c2, x, mid, tail);
  }

  /** The tokens the log read-back leaves in front of the switches. */
  lemma SpreadPrefix(x: real)
    ensures var p := Blanks(4) + [Flag('S'), RealLit(x)];
            |p| == 6 && p[4] == Flag('S') && p[5] == RealLit(x) &&
            forall t :: t in p ==> t == BLANK || t == Flag('S') || t.RealLit?
    ensures forall t :: t in Blanks(6) ==> t == BLANK
  {
  }

  /** The weighting stage reads back -L and leaves -S and its value. */
  lemma LogStage(c2: Config, x: real, mid: seq<Token>, nn: string)
    requires Flag('L') !in mid
    ensures ReadWeighting(c2, Blanks(4) + ([Flag('S'), RealLit(x)] + mid + [Flag('L')] + [Flag('A'), Word(nn)]))
            == Applied(c2.(mode := WEIGHT_LOG), Success(SwitchesTail(Blanks(4) + [Flag('S'), RealLit(x)], mid, nn)))
  {
    var tail := [Flag('A'), Word(nn)];
    RegroupWeighting(x, mid, Flag('L'), tail);
    LogWeightingReadBack(c2, x, mid, tail);
    var o2 := Blanks(4) + [Flag('S'), RealLit(x)] + mid + [Flag('L')] + tail;
    assert o2[6 + |mid| := BLANK] == SwitchesTail(Blanks(4) + [Flag('S'), RealLit(x)], mid, nn);
  }

  /** Setting every field of `c0` to that of `c` gives `c`. */
  lemma Rebuilt(c0: Config, c: Config)
    ensures c0.(kNN := c.kNN, windowSize := c.windowSize).(mode := c.mode, sd := c.sd)
              .(crossValidate := c.crossValidate, meanSquared := c.meanSquared, nnSearch := c.nnSearch) == c
  {
  }

  /**
   * Reading back what getOptions writes for a Gaussian configuration
   * restores every setting IBkLG reads itself.
   */
  lemma GaussianOptionsReadBack(c0: Config, c: Config)
    requires c.mode == WEIGHT_GAUSSIAN && !WhiteSpaceOnly(c.nnSearch)
    ensures var a := ApplyOptions(c0, OptionsOf(c));
            a.config == c && a.rest.Success?
  {
    var mid := SwitchFlags(c);
    var r2 := [Flag('S'), RealLit(c.sd)] + mid + [Flag('G')] + [Flag('A'), Word(c.nnSearch)];
    assert WeightingFlag(c) == [Flag('G')];
    OpeningReadBack(c0, c.kNN, c.windowSize, r2);
    var c2 := c0.(kNN := c.kNN, windowSize := c.windowSize);
    GaussianStage(c2, c.sd, mid, c.nnSearch);
    var c3 := c2.(mode := WEIGHT_GAUSSIAN, sd := c.sd);
    SpreadPrefix(c.sd);
    ThreeStagesSucceed(c0, OptionsOf(c), c0.(kNN := c.kNN), Blanks(2) + ([Flag('W'), IntLit(c.windowSize)] + r2),
                       c2, Blanks(4) + r2, c3, SwitchesTail(Blanks(6), mid, c.nnSearch));
    SwitchesAndSearchReadBack(c3, c, Blanks(6), mid);
    Rebuilt(c0, c);
  }

  /**
   * Reading back what getOptions writes for a log configuration restores
   * every setting but the spread, and leaves -S and its value unread.
   */
  lemma LogOptionsLeaveSpread(c0: Config, c: Config)
    requires c.mode == WEIGHT_LOG && !WhiteSpaceOnly(c.nnSearch)
    ensures var a := ApplyOptions(c0, OptionsOf(c));
            a.config == c.(sd := c0.sd) && a.rest.Success? && 6 <= |a.rest.value| &&
            a.rest.value[4] == Flag('S') && a.rest.value[5] == RealLit(c.sd)
  {
    var mid := SwitchFlags(c);
    var r2 := [Flag('S'), RealLit(c.sd)] + mid + [Flag('L')] + [Flag('A'), Word(c.nnSearch)];
    assert WeightingFlag(c) == [Flag('L')];
    OpeningReadBack(c0, c.kNN, c.windowSize, r2);
    var c2 := c0.(kNN := c.kNN, windowSize := c.windowSize);
    LogStage(c2, c.sd, mid, c.nnSearch);
    var c3 := c2.(mode := WEIGHT_LOG);
    var p := Blanks(4) + [Flag('S'), RealLit(c.sd)];
    SpreadPrefix(c.sd);
    ThreeStagesSucceed(c0, OptionsOf(c), c0.(kNN := c.kNN), Blanks(2) + ([Flag('W'), IntLit(c.windowSize)] + r2),
                       c2, Blanks(4) + r2, c3, SwitchesTail(p, mid, c.nnSearch));
    SwitchesAndSearchReadBack(c3, c, p, mid);
  }
}
