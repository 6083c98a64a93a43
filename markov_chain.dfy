/**
  The Markov chain behind MarkovTurtle: a transition table from shape to shape,
  the randomly generated table with one shared row, the step that samples the
  next shape from the current shape's row, and the walk that strings those
  steps into an instruction list.
*/
module MarkovChain {
  import opened Wrappers
  import opened Categorical

  /** A shape label such as "circles" or "flower". */
  type Shape = string

  /** The outgoing probabilities of one shape. */
  type Row = map<Shape, real>

  /** The transition matrix: a row for each shape. */
  type Table = map<Shape, Row>

  /** The reasons a step of the walk fails. */
  datatype Error =
    | UnknownShape(shape: Shape)                   // KeyError on transition_matrix[current_shape]
    | MissingTransition(source: Shape, target: Shape) // KeyError on the row's [next_option]
    | InvalidDistribution(shape: Shape)            // ValueError from np.random.choice

  /** The seven shapes of a generated table, in their listed order. */
  const DefaultOptions: seq<Shape> :=
    ["circles", "squares", "dots", "random walk", "circular helix", "hexagonal helix", "flower"]

  /** The number of weights `np.random.random(7)` draws for a generated table. */
  const DrawCount: nat := 7

  predicate Distinct(s: seq<Shape>)
  {
    forall i, j :: 0 <= i < j < |s| ==> s[i] != s[j]
  }

  function Elements(s: seq<Shape>): set<Shape>
  {
    set o | o in s
  }

  lemma DefaultOptionsWellFormed()
    ensures |DefaultOptions| == DrawCount
    ensures Distinct(DefaultOptions)
  {
  }

  // ---------------------------------------------------------------------------
  // Tables and their shape

  /** Every option has a row, and every such row has an entry for every option. */
  predicate Complete(m: Table, options: seq<Shape>)
  {
    forall o :: o in options ==> o in m && forall o' :: o' in options ==> o' in m[o]
  }

  /** One row per option and nothing else, and each row's keys are exactly the options. */
  predicate Square(m: Table, options: seq<Shape>)
  {
    m.Keys == Elements(options) && forall o :: o in m ==> m[o].Keys == Elements(options)
  }

  /** The row's entries for the options, in the options' order: the `p=` list of next_instruction. */
  function Weights(row: Row, options: seq<Shape>): (p: seq<real>)
    requires forall o :: o in options ==> o in row
  {
    seq(|options|, i requires 0 <= i < |options| => row[options[i]])
  }

  /** Every option's row, read along the options, is a probability distribution. */
  predicate Stochastic(m: Table, options: seq<Shape>)
  {
    Complete(m, options) &&
    forall o :: o in options ==>
      NonNegative(Weights(m[o], options)) && Sum(Weights(m[o], options)) == 1.0
  }

  // ---------------------------------------------------------------------------
  // The generated table

  /**
    The row the inner loop of generate_markov_chain builds: `options[i]` is
    mapped to `p[i]`, a later position overwriting an earlier one.
  */
  function BuildRow(options: seq<Shape>, p: seq<real>): Row
    requires |options| <= |p|
  {
    if |options| == 0 then map[]
    else BuildRow(options[..|options| - 1], p)[options[|options| - 1] := p[|options| - 1]]
  }

  lemma {:induction false} BuildRowKeys(options: seq<Shape>, p: seq<real>)
    requires |options| <= |p|
    ensures BuildRow(options, p).Keys == Elements(options)
  {
    if |options| > 0 {
      var n := |options| - 1;
      BuildRowKeys(options[..n], p);
      assert options == options[..n] + [options[n]];
      assert Elements(options) == Elements(options[..n]) + {options[n]};
    }
  }

  lemma {:induction false} BuildRowEntries(options: seq<Shape>, p: seq<real>)
    requires |options| <= |p| && Distinct(options)
    ensures BuildRow(options, p).Keys == Elements(options)
    ensures forall i :: 0 <= i < |options| ==> BuildRow(options, p)[options[i]] == p[i]
  {
    BuildRowKeys(options, p);
    if |options| > 0 {
      var n := |options| - 1;
      var init := options[..n];
      assert Distinct(init);
      BuildRowEntries(init, p);
      forall i | 0 <= i < n
        ensures BuildRow(options, p)[options[i]] == p[i]
      {
        assert init[i] == options[i] && options[i] != options[n];
      }
    }
  }

  /** What the outer loop of generate_markov_chain does to a table: store `row` under each key in turn. */
  function Fill(m: Table, keys: seq<Shape>, row: Row): Table
  {
    if |keys| == 0 then m else Fill(m, keys[..|keys| - 1], row)[keys[|keys| - 1] := row]
  }

  lemma {:induction false} FillEntries(m: Table, keys: seq<Shape>, row: Row)
    ensures Fill(m, keys, row).Keys == m.Keys + Elements(keys)
    ensures forall k :: k in keys ==> Fill(m, keys, row)[k] == row
    ensures forall k :: k in m && k !in keys ==> Fill(m, keys, row)[k] == m[k]
  {
    if |keys| > 0 {
      var n := |keys| - 1;
      FillEntries(m, keys[..n], row);
      assert keys == keys[..n] + [keys[n]];
      assert Elements(keys) == Elements(keys[..n]) + {keys[n]};
    }
  }

  /** The table generate_markov_chain builds from an empty one: the same normalised row for every option. */
  function GeneratedTable(options: seq<Shape>, weights: seq<Uniform>): Table
    requires |options| <= |weights| && Sum(weights) > 0.0
  {
    Fill(map[], options, BuildRow(options, Normalize(weights)))
  }

  /** Reading a built row along distinct options gives back the vector it was built from. */
  lemma BuiltRowWeights(options: seq<Shape>, p: seq<real>)
    requires |options| == |p| && Distinct(options)
    ensures forall o :: o in options ==> o in BuildRow(options, p)
    ensures Weights(BuildRow(options, p), options) == p
  {
    BuildRowEntries(options, p);
  }

  /**
    A generated table over distinct options, one weight drawn per option, is
    square, has the same normalised vector as every row, and every row is a
    probability distribution over the options.
  */
  lemma GeneratedTableShape(options: seq<Shape>, weights: seq<Uniform>)
    requires Distinct(options) && |options| == |weights| && Sum(weights) > 0.0
    ensures Square(GeneratedTable(options, weights), options)
    ensures forall o, i :: o in options && 0 <= i < |options| ==>
      options[i] in GeneratedTable(options, weights)[o] &&
      GeneratedTable(options, weights)[o][options[i]] == Normalize(weights)[i]
    ensures Stochastic(GeneratedTable(options, weights), options)
  {
    var m := GeneratedTable(options, weights);
    var p := Normalize(weights);
    assert NonNegative(weights);
    NormalizeIsDistribution(weights);
    BuildRowEntries(options, p);
    BuiltRowWeights(options, p);
    FillEntries(map[], options, BuildRow(options, p));
    assert Complete(m, options);
  }

  // ---------------------------------------------------------------------------
  // One step: next_instruction

  /** Position `k` holds the first option, in order, that the row has no entry for. */
  predicate FirstMissingAt(row: Row, options: seq<Shape>, k: int)
  {
    0 <= k < |options| && options[k] !in row && forall j :: 0 <= j < k ==> options[j] in row
  }

  /**
    The first option, in order, that the row has no entry for: the key whose
    lookup raises the KeyError, as the comprehension reads the row option by
    option.
  */
  function MissingOption(row: Row, options: seq<Shape>): (r: Option<Shape>)
    ensures r.None? <==> forall o :: o in options ==> o in row
    ensures r.Some? ==> r.value in options && r.value !in row
    ensures r.Some? ==> exists k :: FirstMissingAt(row, options, k) && options[k] == r.value
  {
    if |options| == 0 then None
    else if options[0] !in row then
      assert FirstMissingAt(row, options, 0);
      Some(options[0])
    else
      var r := MissingOption(row, options[1..]);
      if r.Some? then
        var k :| FirstMissingAt(row, options[1..], k) && options[1..][k] == r.value;
        assert FirstMissingAt(row, options, k + 1);
        r
      else r
  }

  /** The current shape has a row with an entry for every option, and that row can be sampled. */
  predicate CanSample(m: Table, options: seq<Shape>, current: Shape)
  {
    current in m && (forall o :: o in options ==> o in m[current]) &&
    Samplable(Weights(m[current], options))
  }

  /**
    next_instruction: look up the current shape's row, read it along the
    options, and let the draw `u` choose one option from that vector. The
    row is looked up once per option, so with no options there is no lookup
    and the sampler rejects the empty population instead.
  */
  function NextInstruction(m: Table, options: seq<Shape>, current: Shape, u: Uniform): (r: Result<Shape, Error>)
    ensures r.Ok? <==> CanSample(m, options, current)
    ensures r.Ok? ==> r.value in options && r.value in m[current] && m[current][r.value] > 0.0
    ensures r.Ok? ==> exists i :: InSlice(Weights(m[current], options), u, i) && r.value == options[i]
    ensures r.Err? && r.error.UnknownShape? <==> |options| > 0 && current !in m
    ensures r.Err? && r.error.MissingTransition? ==>
      current in m && r.error.source == current && r.error.target in options && r.error.target !in m[current] &&
      exists k :: FirstMissingAt(m[current], options, k) && options[k] == r.error.target
    ensures r.Err? && r.error.InvalidDistribution? ==>
      r.error.shape == current &&
      (|options| == 0 ||
       (current in m && (forall o :: o in options ==> o in m[current]) &&
        !Samplable(Weights(m[current], options))))
  {
    if |options| == 0 then Err(InvalidDistribution(current))
    else if current !in m then Err(UnknownShape(current))
    else
      match MissingOption(m[current], options)
      case Some(o) => Err(MissingTransition(current, o))
      case None =>
        match Choose(Weights(m[current], options), u)
        case Some(i) => Ok(options[i])
        case None => Err(InvalidDistribution(current))
  }

  // ---------------------------------------------------------------------------
  // The walk: get_instructions

  /** What a walk produced: the shapes appended so far, and the error that stopped it, if any. */
  datatype Trace = Trace(emitted: seq<Shape>, failure: Option<Error>)

  /** The current shape after emitting `s`, starting from `start`. */
  function Last(start: Shape, s: seq<Shape>): Shape
  {
    if |s| == 0 then start else s[|s| - 1]
  }

  /**
    The walk from `start`, one step per draw: each step samples from the row of
    the shape current at that point and stops the walk at the first failure.
  */
  function Walk(m: Table, options: seq<Shape>, start: Shape, draws: seq<Uniform>): (t: Trace)
    ensures |t.emitted| <= |draws|
    ensures t.failure.None? ==> |t.emitted| == |draws|
    ensures t.failure.Some? ==> |t.emitted| < |draws|
    ensures forall i :: 0 <= i < |t.emitted| ==> t.emitted[i] in options
    decreases |draws|
  {
    if |draws| == 0 then Trace([], None)
    else
      var t := Walk(m, options, start, draws[..|draws| - 1]);
      if t.failure.Some? then t
      else
        match NextInstruction(m, options, Last(start, t.emitted), draws[|draws| - 1])
        case Ok(s) => Trace(t.emitted + [s], None)
        case Err(e) => Trace(t.emitted, Some(e))
  }

  /**
    `c` is chained over the draws: element `i` is what the step from the
    shape current before it (the start for element 0, element `i - 1`
    otherwise) yields on draw `i`.
  */
  predicate Chained(m: Table, options: seq<Shape>, start: Shape, c: seq<Shape>, draws: seq<Uniform>)
  {
    |c| <= |draws| &&
    forall i :: 0 <= i < |c| ==> NextInstruction(m, options, Last(start, c[..i]), draws[i]) == Ok(c[i])
  }

  /** A chained sequence stays chained over more draws, and one more chained step extends it. */
  lemma ChainedExtend(m: Table, options: seq<Shape>, start: Shape, c: seq<Shape>, draws: seq<Uniform>, x: Shape)
    requires 0 < |draws| && Chained(m, options, start, c, draws[..|draws| - 1])
    ensures Chained(m, options, start, c, draws)
    ensures |c| == |draws| - 1 && NextInstruction(m, options, Last(start, c), draws[|c|]) == Ok(x) ==>
      Chained(m, options, start, c + [x], draws)
  {
    ChainedMoreDraws(m, options, start, c, draws);
    if |c| == |draws| - 1 && NextInstruction(m, options, Last(start, c), draws[|c|]) == Ok(x) {
      ChainedAppend(m, options, start, c, draws, x);
    }
  }

  lemma ChainedMoreDraws(m: Table, options: seq<Shape>, start: Shape, c: seq<Shape>, draws: seq<Uniform>)
    requires 0 < |draws| && Chained(m, options, start, c, draws[..|draws| - 1])
    ensures Chained(m, options, start, c, draws)
  {
    var prev := draws[..|draws| - 1];
    forall i | 0 <= i < |c|
      ensures NextInstruction(m, options, Last(start, c[..i]), draws[i]) == Ok(c[i])
    {
      assert prev[i] == draws[i];
    }
  }

  lemma ChainedAppend(m: Table, options: seq<Shape>, start: Shape, c: seq<Shape>, draws: seq<Uniform>, x: Shape)
    requires |c| < |draws| && Chained(m, options, start, c, draws)
    requires NextInstruction(m, options, Last(start, c), draws[|c|]) == Ok(x)
    ensures Chained(m, options, start, c + [x], draws)
  {
    var c' := c + [x];
    forall i | 0 <= i < |c'|
      ensures NextInstruction(m, options, Last(start, c'[..i]), draws[i]) == Ok(c'[i])
    {
      if i < |c| {
        assert c'[..i] == c[..i];
      } else {
        assert c'[..i] == c;
      }
    }
  }

  /**
    Chaining: every walk's output is chained over its draws (element 0 comes
    from the start's row, element `i + 1` from element `i`'s row), and a
    failed walk failed on the step right after its last element.
  */
  lemma {:induction false} WalkChains(m: Table, options: seq<Shape>, start: Shape, draws: seq<Uniform>)
    ensures Chained(m, options, start, Walk(m, options, start, draws).emitted, draws)
    ensures var t := Walk(m, options, start, draws);
      t.failure.Some? ==>
        NextInstruction(m, options, Last(start, t.emitted), draws[|t.emitted|]) == Err(t.failure.value)
    decreases |draws|
  {
    if |draws| > 0 {
      WalkChains(m, options, start, draws[..|draws| - 1]);
      WalkChainsStep(m, options, start, draws);
    }
  }

  /** The step of WalkChains: what holds for all but the last draw holds for all of them. */
  lemma WalkChainsStep(m: Table, options: seq<Shape>, start: Shape, draws: seq<Uniform>)
    requires |draws| > 0
    requires var prev := draws[..|draws| - 1]; var t0 := Walk(m, options, start, prev);
      Chained(m, options, start, t0.emitted, prev) &&
      (t0.failure.Some? ==>
        NextInstruction(m, options, Last(start, t0.emitted), prev[|t0.emitted|]) == Err(t0.failure.value))
    ensures Chained(m, options, start, Walk(m, options, start, draws).emitted, draws)
    ensures var t := Walk(m, options, start, draws);
      t.failure.Some? ==>
        NextInstruction(m, options, Last(start, t.emitted), draws[|t.emitted|]) == Err(t.failure.value)
  {
    var n := |draws| - 1;
    var prev := draws[..n];
    var t0 := Walk(m, options, start, prev);
    if t0.failure.None? {
      var next := NextInstruction(m, options, Last(start, t0.emitted), draws[n]);
      if next.Ok? {
        WalkExtends(m, options, start, draws, n, t0.emitted, next.value);
        assert draws[..n + 1] == draws;
        ChainedExtend(m, options, start, t0.emitted, draws, next.value);
      } else {
        WalkStopsAt(m, options, start, draws, n, t0.emitted, next.error);
        ChainedExtend(m, options, start, t0.emitted, draws, start);
      }
    } else {
      FailureIsFinal(m, options, start, draws, n);
      assert prev[|t0.emitted|] == draws[|t0.emitted|];
      ChainedExtend(m, options, start, t0.emitted, draws, start);
    }
  }

  /** Once a walk has failed, further draws change nothing. */
  lemma {:induction false} FailureIsFinal(m: Table, options: seq<Shape>, start: Shape, draws: seq<Uniform>, k: nat)
    requires k <= |draws| && Walk(m, options, start, draws[..k]).failure.Some?
    ensures Walk(m, options, start, draws) == Walk(m, options, start, draws[..k])
    decreases |draws| - k
  {
    if k < |draws| {
      assert draws[..k + 1][..k] == draws[..k];
      FailureIsFinal(m, options, start, draws, k + 1);
    } else {
      assert draws[..k] == draws;
    }
  }

  /** A walk that has emitted `c` over the first `k` draws and succeeds on draw `k` emits one more shape. */
  lemma WalkExtends(m: Table, options: seq<Shape>, start: Shape, draws: seq<Uniform>, k: nat, c: seq<Shape>, s: Shape)
    requires k < |draws| && Walk(m, options, start, draws[..k]) == Trace(c, None)
    requires NextInstruction(m, options, Last(start, c), draws[k]) == Ok(s)
    ensures Walk(m, options, start, draws[..k + 1]) == Trace(c + [s], None)
  {
    assert draws[..k + 1][..k] == draws[..k];
  }

  /** A walk that has emitted `c` over the first `k` draws and fails on draw `k` ends there, however many draws follow. */
  lemma WalkStopsAt(m: Table, options: seq<Shape>, start: Shape, draws: seq<Uniform>, k: nat, c: seq<Shape>, e: Error)
    requires k < |draws| && Walk(m, options, start, draws[..k]) == Trace(c, None)
    requires NextInstruction(m, options, Last(start, c), draws[k]) == Err(e)
    ensures Walk(m, options, start, draws) == Trace(c, Some(e))
  {
    assert draws[..k + 1][..k] == draws[..k];
    FailureIsFinal(m, options, start, draws, k + 1);
  }

  /** A walk over a stochastic table from one of its options never fails: every draw yields a shape. */
  lemma {:induction false} StochasticWalkSucceeds(m: Table, options: seq<Shape>, start: Shape, draws: seq<Uniform>)
    requires Stochastic(m, options) && start in options
    ensures Walk(m, options, start, draws).failure.None?
    ensures |Walk(m, options, start, draws).emitted| == |draws|
    decreases |draws|
  {
    if |draws| > 0 {
      var n := |draws| - 1;
      StochasticWalkSucceeds(m, options, start, draws[..n]);
      var t0 := Walk(m, options, start, draws[..n]);
      var c := Last(start, t0.emitted);
      assert c in options;
      assert Sum(Weights(m[c], options)) == 1.0;
      assert CanSample(m, options, c);
    }
  }

  /**
    Every emitted shape has positive probability in the row of the shape
    before it: entries of zero are never taken.
  */
  lemma {:induction false} WalkFollowsPositiveEntries(m: Table, options: seq<Shape>, start: Shape, draws: seq<Uniform>)
    ensures var t := Walk(m, options, start, draws);
      forall i :: 0 <= i < |t.emitted| ==>
        Last(start, t.emitted[..i]) in m &&
        t.emitted[i] in m[Last(start, t.emitted[..i])] &&
        m[Last(start, t.emitted[..i])][t.emitted[i]] > 0.0
  {
    WalkChains(m, options, start, draws);
    var t := Walk(m, options, start, draws);
    forall i | 0 <= i < |t.emitted|
      ensures NextInstruction(m, options, Last(start, t.emitted[..i]), draws[i]) == Ok(t.emitted[i])
    {
    }
  }

  /**
    A shape whose row can be sampled and puts no weight on any other option
    is absorbing: the walk from it repeats it once per draw.
  */
  lemma {:induction false} AbsorbingShape(m: Table, options: seq<Shape>, s: Shape, draws: seq<Uniform>)
    requires s in options && CanSample(m, options, s)
    requires forall o :: o in options && o != s ==> m[s][o] == 0.0
    ensures Walk(m, options, s, draws) == Trace(seq(|draws|, _ => s), None)
    decreases |draws|
  {
    if |draws| > 0 {
      var n := |draws| - 1;
      AbsorbingShape(m, options, s, draws[..n]);
      assert Last(s, seq(n, _ => s)) == s;
      assert seq(n, _ => s) + [s] == seq(|draws|, _ => s);
    }
  }

  /**
    A caller-supplied table whose first row lacks an entry for the second
    option: the very first step fails with a missing transition.
  */
  lemma MissingEntryRejected()
    ensures Walk(map["a" := map["a" := 0.5], "b" := map["a" := 1.0, "b" := 0.0]], ["a", "b"], "a", [0.0])
         == Trace([], Some(MissingTransition("a", "b")))
  {
    var m := map["a" := map["a" := 0.5], "b" := map["a" := 1.0, "b" := 0.0]];
    var options := ["a", "b"];
    assert MissingOption(m["a"], options[1..]) == Some("b");
    assert NextInstruction(m, options, "a", 0.0) == Err(MissingTransition("a", "b"));
    assert [0.0 as Uniform][..0] == [];
  }

  /**
    An empty caller-supplied table has no options: the first step already
    fails, because the sampler is handed an empty population, whatever the
    start shape.
  */
  lemma EmptyTableRejected(start: Shape, draws: seq<Uniform>)
    requires |draws| > 0
    ensures Walk(map[], [], start, draws) == Trace([], Some(InvalidDistribution(start)))
  {
    assert draws[..1][..0] == draws[..0];
    FailureIsFinal(map[], [], start, draws, 1);
  }
}
