/**
  The MarkovTurtle object: its options, transition matrix, start shape and
  instruction count, the in-place generation of a random table, the loop that
  collects the instructions, and the clamp that keeps the pen on screen.
*/
module MarkovArt {
  import opened Wrappers
  import opened Categorical
  import opened MarkovChain

  /**
    A transition matrix handed in by the caller. A dictionary's keys come in
    insertion order, each once, so `keys` lists exactly the keys of `rows`.
  */
  datatype SuppliedTable = SuppliedTable(keys: seq<Shape>, rows: Table) {
    predicate Valid()
    {
      Distinct(keys) && Elements(keys) == rows.Keys
    }
  }

  /** The options the object uses: the dictionary's keys, or the seven defaults. */
  function InitialOptions(supplied: Option<SuppliedTable>): seq<Shape>
  {
    if supplied.Some? then supplied.value.keys else DefaultOptions
  }

  /** The transition matrix the object holds once set up: the caller's, or a generated one. */
  function InitialTable(supplied: Option<SuppliedTable>, weights: seq<Uniform>): Table
    requires supplied.None? ==> |weights| == DrawCount && Sum(weights) > 0.0
  {
    if supplied.Some? then supplied.value.rows else GeneratedTable(DefaultOptions, weights)
  }

  /** The instruction count `__init__` uses when none is given. */
  const DefaultCount: int := 10

  /** The start shape `__init__` uses when none is given. */
  const DefaultStart: Shape := "circles"

  /** The number of loop iterations for a requested count: none when it is not positive. */
  function Steps(n: int): nat
  {
    if n > 0 then n else 0
  }

  /**
    One axis of wall_check: beyond 500 the pen is put back at 450, below -500
    at -450, and a coordinate within [-500, 500] stays where it is.
  */
  function ClampAxis(v: real): (r: real)
    ensures -500.0 <= r <= 500.0
    ensures r == v <==> -500.0 <= v <= 500.0
    ensures v > 500.0 ==> r == 450.0
    ensures v < -500.0 ==> r == -450.0
  {
    if v > 500.0 then 450.0 else if v < -500.0 then -450.0 else v
  }

  /** Clamping a clamped coordinate changes nothing. */
  lemma ClampIdempotent(v: real)
    ensures ClampAxis(ClampAxis(v)) == ClampAxis(v)
  {
  }

  /** The turtle's pen: its position and whether it is down. */
  class Pen {
    var x: real
    var y: real
    var down: bool

    /** A new turtle starts at the origin with its pen down. */
    constructor ()
      ensures x == 0.0 && y == 0.0 && down
    {
      x, y, down := 0.0, 0.0, true;
    }
  }

  class MarkovTurtle {
    const pen: Pen
    var startShape: Shape
    var numInstructions: int
    var transitionMatrix: Table
    var options: seq<Shape>
    var instructions: seq<Shape>

    /**
      The set-up of __init__ before the instructions are collected: store the
      start shape and count, then take the caller's table and its keys, or
      start from an empty table over the seven defaults and generate it.
    */
    constructor (weights: seq<Uniform>, supplied: Option<SuppliedTable> := None,
                 numInstructions: int := DefaultCount, startShape: Shape := DefaultStart)
      requires supplied.Some? ==> supplied.value.Valid()
      requires supplied.None? ==> |weights| == DrawCount && Sum(weights) > 0.0
      ensures fresh(pen) && pen.x == 0.0 && pen.y == 0.0 && pen.down
      ensures this.startShape == startShape && this.numInstructions == numInstructions
      ensures options == InitialOptions(supplied)
      ensures transitionMatrix == InitialTable(supplied, weights)
      ensures instructions == []
    {
      pen := new Pen();
      this.startShape := startShape;
      this.numInstructions := numInstructions;
      instructions := [];
      if supplied.None? {
        transitionMatrix := map[];
        options := DefaultOptions;
      } else {
        transitionMatrix := supplied.value.rows;
        options := supplied.value.keys;
      }
      new;
      if supplied.None? {
        GenerateMarkovChain(weights);
      }
    }

    /**
      generate_markov_chain: normalise the seven drawn weights and store the
      resulting row, built entry by entry along the options, for every option.
      It indexes the seven weights by option position, so it needs at most
      seven options.
    */
    method GenerateMarkovChain(weights: seq<Uniform>)
      requires |weights| == DrawCount && Sum(weights) > 0.0
      requires |options| <= DrawCount
      modifies this`transitionMatrix
      ensures transitionMatrix == Fill(old(transitionMatrix), options, BuildRow(options, Normalize(weights)))
    {
      var probabilities := Normalize(weights);
      var j := 0;
      while j < |options|
        invariant 0 <= j <= |options|
        invariant transitionMatrix == Fill(old(transitionMatrix), options[..j], BuildRow(options, probabilities))
      {
        var tempDict: Row := map[];
        var i := 0;
        while i < |options|
          invariant 0 <= i <= |options|
          invariant tempDict == BuildRow(options[..i], probabilities)
        {
          assert options[..i + 1][..i] == options[..i];
          tempDict := tempDict[options[i] := probabilities[i]];
          i := i + 1;
        }
        assert options[..|options|] == options;
        assert options[..j + 1][..j] == options[..j];
        transitionMatrix := transitionMatrix[options[j] := tempDict];
        j := j + 1;
      }
      assert options[..j] == options;
    }

    /**
      get_instructions: while fewer than numInstructions shapes are collected,
      sample the next shape from the row of startShape, append it, and make it
      the new startShape. A failing step raises out of the loop, leaving
      startShape at the last shape sampled.
    */
    method GetInstructions(draws: seq<Uniform>) returns (r: Result<seq<Shape>, Error>)
      requires numInstructions <= |draws|
      modifies this`startShape
      ensures var t := Walk(transitionMatrix, options, old(startShape), draws[..Steps(numInstructions)]);
        && r == (if t.failure.None? then Ok(t.emitted) else Err(t.failure.value))
        && startShape == Last(old(startShape), t.emitted)
    {
      ghost var start := startShape;
      ghost var used := draws[..Steps(numInstructions)];
      var m, opts, count := transitionMatrix, options, numInstructions;
      var collected: seq<Shape> := [];
      while |collected| < count
        invariant |collected| <= |used|
        invariant Walk(m, opts, start, used[..|collected|]) == Trace(collected, None)
        invariant startShape == Last(start, collected)
      {
        var k := |collected|;
        assert used[k] == draws[k];
        var next := NextInstruction(m, opts, startShape, draws[k]);
        match next
        case Err(e) =>
          WalkStopsAt(m, opts, start, used, k, collected, e);
          return Err(e);
        case Ok(shape) =>
          WalkExtends(m, opts, start, used, k, collected, shape);
          collected := collected + [shape];
          startShape := shape;
      }
      assert used[..|collected|] == used;
      return Ok(collected);
    }

    /**
      __init__ as a whole: set up the object, then collect its instructions.
      An error raised while collecting them propagates to the caller.
    */
    static method New(weights: seq<Uniform>, draws: seq<Uniform>, supplied: Option<SuppliedTable> := None,
                      numInstructions: int := DefaultCount, startShape: Shape := DefaultStart)
      returns (r: Result<MarkovTurtle, Error>)
      requires supplied.Some? ==> supplied.value.Valid()
      requires supplied.None? ==> |weights| == DrawCount && Sum(weights) > 0.0
      requires numInstructions <= |draws|
      ensures var t := Walk(InitialTable(supplied, weights), InitialOptions(supplied), startShape,
                            draws[..Steps(numInstructions)]);
        && (r.Ok? <==> t.failure.None?)
        && (r.Err? ==> r.error == t.failure.value)
        && (r.Ok? ==>
              && fresh(r.value) && fresh(r.value.pen)
              && r.value.pen.x == 0.0 && r.value.pen.y == 0.0 && r.value.pen.down
              && r.value.options == InitialOptions(supplied)
              && r.value.transitionMatrix == InitialTable(supplied, weights)
              && r.value.numInstructions == numInstructions
              && r.value.instructions == t.emitted
              && r.value.startShape == Last(startShape, t.emitted))
    {
      var turtle := new MarkovTurtle(weights, supplied, numInstructions, startShape);
      var result := turtle.GetInstructions(draws);
      match result
      case Err(e) =>
        r := Err(e);
      case Ok(shapes) =>
        turtle.instructions := shapes;
        r := Ok(turtle);
    }

    /**
      wall_check: lift the pen, move it back inside [-500, 500] on each axis
      that strayed beyond, and put it down again.
    */
    method WallCheck()
      modifies pen
      ensures pen.x == ClampAxis(old(pen.x)) && pen.y == ClampAxis(old(pen.y))
      ensures -500.0 <= pen.x <= 500.0 && -500.0 <= pen.y <= 500.0
      ensures pen.down
    {
      pen.down := false;
      if pen.x > 500.0 {
        pen.x := 450.0;
      } else if pen.x < -500.0 {
        pen.x := -450.0;
      }
      if pen.y < -500.0 {
        pen.y := -450.0;
      } else if pen.y > 500.0 {
        pen.y := 450.0;
      }
      pen.down := true;
    }
  }

  /**
    With the generated table, a walk that starts from one of the seven default
    shapes never fails, and its outcome is the requested number of shapes.
  */
  lemma GeneratedWalkSucceeds(weights: seq<Uniform>, start: Shape, draws: seq<Uniform>)
    requires |weights| == DrawCount && Sum(weights) > 0.0 && start in DefaultOptions
    ensures Walk(GeneratedTable(DefaultOptions, weights), DefaultOptions, start, draws).failure.None?
    ensures |Walk(GeneratedTable(DefaultOptions, weights), DefaultOptions, start, draws).emitted| == |draws|
  {
    DefaultOptionsWellFormed();
    GeneratedTableShape(DefaultOptions, weights);
    StochasticWalkSucceeds(GeneratedTable(DefaultOptions, weights), DefaultOptions, start, draws);
  }

  /**
    The artist built with every default, as main's second one is: a
    generated table, ten instructions, starting from "circles". Its walk
    never fails and yields ten shapes, so `New` returns it.
  */
  lemma DefaultArtistSucceeds(weights: seq<Uniform>, draws: seq<Uniform>)
    requires |weights| == DrawCount && Sum(weights) > 0.0 && DefaultCount <= |draws|
    ensures var t := Walk(InitialTable(None, weights), InitialOptions(None), DefaultStart,
                          draws[..Steps(DefaultCount)]);
      t.failure.None? && |t.emitted| == 10
  {
    GeneratedWalkSucceeds(weights, DefaultStart, draws[..Steps(DefaultCount)]);
  }

  /** With the generated table, a start shape that is not one of the defaults fails the first step. */
  lemma GeneratedWalkUnknownStart(weights: seq<Uniform>, start: Shape, draws: seq<Uniform>)
    requires |weights| == DrawCount && Sum(weights) > 0.0 && start !in DefaultOptions && |draws| > 0
    ensures Walk(GeneratedTable(DefaultOptions, weights), DefaultOptions, start, draws)
         == Trace([], Some(UnknownShape(start)))
  {
    var p := Normalize(weights);
    FillEntries(map[], DefaultOptions, BuildRow(DefaultOptions, p));
    assert start !in GeneratedTable(DefaultOptions, weights);
    var t := Walk(GeneratedTable(DefaultOptions, weights), DefaultOptions, start, draws[..1]);
    assert draws[..1][..0] == draws[..0];
    assert t == Trace([], Some(UnknownShape(start)));
    FailureIsFinal(GeneratedTable(DefaultOptions, weights), DefaultOptions, start, draws, 1);
  }

  /** The row main gives every shape of its first artist. */
  const ExampleRow: Row :=
    map["circles" := 0.2, "squares" := 0.1, "dots" := 0.1, "random walk" := 0.3,
        "circular helix" := 0.1, "hexagonal helix" := 0.1, "flower" := 0.1]

  /** main's first artist: the seven default shapes, each with the same row. */
  const ExampleTable: SuppliedTable :=
    SuppliedTable(DefaultOptions,
      map["circles" := ExampleRow, "squares" := ExampleRow, "dots" := ExampleRow,
          "random walk" := ExampleRow, "circular helix" := ExampleRow,
          "hexagonal helix" := ExampleRow, "flower" := ExampleRow])

  /** main's row, read along the default shapes, is a probability distribution. */
  lemma ExampleRowIsDistribution()
    ensures forall o :: o in DefaultOptions ==> o in ExampleRow
    ensures NonNegative(Weights(ExampleRow, DefaultOptions))
    ensures Sum(Weights(ExampleRow, DefaultOptions)) == 1.0
  {
    var w := Weights(ExampleRow, DefaultOptions);
    assert w == [0.2, 0.1, 0.1, 0.3, 0.1, 0.1, 0.1];
    ExampleRowSum(w);
  }

  lemma ExampleRowSum(w: seq<real>)
    requires w == [0.2, 0.1, 0.1, 0.3, 0.1, 0.1, 0.1]
    ensures Sum(w) == 1.0
  {
    assert w[..0] == [] && w[..7] == w;
    SumStep(w, 0); SumStep(w, 1); SumStep(w, 2); SumStep(w, 3);
    SumStep(w, 4); SumStep(w, 5); SumStep(w, 6);
  }

  /**
    main's written table is a valid caller table whose rows are probability
    distributions, so its walk from any of its shapes never fails.
  */
  lemma ExampleTableWalkSucceeds(start: Shape, draws: seq<Uniform>)
    requires start in ExampleTable.keys
    ensures ExampleTable.Valid()
    ensures Walk(ExampleTable.rows, ExampleTable.keys, start, draws).failure.None?
    ensures |Walk(ExampleTable.rows, ExampleTable.keys, start, draws).emitted| == |draws|
  {
    DefaultOptionsWellFormed();
    ExampleRowIsDistribution();
    assert ExampleTable.rows.Keys == Elements(DefaultOptions);
    assert forall o :: o in DefaultOptions ==> ExampleTable.rows[o] == ExampleRow;
    assert Stochastic(ExampleTable.rows, ExampleTable.keys);
    StochasticWalkSucceeds(ExampleTable.rows, ExampleTable.keys, start, draws);
  }
}
