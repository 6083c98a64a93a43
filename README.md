# MarkovTurtle: a verified model of the Markov-chain instruction generator

MarkovTurtle draws abstract art with a turtle. Which shape it draws next is
decided by a Markov chain. A transition matrix maps each shape to a row of
probabilities over the next shape. The caller can supply that matrix, or it
is generated at random from the seven default shapes. A list of instructions
is then sampled by walking the chain from a start shape.

This project models that core in Dafny and proves properties of it:

- `wrappers.dfy` (module `Wrappers`) holds `Option` and `Result`.
- `categorical.dfy` (module `Categorical`) models what
  `np.random.choice(a, p=...)` does with one uniform draw. It rejects a
  vector with a negative entry, or one whose sum is further than 2^-26 from 1.
  It then divides the vector by its total and picks the first index whose
  cumulative sum lies above the draw. This module also holds the
  normalisation `probabilities /= probabilities.sum()`.
- `markov_chain.dfy` (module `MarkovChain`) holds the pure parts of the
  chain:
  - the table types;
  - the table that `generate_markov_chain` builds;
  - `next_instruction` as a function that returns a shape or an error;
  - the walk that `get_instructions` performs.
- `markov_turtle.dfy` (module `MarkovArt`) holds the object itself. The
  class `MarkovTurtle` has the fields that `__init__` sets. Its methods
  update those fields in place:
  - `GenerateMarkovChain` fills `transitionMatrix` with nested loops;
  - `GetInstructions` advances `startShape` in a while loop;
  - `WallCheck` moves the turtle's pen, a `Pen` object.

Randomness is a parameter. `np.random.random(7)` becomes a sequence of seven
reals in [0, 1). Each call of `np.random.choice` consumes one real `u` in
[0, 1) from a sequence of draws. The three exceptions the walk can raise
appear as `Error` values:

- `UnknownShape`: a KeyError on `transition_matrix[current_shape]`.
- `MissingTransition`: a KeyError on the row's `[next_option]`.
- `InvalidDistribution`: a ValueError from `np.random.choice`.

What the source does, and the model with it:

- A generated table always draws seven weights, whatever the options.
- A caller-supplied table is stored as it is, without validation. A
  malformed row is only noticed when the walk samples from it, as a KeyError
  or a ValueError.
- An empty caller table is stored without complaint. With a positive count,
  the first step then raises a ValueError (`InvalidDistribution`), because the
  sampler is handed an empty population.
- A count of zero or less gives an empty instruction list, without an error.
- `np.random.choice` accepts a row whose sum is within 2^-26 of 1, and
  renormalises it before drawing. It rejects any other row with a ValueError.
- `__init__`'s defaults are kept: no caller table, ten instructions, and the
  start shape "circles".

## Model

| member | source | states |
|---|---|---|
| Categorical.NormalizeIsDistribution | MarkovTurtle.py:54-55 | Dividing non-negative weights with a positive total by that total keeps the length. The result has no negative entry, sums to exactly 1, and has a positive entry exactly where the weights do. |
| Categorical.Choose | MarkovTurtle.py:69-71 | The sampler returns an index exactly when the vector has no negative entry and sums to within 2^-26 of 1. That index is in range, has positive probability, and its slice of the normalised cumulative sums holds the draw. |
| Categorical.ChooseSelects | MarkovTurtle.py:69-71 | For an accepted vector, a draw selects index `i` if and only if the draw lies in slice `i` of the normalised cumulative sums. That slice is `p[i] / Sum(p)` wide, so each option is drawn with its share of the total. |
| MarkovChain.DefaultOptionsWellFormed | MarkovTurtle.py:45 | The default option list has seven distinct shapes, one for each of the seven drawn weights. |
| MarkovChain.BuildRowKeys | MarkovTurtle.py:57-59 | The row built by the inner loop has exactly the options as keys. |
| MarkovChain.BuildRowEntries | MarkovTurtle.py:57-59 | Over distinct options, the built row maps the option at position `i` to probability `i`. |
| MarkovChain.BuiltRowWeights | MarkovTurtle.py:57-59 | Reading a built row back along its distinct options returns exactly the vector it was built from. |
| MarkovChain.FillEntries | MarkovTurtle.py:56-60 | After the outer loop, every option is a key and maps to the shared row. Every other key of the old table keeps its old row. |
| MarkovChain.GeneratedTableShape | MarkovTurtle.py:52-60 | The generated table is square over the options. Every row stores weight `i`, divided by the total, under option `i`. Every row is a probability distribution over the options. |
| MarkovChain.MissingOption | MarkovTurtle.py:71 | It finds an option the row lacks exactly when the row is missing some option. The option it returns is the first one in the options' order that the row lacks, the key whose lookup raises the KeyError. |
| MarkovChain.NextInstruction | MarkovTurtle.py:62-71 | A step succeeds exactly when the current row exists, covers every option and can be sampled. It then returns the option whose slice of the row's normalised cumulative sums holds the draw, and that option has positive probability in the row. Otherwise it fails with an unknown shape exactly when there are options and the current shape has no row. A missing transition names the first option, in order, that the row lacks. An invalid distribution means either no options or a row the sampler rejects. |
| MarkovChain.Walk | MarkovTurtle.py:73-80 | A walk emits at most one shape per draw, and every shape it emits is an option. Without a failure it emits exactly one shape per draw. A failed walk emits fewer. |
| MarkovChain.WalkChains | MarkovTurtle.py:76-79 | Shape `i` of a walk is what the step from the shape before it produces on draw `i`. The first shape comes from the start shape's row. A failed walk failed on the step right after its last shape. |
| MarkovChain.WalkChainsStep | MarkovTurtle.py:76-79 | If the chaining facts hold for all but the last draw, they hold for every draw. |
| MarkovChain.FailureIsFinal | MarkovTurtle.py:76-79 | Once the walk has failed, further draws change neither its output nor its error. |
| MarkovChain.WalkExtends | MarkovTurtle.py:76-79 | A step that succeeds appends its shape to the walk's output. |
| MarkovChain.WalkStopsAt | MarkovTurtle.py:76-79 | A step that fails ends the walk with that error, with the output collected so far. |
| MarkovChain.StochasticWalkSucceeds | MarkovTurtle.py:73-80 | On a table whose every row is a distribution over the options, a walk from an option never fails. It emits exactly one shape per draw. |
| MarkovChain.WalkFollowsPositiveEntries | MarkovTurtle.py:69-79 | Every emitted shape has positive probability in the row of the shape current before it. A transition of probability zero is never taken. |
| MarkovChain.AbsorbingShape | MarkovTurtle.py:73-80 | A shape whose row can be sampled and gives every other option zero weight repeats itself once per draw. |
| MarkovChain.MissingEntryRejected | MarkovTurtle.py:69-71 | Take the table `{"a": {"a": 0.5}, "b": {"a": 1.0, "b": 0.0}}` and start from "a". Its first step fails with a missing transition from "a" to "b". |
| MarkovChain.EmptyTableRejected | MarkovTurtle.py:69-71 | With an empty table and no options, the first step fails with an invalid distribution, whatever the start shape. |
| MarkovArt.ExampleRowIsDistribution | MarkovTurtle.py:232-233 | The row main writes for its first artist has an entry for every default shape. It has no negative entry and sums to exactly 1. |
| MarkovArt.ExampleTableWalkSucceeds | MarkovTurtle.py:231-245 | main's written table is a valid caller table. A walk over it from any of its shapes never fails and emits one shape per draw. |
| MarkovArt.ClampAxis | MarkovTurtle.py:127-135 | A clamped coordinate lies in [-500, 500], and it is unchanged exactly when it was already there. Above 500 it becomes 450; below -500 it becomes -450. |
| MarkovArt.ClampIdempotent | MarkovTurtle.py:124-136 | Clamping an already clamped coordinate changes nothing. |
| MarkovArt.Pen.constructor | MarkovTurtle.py:35 | A new turtle starts at the origin with its pen down. |
| MarkovArt.MarkovTurtle.constructor | MarkovTurtle.py:34-49 | Set-up stores the start shape and count, ten and "circles" when not given. The pen starts at the origin, down. The options are the caller table's keys, or the seven defaults. The table is the caller's, or the generated one. |
| MarkovArt.MarkovTurtle.GenerateMarkovChain | MarkovTurtle.py:52-60 | The nested loops store under every option the same row, built from the normalised weights. Every other pre-existing row is untouched. |
| MarkovArt.MarkovTurtle.GetInstructions | MarkovTurtle.py:73-80 | The loop returns exactly the walk over the first `numInstructions` draws, or the error of its failing step. `startShape` ends at the last shape sampled. |
| MarkovArt.MarkovTurtle.New | MarkovTurtle.py:34-50 | Construction fails exactly when collecting the instructions fails, with that error. Otherwise the new object holds the initial options and table, and its instructions are the walk from the start shape. Its `startShape` is the walk's last shape, and its pen is at the origin and down. The table, count and start shape default as in `__init__`. |
| MarkovArt.MarkovTurtle.WallCheck | MarkovTurtle.py:124-136 | Each pen coordinate is clamped into [-500, 500], and the pen ends down. |
| MarkovArt.GeneratedWalkSucceeds | MarkovTurtle.py:43-50 | With a generated table, a walk from any default shape never fails. It emits exactly one shape per draw. |
| MarkovArt.DefaultArtistSucceeds | MarkovTurtle.py:250 | The artist built with every default has a generated table, ten instructions, and starts from "circles". Its walk never fails and yields exactly ten shapes. |
| MarkovArt.GeneratedWalkUnknownStart | MarkovTurtle.py:41-50 | With a generated table, a start shape outside the defaults fails the first step with an unknown shape. |

## Left out

- The turtle and screen setup (lines 35-40) is left out, and with it the `speed` parameter and its default: speed, colours, background and window size. So are all drawing routines (lines 150-226) and `create` (lines 91-122). They are rendering with no state the chain depends on.
- `random_color_density` and `random_location` (lines 138-148) are left out: random colours, widths and positions only affect rendering.
- `draw` (lines 82-89) is left out: it prints each instruction and calls `create`.
- `main` (lines 229-258) is left out, apart from its first written table, which is modelled as `ExampleTable`. The rest is the command-line driver: it builds two artists, draws one, and waits for the window to close.
- `WallCheck` models only the pen's position and up/down state. The turtle's heading and the screen are not modelled.
- Floating point is modelled as exact reals. numpy's Kahan summation, rounding, and its rejection of NaN probabilities are not modelled.
- Categorical.Choose models numpy's default-generator inverse-CDF draw on one uniform value. It does not model numpy's actual random-bit generation, or which uniform value the generator produces.
- MarkovArt.MarkovTurtle.GenerateMarkovChain: requires the seven weights to have a positive sum. With all seven draws zero, the source would divide by zero and store NaN rows.
- MarkovArt.MarkovTurtle.GenerateMarkovChain: requires at most seven options, because the source reads `probabilities[i]` for every option position. The source only ever calls it with the seven defaults.
- MarkovArt.MarkovTurtle.GetInstructions: requires at least `numInstructions` draws to be supplied. The source has an unbounded random stream.
- The caller's table is modelled as keys in insertion order, distinct and equal to the rows' keys. Values that are not numbers, and aliasing between the caller's dictionary and the object's field, are not modelled.
- `np.random.choice` returns a numpy string rather than a Python `str`. The model treats both as the same string.
