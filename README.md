# rust-workspaces: the DOT exporter and the Kani tutorial functions

This project models the two parts of the `rust-workspaces` repository that
hold logic of their own, and proves properties of them in Dafny.

1. **The stack-graph DOT exporter** (`to_dot` and `get_node_attributes` in
   the tree-sitter-stack-graphs playground). It is a read-only serialiser
   from a stack graph to Graphviz DOT text. The graph is modelled as its
   nodes in `iter_nodes` order, each with its kind and the `Debug` text of its
   handle, plus the sinks of each node's outgoing edges in `outgoing_edges`
   order. The output is specified as a function `Dot(g)`, the concatenation of
   a sequence of lines `Lines(g)`. The method `ToDot` builds the text by
   appending in loops, as the source does, and is proved to return `Dot(g)`.
   Lemmas then pin down the text: the fixed header, one statement per node in
   node order, the edge comment, one statement per out-edge grouped by
   source, and the closing brace. When no handle text holds a newline,
   splitting the output at newlines gives back exactly these lines.
2. **The Kani tutorial functions**: `estimate_size` in three versions,
   `get_wrapped`, `initialize_prefix`, `Inventory` with its `update`, `get`
   and the `any_inventory` builder, `Rating`, `simple_addition` and
   `find_midpoint`. Rust's fixed-width integers are subset types (module
   `Machine`). A Rust panic (`panic!`, a failed `assert!`, an add overflow,
   an index out of bounds) is an explicit result: `Outcome.Panics` with its
   reason. The precise condition under which each function is safe is
   therefore proved as an "if and only if" about that result. The planted
   bugs are kept as written. Each unconstrained harness that fails gets a
   lemma naming an input on which it fails. Each `kani::assume` is a
   `requires`, and each `assert!` is an `ensures` or holds by a subset type
   (a `NonZeroU32` is never 0).

Files: `machine.dfy` (integer types, `Outcome`, `Option`), `dot_export.dfy`,
`first_steps_v1.dfy`, `first_steps_v2.dfy`, `work_kani.dfy`, `inventory.dfy`,
`exercise_solution.dfy`, `rating.dfy`, `bounds_check.dfy`,
`loops_unwinding.dfy`, `overflow.dfy`, `overflow_quicksort.dfy`.

`to_dot` only reads the graph. Here `Dot` is a function of the graph value,
and `ToDot` has no `modifies` clause. So equal graphs give identical text,
and exporting changes nothing.

## Model

| member | source | states |
|---|---|---|
| DotExport.ToDot | work/tree-sitter-stack-graphs/src/dot_export.rs:11-44 | appending the header, the node statements, the edge comment, the edge statements and `}\n` yields exactly `Dot(g)` |
| DotExport.PushNodeStatements | work/tree-sitter-stack-graphs/src/dot_export.rs:20-28 | the node loop appends exactly one statement per node, in `iter_nodes` order |
| DotExport.PushEdgeStatements | work/tree-sitter-stack-graphs/src/dot_export.rs:31-40 | the edge loop appends the out-edge statements of every node, node after node |
| DotExport.PushOutEdges | work/tree-sitter-stack-graphs/src/dot_export.rs:33-39 | the inner loop appends one `"<src>" -> "<sink>";` statement per outgoing edge, in edge order |
| DotExport.NodeToString | work/tree-sitter-stack-graphs/src/dot_export.rs:47-49 | `node_to_string`: the handle's `Debug` text, which every node statement, edge statement and label uses |
| DotExport.GetNodeAttributes | work/tree-sitter-stack-graphs/src/dot_export.rs:52-75 | pushing three attributes and joining them with `", "` gives exactly `fillcolor="<c>", style="filled", label="<id>"`; the label is the same `node_to_string` text used in the node and edge statements |
| DotExport.Color | work/tree-sitter-stack-graphs/src/dot_export.rs:57-67 | the fill colour chosen for each node kind; `ColorTable` states the table it implements |
| DotExport.ColorTable | work/tree-sitter-stack-graphs/src/dot_export.rs:57-67 | Scope is lightblue, both pushes lightgreen, both pops lightpink, DropScopes yellow, JumpTo orange, Root purple; a kind is white if and only if the table does not list it |
| DotExport.NodeLines | work/tree-sitter-stack-graphs/src/dot_export.rs:21-28 | there is one node statement per node, and the `h`-th is the statement of node `h` |
| DotExport.OutEdgeLines | work/tree-sitter-stack-graphs/src/dot_export.rs:33-39 | there is one edge statement per outgoing edge of a node, and the `k`-th names its `k`-th sink |
| DotExport.EdgeLinesCount | work/tree-sitter-stack-graphs/src/dot_export.rs:32-40 | the number of edge statements equals the total number of outgoing edges |
| DotExport.EdgeLineAt | work/tree-sitter-stack-graphs/src/dot_export.rs:32-40 | edge `k` of node `h` has its statement at position (out-edges of the nodes before `h`) + `k`: grouped by source in node order, then in edge order |
| DotExport.EdgeLineSource | work/tree-sitter-stack-graphs/src/dot_export.rs:32-40 | conversely, every edge statement is the statement of one outgoing edge, at that position |
| DotExport.DotLayout | work/tree-sitter-stack-graphs/src/dot_export.rs:12-42 | the output has 9 + nodes + edges lines: six header lines, the node statements in node order, a blank line and `// Edges`, the edge statements, and `}`; all node statements come before the edge comment and all edge statements after it |
| DotExport.DotFraming | work/tree-sitter-stack-graphs/src/dot_export.rs:12-42 | the text is the fixed preamble (`digraph StackGraph {`, the attribute comment, `graph [rankdir=LR];`, `node [shape=box, style=rounded];`, a blank line, `// Nodes`), then the node statements, then a blank line and `// Edges`, then the edge statements, then `}\n` |
| DotExport.EmptyGraphDot | work/tree-sitter-stack-graphs/src/dot_export.rs:11-43 | a graph without nodes yields only the preamble, the edge comment and the closing brace |
| DotExport.DotLines | work/tree-sitter-stack-graphs/src/dot_export.rs:11-43 | when no handle text holds a newline, cutting the output after each newline gives back exactly the lines laid out above, so the statements are the text's actual lines |
| EstimateSizeV1.EstimateSize | kani-tutorial/first-steps-v1/src/lib.rs:2-22 | panics if and only if x = 1023, with the corner-case message; otherwise returns one of 1, 3, 5, 7, 9 |
| EstimateSizeV1.EstimateSizeBands | kani-tutorial/first-steps-v1/src/lib.rs:3-20 | x < 128 gives 1, 128..255 gives 3, 256..1022 gives 5, 1024..2047 gives 7, 2048 and above gives 9 |
| EstimateSizeV1.ItWorks | kani-tutorial/first-steps-v1/src/lib.rs:29-32 | `estimate_size(1024)` returns 7 |
| EstimateSizeV1.CheckEstimateSizeFails | kani-tutorial/first-steps-v1/src/lib.rs:43-48 | the unconstrained harness cannot succeed: some `u32` makes the function panic |
| EstimateSizeV1.FromLittleEndian | kani-tutorial/first-steps-v1/src/lib.rs:50-55 | four playback bytes decode little-endian to the `u32` whose bytes they are |
| EstimateSizeV1.ConcretePlaybackIsCornerCase | kani-tutorial/first-steps-v1/src/lib.rs:49-56 | the recorded playback bytes [255, 3, 0, 0] encode 1023, on which the function panics |
| EstimateSizeV2.EstimateSize | kani-tutorial/first-steps-v2/src/lib.rs:2-24 | the assertion fails if and only if x ≥ 4096; otherwise the result is one of 1, 3, 4, 5, 7, 9 |
| EstimateSizeV2.EstimateSizeBands | kani-tutorial/first-steps-v2/src/lib.rs:5-23 | x < 128 gives 1, 128..255 gives 3, 256..1022 gives 5, 1023 gives 4, 1024..2047 gives 7, 2048..4095 gives 9 |
| EstimateSizeV2.ItWorks | kani-tutorial/first-steps-v2/src/lib.rs:31-34 | `estimate_size(1024)` returns 7 |
| EstimateSizeV2.VerifySuccess | kani-tutorial/first-steps-v2/src/lib.rs:45-52 | under the assumption x < 4096 the call returns, and its result is below 10 |
| EstimateSizeV2.WillFail | kani-tutorial/first-steps-v2/src/lib.rs:54-59 | without the assumption some input makes the assertion fail |
| EstimateSizeV2.AgreesWithFirstVersion | kani-tutorial/first-steps-v2/src/lib.rs:11-16 | below 4096 the fixed version agrees with the first one everywhere except 1023, where the first panics and the fix returns 4 |
| EstimateSizeWork.EstimateSize | work/kani/src/lib.rs:2-23 | panics if and only if x = 1023; otherwise returns one of 1, 3, 5, 7, 9 |
| EstimateSizeWork.SameAsFirstSteps | work/kani/src/lib.rs:3-21 | equals the tutorial's first version on every input, hence x < 128 gives 1, 128..255 gives 3, 256..1022 gives 5, 1024..2047 gives 7, 2048 and above gives 9 |
| EstimateSizeWork.ItWorks | work/kani/src/lib.rs:37-40 | `estimate_size(1024)` returns 7 |
| EstimateSizeWork.CheckEstimateSizeFails | work/kani/src/lib.rs:25-30 | the unconstrained harness cannot succeed |
| Inventories.Inventory.constructor | kani-tutorial/arbitrary-variables/src/inventory.rs:27-29 | a new inventory holds no product |
| Inventories.Inventory.Update | kani-tutorial/arbitrary-variables/src/inventory.rs:11-13 | the map gains or replaces exactly the entry for `id`; afterwards `get(id)` is the new quantity, whatever was there before, and `get` of every other id is unchanged |
| Inventories.Inventory.Get | kani-tutorial/arbitrary-variables/src/inventory.rs:15-17 | returns a quantity if and only if `id` is stored, and then the stored one |
| Inventories.Inventory.FromMap | kani-tutorial/arbitrary-variables/src/exercise_solution.rs:22 | `Inventory { inner }`: the new inventory holds exactly the given map |
| Inventories.SafeUpdate | kani-tutorial/arbitrary-variables/src/inventory.rs:24-42 | the harness `safe_update`: on a new inventory, `get` after `update` returns the quantity just written |
| Inventories.EmptyInventoryGet | kani-tutorial/arbitrary-variables/src/inventory.rs:27-29 | `get` on a new inventory returns None for every id |
| InventoryBuilder.InsertedKeys | kani-tutorial/arbitrary-variables/src/exercise_solution.rs:15-20 | after the insert loop, the keys are exactly the inserted ids |
| InventoryBuilder.InsertedLatest | kani-tutorial/arbitrary-variables/src/exercise_solution.rs:15-20 | after the insert loop, each id is present and holds the quantity of its last insert |
| InventoryBuilder.InsertedSize | kani-tutorial/arbitrary-variables/src/exercise_solution.rs:15-20 | after the insert loop there are at most as many keys as inserts |
| InventoryBuilder.AnyInventory | kani-tutorial/arbitrary-variables/src/exercise_solution.rs:9-23 | `size <= bound` inserts into an empty map give the inventory `Inserted(ids, quantities)`, with at most `bound` keys, and an empty inventory when `bound` is 0 |
| InventoryBuilder.SafeUpdateWithAny | kani-tutorial/arbitrary-variables/src/exercise_solution.rs:25-39 | the harness `safe_update_with_any`: on an inventory from `any_inventory(0)`, `get` after `update` returns the quantity just written |
| Ratings.Rating.AsInt | kani-tutorial/arbitrary-variables/src/rating.rs:11-28 | the harness `check_rating`: every rating converts to a number in 1..=3 |
| Ratings.AsIntInjective | kani-tutorial/arbitrary-variables/src/rating.rs:12-16 | two ratings have the same number if and only if they are the same rating |
| Ratings.AnyRating | kani-tutorial/arbitrary-variables/src/rating.rs:35-41 | the generator gives One exactly for 0 and Two exactly for 1 (so Three for every other value) |
| Ratings.AnyRatingInvertsAsInt | kani-tutorial/arbitrary-variables/src/rating.rs:35-40 | the generator applied to a rating's number minus one gives that rating back: One, Two and Three map to 1, 2 and 3 |
| Ratings.AnyRatingCoversAll | kani-tutorial/arbitrary-variables/src/rating.rs:35-40 | every rating is produced by the generator for some choice |
| BoundsCheck.GetWrapped | kani-tutorial/kinds-of-failure/src/bounds_check.rs:2-11 | an empty slice gives 0; a nonempty slice gives one of its elements; the index is always in bounds, so no input panics |
| BoundsCheck.GetWrappedUnchecked | kani-tutorial/kinds-of-failure/src/bounds_check.rs:7 | the `get_unchecked` variant: undefined behaviour only on an out-of-bounds read, otherwise an element of the slice (or 0 when it is empty) |
| BoundsCheck.UncheckedIsDefined | kani-tutorial/kinds-of-failure/src/bounds_check.rs:3-10 | after the early return the unchecked index is always in bounds, so the variant is never undefined and returns exactly what `get_wrapped` returns |
| BoundsCheck.GetWrappedInBounds | kani-tutorial/kinds-of-failure/src/bounds_check.rs:10 | on an index already below the length, the result is `a[i]` |
| BoundsCheck.GetWrappedPeriodic | kani-tutorial/kinds-of-failure/src/bounds_check.rs:10 | moving the index on by the slice's length reads the same element |
| BoundsCheck.GetWrappedOffByOne | kani-tutorial/kinds-of-failure/src/bounds_check.rs:6 | the commented variant `a[i % a.len() + 1]` panics if and only if the slice is nonempty and `i % len = len - 1` |
| BoundsCheck.BoundCheck | kani-tutorial/kinds-of-failure/src/bounds_check.rs:26-34 | the harness `bound_check`: for every size below 4096 and every index the call returns, and returns 0 on the zero vector |
| BoundsCheck.BoundCheckFailsOffByOne | kani-tutorial/kinds-of-failure/src/bounds_check.rs:36 | with the off-by-one variant the same harness fails (size 1, index 0), which is the recorded failing check |
| LoopsUnwinding.ZeroPrefixAt | kani-tutorial/loops-unwinding/src/lib.rs:7-9 | after `n` loop iterations the first `n` bytes are 0 and the others are as before |
| LoopsUnwinding.InitializePrefix | kani-tutorial/loops-unwinding/src/lib.rs:2-10 | `length > len` returns at once with the buffer unchanged; `length < len` returns after zeroing the `length + 1` bytes `0..=length`; `length == len` zeroes the whole buffer and then panics on the write to index `length` |
| LoopsUnwinding.CheckInitializePrefix | kani-tutorial/loops-unwinding/src/lib.rs:12-31 | the harness: on a buffer of ten ones and `length <= 10`, the call panics if and only if `length == 10`; bytes `0..=length` end as 0 and the rest stay 1 |
| Overflow.SimpleAddition | kani-tutorial/kinds-of-failure/src/overflow.rs:2-5 | returns if and only if a + b ≤ 4294967295, and then returns the mathematical sum; otherwise it panics with the add-overflow error |
| Overflow.CheckedAdd | kani-tutorial/kinds-of-failure/src/overflow.rs:6-8 | the `checked_add` fix gives Some of the sum, or None only when the sum does not fit |
| Overflow.CheckedAddReportsOverflow | kani-tutorial/kinds-of-failure/src/overflow.rs:2-8 | the fix returns Some exactly where the original returns, with the same value, and None exactly where it panics |
| Overflow.AddOverflowFails | kani-tutorial/kinds-of-failure/src/overflow.rs:15-29 | the unconstrained proptest and Kani harness cannot succeed: the largest `u32` plus 1 overflows |
| OverflowQuicksort.FindMidpoint | kani-tutorial/kinds-of-failure/src/overflow_quicksort.rs:2-4 | returns if and only if low + high fits in a `u32`, and then returns (low + high) div 2; otherwise it panics with the add-overflow error |
| OverflowQuicksort.MidpointBetween | kani-tutorial/kinds-of-failure/src/overflow_quicksort.rs:3 | when low ≤ high and the sum fits, low ≤ result ≤ high |
| OverflowQuicksort.MidpointOverflowFails | kani-tutorial/kinds-of-failure/src/overflow_quicksort.rs:6-12 | the unconstrained harness `midpoint_overflow` fails, already for low = high = 2^31 |

## Left out

- The `Debug` text of a stack-graph handle is a foreign format. Each node carries it as an opaque `id` string, and `node_to_string` returns that string.
- Building stack graphs, symbol interning, scope nodes and name resolution all happen in the external `stack_graphs` library and are not part of this model. The graph enters the model as node and edge sequences. Its `Valid` predicate states the library's guarantee that every edge ends at a node of the graph.
- The host program that builds a graph from Python source and prints the DOT text is not part of this model. That program needs a parser, a rule compiler and I/O.
- The LSP linter and the LLM-agent playground are not part of this model. They are network and library glue.
- A Rust panic is modelled as a returned `Panics` value, not as unwinding. `InitializePrefix` keeps the writes done before its panic.
- Overflow is modelled as Rust's debug-build (and Kani's) overflow check. The wrapping addition of release builds is not modelled.
- Kani's unwinding assertion (the recorded failure with `unwind(1)`) is a bound of the tool, not a property of the function, so it is left out.
- The random proptest harnesses are replaced by all-inputs lemmas. The model cannot state whether 10,000 random samples happen to hit 1023.
- Kani's nondeterministic values become parameters of the harness methods. In `any_inventory` they are the number of inserts and the id and quantity of each insert. The untyped integer in `any_rating` is modelled as an `i32`, Rust's default integer type.
- `VecMap` is modelled only by its insert and lookup behaviour, as a Dafny `map`. Its internal order and storage are left out.
- Inventories.Inventory.Get: a stored quantity is never zero because the value type is `NonZeroU32`. The model states this through the type, not as an `ensures`.
