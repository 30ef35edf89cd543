# treenode, modelled in Dafny

The modelled package turns a comma-separated level-order list of integers and
`null` markers into a binary tree. The core is `treenode.go`, in two stages:

- `treeSlice.normalize` rewrites the compact level-order list, in which the
  children of a `null` are left out, into a heap-indexed array: entry `i`'s
  children sit at `2i+1` and `2i+2`. It scans left to right; at a `null`
  whose first child slot lies inside the array it inserts two `null`s there
  and restarts the scan one step further on; the first `null` whose child
  slot lies past the end stops it.
- `treeSlice.treeNode` rejects a null root with "wrong root value", splits the
  array into levels of 1, 2, 4, ... entries and builds the nodes bottom-up,
  giving the node at position `p` of a level the nodes at `2p` and `2p+1` of
  the level below as children.
- `GetTreeNode` tokenizes, normalizes, then reconstructs.

Files:

- `values.dfy` (`TreeValues`): `NilInt` (the source's `{value, null}` struct;
  the field is called `isNull` because `null` is a Dafny keyword),
  `NewInt`, `NewNil`, the tree datatype and `Pow2`.
- `normalization.dfy` (`Normalization`): `Run`, the scan as a function with a
  bound on the number of insertions; `Halts` and `Normalized`; the lemmas about
  what a halting scan does (it only inserts nulls, leaving every input entry
  in its relative place) and when it never halts.
- `reconstruction.dfy` (`Reconstruction`): `Build`, the heap decoding
  (`Nil` past the end or at a null, else `Node(a[i], Build(2i+1), Build(2i+2))`),
  the level split and the per-level node construction.
- `compact.dfy` (`CompactEncoding`): the compact level-order encoding the
  input is written in, its breadth-first decoding `Compact`, and the proof
  that normalization stops on exactly the well-formed compact lists and turns
  each into the heap array whose decoding is `Compact`.
- `treeslice.dfy` (`TreeSlices`): the class `TreeSlice` holding the token array
  that `Normalize` grows in place and `TreeNode` reads, the loops they use, and
  `GetTreeNode`.
- `examples_normalize.dfy`, `examples_treenode.dfy`: the repository's test
  cases and the inputs on which normalization never returns.

How the scan is modelled. `normalize(start, lvl)` keeps `levelIndex0` (first
index of the current level), `limit` (its width) and `lvl`. `levelIndex0` is
computed as the sum of `2^l` for `l < lvl`, so `limit == levelIndex0 + 1`
holds on entry and after every level advance, and the insertion index
`levelIndex0 + limit + (i - levelIndex0) * 2` is always `2i+1`.
`TreeSlice.Normalize` keeps all three variables and proves this as a loop
invariant. The tail call `tl.normalize(i+1, lvl)` becomes the loop going on
at `i+1` with `levelIndex0` and `limit` recomputed from `lvl`, skipping the
level-advance test as the restarted call does; since the insertion index does
not depend on that test, the bookkeeping never affects the result.

The scan does not stop on every input: on `1,null,null,null`, on `null,5`,
on `1,2,3,null,null,null,null,null` it never returns: each insertion is
followed by the call `tl.normalize(i+1, lvl)`, and that recursion is
unbounded (`Diverges`). So
`Normalize` requires `Halts(tokens, start)`, that some number of insertions
ends the scan, and promises the array `Normalized` that this bounded scan
yields.

Which inputs stop is answered exactly. In the compact level-order encoding
the children of a null are left out, so the present token of rank `r` (the
`r`-th present token) has its children at `2r+1` and `2r+2`. A list is
well formed when every token after the root fills a child slot of an earlier
present token: among the first `j` tokens more than `(j-1)/2` are present.
`HaltsIffWellFormed` proves that the scan from 0 stops exactly on the
well-formed lists, and `NormalizeDecodesCompact` that the heap decoding of
the array it leaves is the breadth-first decoding `Compact` of the list.
The proof reads the array halfway through the scan (`MidScan`): every token
before the scan position owns a pair of child slots, nulls included, and so
does every present token after it; each step of the scan leaves that tree
unchanged. `GetTreeNode` therefore requires a well-formed list and
returns `Compact(tokens, 0)`. Normalization is not idempotent:
`1,null,2,null,3` becomes `1,null,2,null,null,null,3`, and a second scan of
that never returns (`NormalizeTwiceNeverStops`). The unchanged test inputs are fixed points only
because their first null's child slot lies past the end. The model follows the
code.

## Model

| member | source | states |
|---|---|---|
| TreeSlices.TreeSlice.Normalize | treenode.go:33-67 | the array after the scan from `start` is `Normalized(old array, start)`; the loop keeps `levelIndex0 == 2^lvl - 1` and `limit == 2^lvl`, so the insertion index is `2i+1` |
| TreeSlices.TreeSlice.InsertNullPair | treenode.go:47-50 | appending two entries, copying the tail two places right and writing two nulls at `pos` leaves the array with two nulls inserted at `pos`, every later entry moved two places right |
| TreeSlices.LevelIndex | treenode.go:34-37 | summing `2^l` for `l < lvl` gives `2^lvl - 1`, the first index of level `lvl` |
| Normalization.RunKeepsNonNulls | treenode.go:43-53 | a halting scan grows the array by an even number of entries, keeps the present values in their order, and keeps the last entry last |
| Normalization.RunAddsOnlyNils | treenode.go:45-50 | what a halting scan adds to the multiset of entries is null markers and nothing else |
| Normalization.RunInsertsOnlyNulls | treenode.go:41-56 | a halting scan leaves every input entry, nulls included, in its relative place and adds null markers only (`NullsInsertedInto`: the input runs through the result in order, every other entry is `NewNil()`) |
| Normalization.Run | treenode.go:41-56 | the scan from `i` allowing `fuel` insertions: past the end it stops; a present entry is skipped; a null whose child slot `2i+1` is inside the array gets two nulls inserted there, the scan going on at `i+1` (the call at line 52), and `None` when the allowance is spent; any other null ends the scan (line 55) |
| Normalization.InsertNils | treenode.go:47-50 | making room for a null pair at `pos` lengthens the array by two |
| Normalization.InsertNilsShifts | treenode.go:47-50 | the entries before `pos` stay put and those from `pos` on move two places right, as the `copy` at line 48 moves them |
| TreeValues.NewInt | treenode.go:168-170 | a present token carrying `x` |
| TreeValues.NewNil | treenode.go:172-174 | the null marker, with value 0, so all nulls the code builds are equal |
| Normalization.RunKeepsPrefix | treenode.go:41-56 | the entries before `2i+1` never move once the scan has reached `i`; in particular entry 0 is kept |
| Normalization.RunExpandsNulls | treenode.go:41-56 | when the scan from 0 stops, every null at `j` has either `2j+1` past the end or nulls at both `2j+1` and `2j+2` |
| Normalization.Diverges | treenode.go:41-56 | standing on a null with only nulls up to its child slot `2i+1`, which lies inside the array, the scan never returns: it keeps inserting, however many insertions it is allowed |
| NormalizeExamples.NeverStopsOnExtraTrailingNull | treenode.go:41-56 | the scan over `1,null,null,null` never returns |
| NormalizeExamples.NullRootHaltsOnlyAlone | treenode.go:207-209 | with a null root the scan stops exactly when the input is the single null, so "wrong root value" is reached only on that input |
| NormalizeExamples.NormalizeTwiceNeverStops | treenode.go:41-56 | `1,null,2,null,3` normalizes to `1,null,2,null,null,null,3`, and normalizing that again never returns |
| NormalizeExamples.NormalizeInsertsBeforeLast | treenode_test.go:47-80 | `8,3,10,1,6,null,14,null,null,4,7,13` normalizes to the same list with nulls at indices 11 and 12 |
| NormalizeExamples.NormalizeKeepsFullHeap | treenode_test.go:19-46 | `3,5,1,6,2,9,8,null,null,7,4` is left unchanged |
| TreeNodeExamples.NormalizeThreeNodes | treenode_test.go:81-92 | `1,2,3` is left unchanged |
| TreeSlices.PairUp | treenode.go:103-110 | copying a level two entries at a time (the last alone) yields the level's values unchanged |
| Reconstruction.LevelSize | treenode.go:84-101 | level 0 is the root alone; level `k` holds `min(2^k, remaining)` entries |
| TreeSlices.SplitLevels | treenode.go:84-113 | the split yields one entry per level, level `k` being the up to `2^k` entries from index `2^k - 1`, and stops at the first level whose start lies past the end |
| Reconstruction.LevelsConcat | treenode.go:84-113 | the levels, concatenated in order, are the array |
| TreeSlices.BuildRow | treenode.go:118-144 | a null entry gives no node; a present entry at position `p` gets the value and, as children, the nodes at `2p` and `2p+1` of the level below when they exist |
| Reconstruction.MakeNodeIsBuild | treenode.go:118-147 | when the level below holds the heap decodings of its entries, the node built at position `p` of level `n` is the heap decoding of entry `2^n - 1 + p` |
| TreeSlices.BuildBottomUp | treenode.go:115-147 | building the levels deepest first, each level's nodes are the heap decodings of its entries, so the one node of level 0 is `Build(array, 0)` |
| TreeSlices.TreeSlice.TreeNode | treenode.go:79-148 | a null root gives the error "wrong root value"; otherwise the result is `Build(array, 0)`, a node carrying element 0's value |
| Reconstruction.BuildPlacesEveryEntry | treenode.go:118-147 | for an array shaped as the scan leaves it, the subtree at every heap index `j` of the rebuilt tree is the decoding of entry `j`: each present entry is the node at its heap position, each null is no node |
| TreeSlices.GetTreeNode | treenode.go:200-210 | on a well-formed compact list the normalization stops; a null root gives "wrong root value"; otherwise the result is the breadth-first decoding `Compact(tokens, 0)`, equal to `Build(Normalized(tokens), 0)`, and every heap index of the tree holds the decoding of the normalized entry there |
| CompactEncoding.HaltsIffWellFormed | treenode.go:41-56 | the scan from 0 stops if and only if the list is a well-formed compact level-order list |
| CompactEncoding.NormalizeDecodesCompact | treenode.go:41-56 | on a well-formed compact list the scan stops, and the heap decoding of the array it leaves is the breadth-first decoding of the list |
| CompactEncoding.ScanHalts | treenode.go:41-56 | a scan whose every later slot has its owner before it stops: the next present token is at most `2i`, so each insertion brings the scan closer to it |
| CompactEncoding.RunNeedsWellFormed | treenode.go:41-56 | a scan that stops was well formed at the position it started from |
| CompactEncoding.RunDecodesMidScan | treenode.go:41-56 | the heap decoding of what a halting scan leaves is the mid-scan tree at its start |
| CompactEncoding.MidScanInsert | treenode.go:44-53 | inserting the two null children of the null at `i` and moving on to `i+1` leaves the mid-scan tree unchanged, every token shifted past the insertion |
| CompactEncoding.MidScanSkipPresent | treenode.go:41-64 | moving past a present token leaves the mid-scan tree unchanged |
| CompactEncoding.MidScanAtStop | treenode.go:41-66 | where the scan stops, the mid-scan tree is the heap decoding |
| CompactEncoding.MidScanAtStart | treenode.go:41-56 | before the scan, the mid-scan tree is the breadth-first decoding |
| TreeNodeExamples.GetTreeNodeThreeNodes | treenode_test.go:195-210 | `1,2,3` gives root 1 with leaves 2 and 3 |
| TreeNodeExamples.NormalizeRightChain | treenode.go:41-56 | `1,null,2,null,3,null,4,null,5` normalizes, after 11 insertions, to the 31-entry heap array with 1, 2, 3, 4, 5 at indices 0, 2, 6, 14, 30 |
| TreeNodeExamples.GetTreeNodeRightChain | treenode_test.go:211-234 | `1,null,2,null,3,null,4,null,5` gives the right-only chain 1, 2, 3, 4, 5 |
| TreeNodeExamples.NormalizeOmittedSubtree | treenode.go:10-20 | `3,5,1,6,7,4,2,null,null,null,null,null,null,9,8` is left unchanged |
| TreeNodeExamples.GetTreeNodeOmittedSubtree | treenode_test.go:235-274 | that list gives 3 with children 5 (leaves 6, 7) and 1 (leaf 4, and 2 with leaves 9 and 8) |

## Left out

- `toTreeSlice` (treenode.go:180-198), `NewTreeString` and the `TreeString` type: splitting on commas and `strconv.Atoi` are not modelled; the pipeline starts from the token sequence, and the `" null"` parse-error test belongs to this part. Because `strings.Split` never yields an empty slice, `GetTreeNode` and `TreeNode` require at least one token.
- `NilInt.Value` (treenode.go:161-166): an accessor returning `interface{}`; the model reads the fields.
- `math.Pow` on `float64` is used only for powers of two and is modelled as the integer `Pow2`.
- Go's `int` is 64-bit; token values are only copied, never computed with, so the model uses unbounded integers. Index arithmetic is taken not to overflow.
- The maps `byLvl` and `nodeByLvl` are sequences indexed by level; the missing key `nodeByLvl[lvl+1]` is an empty entry at the end. The always-true test `n <= lvl` at treenode.go:126 is dropped.
- Pointer identity of `*TreeNode` is not modelled: the tree is an algebraic datatype, `nil` is `Nil`.
- TreeSlices.TreeSlice.Normalize: termination on arbitrary input is not claimed, because on some inputs the source never returns (the recursion `tl.normalize(i+1, lvl)` is unbounded); the method requires that the scan stops (`Halts`).
- TreeSlices.GetTreeNode: requires a well-formed compact list, because on any other list the source never returns (`HaltsIffWellFormed`).
