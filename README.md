# BDEngineParser, modelled in Dafny

BDEngineParser reads a BD Engine project, which is a JSON array of project
elements. Each element is a Minecraft display entity (item, block or text) or a
collection grouping other elements. It then computes, for every element, a 4×4
world transform: the element's local `transforms` list composed with the world
transform of its parent.

This project models four pieces of that library:

- the element record `ProjectElement`, as the class `Model.Element` together with its value view `Model.Tree`;
- the matrix helpers in `TransformUtils` (module `TransformUtils`), over the value type `Matrix.Matrix4f`, which has JOML's field layout;
- the recursive world-transform pass in `WorldTransformCalculator` (module `WorldTransformCalculator`);
- the facade `BDEngineParser` (module `BDEngineParser`), covering its raw parses, its full parses and its error reporting.

How the pieces fit together:

- **Matrices are values.** `Matrix.Matrix4f` names its sixteen fields the way JOML does: `mCR` is column C, row R. `Matrix.Mul(a, b)` is JOML's `a.mul(b)`. The constructor order used by `listToMatrix4f` fills slot `i` into column `i / 4`, row `i % 4`.
- **Traversal as functions.** `WorldTransformCalculator.Visit` and `VisitAll` state on values what the Java traversal does. For each node they return the updated tree and a flag. A false flag means an `IllegalArgumentException` escaped from `listToMatrix4f`, and the traversal stopped at that node.
- **Traversal as methods.** The heap methods `CalculateTransformRecursive`, `CalculateAll` and `CalculateWorldTransforms` walk real `Element` objects. Each one is proved to leave the heap tree equal to what `Visit`/`VisitAll` compute.
- **Proved properties of the traversal.** Exactly the forests whose non-null nodes all carry 16-entry transform lists succeed. Only world transforms change. After success every node's world transform is its local matrix times its parent's, which is also a fixed point. Running the pass twice changes nothing. On failure, the nodes after the failing one are left untouched.

The code computes `local.mul(parentWorld)` in JOML's column-major storage; its class comment names this order *localMatrix × parentWorldTransform*. The scene format writes `transforms` lists row by row, and read that way the same product is *parent × local*: the two statements describe one matrix, related by transposition.
`WorldTransformCalculator.WorldIsParentTimesLocalRowMajor` and
`WorldTransformCalculator.ChildOfRootComposes` prove this equivalence.

`ProjectElement.java` declares neither a `worldTransform` field nor its
accessors. The calculator nevertheless calls `setWorldTransform`, and the
project's tests read the field back, so the model gives `Element` that
field and its setter. The decoder never fills it: decoded element lists
carry no world transform.

## Model

| member | source | states |
|---|---|---|
| Model.Element.constructor | src/main/java/dev/twme/bdengineparser/model/ProjectElement.java:11-50 | a freshly created element has every field null, owns only itself and satisfies the heap invariant |
| Model.Element.Decoded | src/main/java/dev/twme/bdengineparser/model/ProjectElement.java:13-50 | an element built from decoded attributes and a transform list holds exactly those values, with null children and no world transform, since the format has no such field; it satisfies the heap invariant and its value is the leaf tree of those attributes and that list |
| Model.Element.DecodedWithChildren | src/main/java/dev/twme/bdengineparser/model/ProjectElement.java:13-50 | an element decoded with an already-built children array holds those attributes, that list and exactly those children, with no world transform; it owns exactly itself and what its children own, satisfies the heap invariant, and its value's children are the children's values |
| Model.Element.ChildrenCount | src/main/java/dev/twme/bdengineparser/model/ProjectElement.java:256 | for a valid element, the count is 0 when its value has a null children list and otherwise the number of child entries, null entries included |
| Model.Element.SetIsCollection | src/main/java/dev/twme/bdengineparser/model/ProjectElement.java:62 | sets isCollection; every other attribute and the children, transforms and world transform are unchanged |
| Model.Element.SetName | src/main/java/dev/twme/bdengineparser/model/ProjectElement.java:74 | sets name; nothing else changes |
| Model.Element.SetNbt | src/main/java/dev/twme/bdengineparser/model/ProjectElement.java:86 | sets nbt; nothing else changes |
| Model.Element.SetTransforms | src/main/java/dev/twme/bdengineparser/model/ProjectElement.java:98 | replaces the local transform list; the attributes are unchanged |
| Model.Element.SetChildren | src/main/java/dev/twme/bdengineparser/model/ProjectElement.java:110 | replaces the children list; the attributes are unchanged |
| Model.Element.SetIsBackCollection | src/main/java/dev/twme/bdengineparser/model/ProjectElement.java:122 | sets isBackCollection; nothing else changes |
| Model.Element.SetDefaultTransform | src/main/java/dev/twme/bdengineparser/model/ProjectElement.java:134 | sets defaultTransform; nothing else changes |
| Model.Element.SetIsItemDisplay | src/main/java/dev/twme/bdengineparser/model/ProjectElement.java:146 | sets isItemDisplay; nothing else changes |
| Model.Element.SetBrightness | src/main/java/dev/twme/bdengineparser/model/ProjectElement.java:158 | sets brightness; nothing else changes |
| Model.Element.SetTagHead | src/main/java/dev/twme/bdengineparser/model/ProjectElement.java:170 | sets tagHead; nothing else changes |
| Model.Element.SetTextureValueList | src/main/java/dev/twme/bdengineparser/model/ProjectElement.java:182 | sets textureValueList; nothing else changes |
| Model.Element.SetPaintTexture | src/main/java/dev/twme/bdengineparser/model/ProjectElement.java:194 | sets paintTexture; nothing else changes |
| Model.Element.SetDefaultTextureValue | src/main/java/dev/twme/bdengineparser/model/ProjectElement.java:206 | sets defaultTextureValue; nothing else changes |
| Model.Element.SetIsBlockDisplay | src/main/java/dev/twme/bdengineparser/model/ProjectElement.java:218 | sets isBlockDisplay; nothing else changes |
| Model.Element.SetIsTextDisplay | src/main/java/dev/twme/bdengineparser/model/ProjectElement.java:230 | sets isTextDisplay; nothing else changes |
| Model.Element.SetOptions | src/main/java/dev/twme/bdengineparser/model/ProjectElement.java:242 | sets the text options; nothing else changes |
| Model.Element.SetWorldTransform | src/main/java/dev/twme/bdengineparser/internal/WorldTransformCalculator.java:51 | stores the computed world transform; the attributes are unchanged |
| Matrix.Mul | src/main/java/dev/twme/bdengineparser/internal/WorldTransformCalculator.java:48 | JOML's `a.mul(b)` on column-major 4×4 matrices; its meaning, entry by entry a dot product, is stated by `MulAt` |
| Matrix.MulAt | src/main/java/dev/twme/bdengineparser/internal/WorldTransformCalculator.java:48 | entry (column c, row r) of a·b is the dot product of row r of a with column c of b, as JOML's mul computes |
| Matrix.MulIdentityRight | src/main/java/dev/twme/bdengineparser/internal/WorldTransformCalculator.java:30-32 | multiplying by the identity that the roots receive as parent leaves a local matrix unchanged |
| Matrix.MulIdentityLeft | src/main/java/dev/twme/bdengineparser/internal/TransformUtils.java:46 | the identity that the chain in defaultTransformToMatrix4f starts from is a left unit |
| Matrix.MulAssociative | src/main/java/dev/twme/bdengineparser/internal/TransformUtils.java:46-79 | matrix products associate, so the chained scale, rotate and translate calls equal one product of three factors |
| Matrix.TransposeOfProduct | src/main/java/dev/twme/bdengineparser/internal/WorldTransformCalculator.java:48 | the transpose of a·b is the transpose of b times the transpose of a, which turns local·parent into parent×local row-major |
| Matrix.FromRowMajorIsTransposedSlots | src/main/java/dev/twme/bdengineparser/internal/TransformUtils.java:26-31 | reading a 16-entry list row-major gives the transpose of the matrix that listToMatrix4f builds |
| TransformUtils.ListToMatrix4f | src/main/java/dev/twme/bdengineparser/internal/TransformUtils.java:21-32 | succeeds exactly when the list is non-null with 16 entries; otherwise it fails with IllegalArgumentException and the fixed message; on success the matrix's slots are the list in order |
| TransformUtils.ListToMatrix4fColumnMajor | src/main/java/dev/twme/bdengineparser/internal/TransformUtils.java:26-31 | list entry i lands in column i / 4, row i % 4 |
| TransformUtils.ListToMatrix4fOfSlots | src/main/java/dev/twme/bdengineparser/internal/TransformUtils.java:26-31 | converting a matrix's sixteen slots back gives the same matrix |
| TransformUtils.ScaleScalesColumns | src/main/java/dev/twme/bdengineparser/internal/TransformUtils.java:49-56 | the scale step, JOML's `scale`, multiplies columns 0 to 2 of the matrix built so far by the three factors and keeps column 3 |
| TransformUtils.RotateXKeepsAxis | src/main/java/dev/twme/bdengineparser/internal/TransformUtils.java:65 | `rotateX` keeps the x-axis column and the translation column of the matrix built so far |
| TransformUtils.RotateYKeepsAxis | src/main/java/dev/twme/bdengineparser/internal/TransformUtils.java:64 | `rotateY` keeps the y-axis column and the translation column of the matrix built so far |
| TransformUtils.RotateZKeepsAxis | src/main/java/dev/twme/bdengineparser/internal/TransformUtils.java:66 | `rotateZ` keeps the z-axis column and the translation column of the matrix built so far |
| TransformUtils.RotationFactorFixesOrigin | src/main/java/dev/twme/bdengineparser/internal/TransformUtils.java:59-69 | whatever the angles and the trigonometry, the rotation step has translation column (0, 0, 0, 1) and bottom row (0, 0, 0, 1): a rotation about the origin |
| TransformUtils.TranslateMovesColumnThree | src/main/java/dev/twme/bdengineparser/internal/TransformUtils.java:72-79 | the translate step keeps columns 0 to 2 and replaces column 3 by the matrix applied to (x, y, z, 1) |
| TransformUtils.DefaultTransformToMatrix4f | src/main/java/dev/twme/bdengineparser/internal/TransformUtils.java:40-81 | the chained scale, rotate-Y/X/Z and translate steps on a fresh identity, each skipped when its data is absent or malformed; `DefaultTransformIsScaleRotateTranslate` proves it equals scale·(Ry·Rx·Rz)·translation |
| TransformUtils.DefaultTransformIsScaleRotateTranslate | src/main/java/dev/twme/bdengineparser/internal/TransformUtils.java:40-81 | the chained result equals scale·(Ry·Rx·Rz)·translation |
| TransformUtils.DefaultTransformOfNothingIsIdentity | src/main/java/dev/twme/bdengineparser/internal/TransformUtils.java:41-46 | a null default transform, or one with no usable scale, rotation or position, gives the identity |
| TransformUtils.ScaledTranslation | src/main/java/dev/twme/bdengineparser/internal/TransformUtils.java:49-79 | with scale and position but no rotation, the result is the scale on the diagonal and the position scaled by it in the translation column |
| TransformUtils.ZeroRotationIsIdentity | src/main/java/dev/twme/bdengineparser/internal/TransformUtils.java:59-69 | angles whose sine is 0 and cosine is 1 give the same matrix as no rotation at all |
| WorldTransformCalculator.Visit | src/main/java/dev/twme/bdengineparser/internal/WorldTransformCalculator.java:41-63 | the value-level pre-order pass over one subtree: a null node stays null and a present node stays present; an `IllegalArgumentException` from `listToMatrix4f` becomes a false flag, with the writes made before it kept |
| WorldTransformCalculator.VisitAll | src/main/java/dev/twme/bdengineparser/internal/WorldTransformCalculator.java:28-34 | the same pass over a list of siblings, in order, returning as many nodes as it was given; it stops at the first sibling that fails and keeps the earlier siblings' writes (see `VisitAllStopsAtFirstFailure`) |
| WorldTransformCalculator.VisitKeepsAllButWorld | src/main/java/dev/twme/bdengineparser/internal/WorldTransformCalculator.java:41-63 | the pass over one node changes no attribute, transform list or child structure; only world transforms change |
| WorldTransformCalculator.VisitAllKeepsAllButWorld | src/main/java/dev/twme/bdengineparser/internal/WorldTransformCalculator.java:58-62 | the same for a list of siblings: nodes are neither added, removed nor reordered |
| WorldTransformCalculator.VisitSucceedsIffWellFormed | src/main/java/dev/twme/bdengineparser/internal/WorldTransformCalculator.java:41-63 | the pass over a subtree completes without exception exactly when every non-null node in it has a 16-entry transform list |
| WorldTransformCalculator.VisitAllSucceedsIffWellFormed | src/main/java/dev/twme/bdengineparser/internal/WorldTransformCalculator.java:28-34 | the same for a forest of roots |
| WorldTransformCalculator.VisitEstablishesConsistency | src/main/java/dev/twme/bdengineparser/internal/WorldTransformCalculator.java:45-62 | after success every node's world transform is its local matrix multiplied by its parent's world transform, all the way down |
| WorldTransformCalculator.VisitAllEstablishesConsistency | src/main/java/dev/twme/bdengineparser/internal/WorldTransformCalculator.java:58-62 | the same for every sibling in a list |
| WorldTransformCalculator.ConsistentIsFixedPoint | src/main/java/dev/twme/bdengineparser/internal/WorldTransformCalculator.java:45-62 | a subtree is consistent exactly when the pass leaves it unchanged and succeeds |
| WorldTransformCalculator.AllConsistentIsFixedPoint | src/main/java/dev/twme/bdengineparser/internal/WorldTransformCalculator.java:58-62 | a forest is consistent exactly when the pass leaves it unchanged and succeeds |
| WorldTransformCalculator.VisitIdempotent | src/main/java/dev/twme/bdengineparser/internal/WorldTransformCalculator.java:41-63 | running the pass twice on a subtree gives the same tree and outcome as running it once |
| WorldTransformCalculator.VisitAllIdempotent | src/main/java/dev/twme/bdengineparser/internal/WorldTransformCalculator.java:28-34 | running the pass twice on a forest gives the same result as running it once |
| WorldTransformCalculator.VisitAllStopsAtFirstFailure | src/main/java/dev/twme/bdengineparser/internal/WorldTransformCalculator.java:58-62 | when the pass fails there is a first sibling whose subtree fails; the siblings before it are fully processed and the ones after it are untouched |
| WorldTransformCalculator.RootWorldIsLocal | src/main/java/dev/twme/bdengineparser/internal/WorldTransformCalculator.java:30-33 | after a successful pass a root's world transform is its own local matrix |
| WorldTransformCalculator.RowMajorView | src/main/java/dev/twme/bdengineparser/internal/TransformUtils.java:17 | the row-major reading of a stored matrix is its transpose |
| WorldTransformCalculator.WorldIsParentTimesLocalRowMajor | src/main/java/dev/twme/bdengineparser/internal/WorldTransformCalculator.java:45-48 | read row-major, a consistent node's world transform is the parent's world transform times its local transform |
| WorldTransformCalculator.ChildOfRootComposes | src/main/java/dev/twme/bdengineparser/internal/WorldTransformCalculator.java:28-62 | for a root T1 with a single child T2, the child's world transform read row-major is the product T1 × T2, root on the left |
| WorldTransformCalculator.CalculateWorldTransforms | src/main/java/dev/twme/bdengineparser/internal/WorldTransformCalculator.java:26-34 | a null or empty list is a no-op; otherwise the forest becomes exactly what the value-level pass computes from the identity, with the same success outcome; only the `worldTransform` fields of elements reachable from the roots may change |
| WorldTransformCalculator.CalculateTransformRecursive | src/main/java/dev/twme/bdengineparser/internal/WorldTransformCalculator.java:41-63 | for a null element nothing happens; otherwise the element's subtree becomes what the value-level pass computes from the parent's world transform, with the same footprint; only `worldTransform` fields in the subtree are written |
| WorldTransformCalculator.CalculateAll | src/main/java/dev/twme/bdengineparser/internal/WorldTransformCalculator.java:58-62 | the loop over siblings leaves the forest equal to the value-level pass over the list; only `worldTransform` fields are written |
| WorldTransformCalculator.CalculateEntry | src/main/java/dev/twme/bdengineparser/internal/WorldTransformCalculator.java:59-61 | processing one sibling updates exactly that entry of the forest, as the value-level pass does |
| BDEngineParser.Trim | src/main/java/dev/twme/bdengineparser/BDEngineParser.java:63 | like Java's `String.trim`, the result is a contiguous part of the input; everything dropped before and after it is at most a space, and a non-empty result starts and ends with a character above the space |
| BDEngineParser.TrimEmptyIffBlank | src/main/java/dev/twme/bdengineparser/BDEngineParser.java:63 | a path trims to empty exactly when every character is at most a space |
| BDEngineParser.JsonStringRaw | src/main/java/dev/twme/bdengineparser/BDEngineParser.java:111-125 | null input fails with IllegalArgumentException; a decoded array is returned as is, without world transforms; a JSON null fails with the null-result message and no cause; a syntax error fails with the syntax message and the decoder's error as cause |
| BDEngineParser.InputStreamRaw | src/main/java/dev/twme/bdengineparser/BDEngineParser.java:85-101 | null stream fails with IllegalArgumentException; a JSON null and a syntax error fail with their messages, the syntax error keeping its cause; a decoded array is returned unless closing the reader then fails, which gives the read-error message with the I/O error as cause |
| BDEngineParser.FileRaw | src/main/java/dev/twme/bdengineparser/BDEngineParser.java:62-75 | a null or blank path fails with IllegalArgumentException; otherwise the file is read and parsed, and a success carries no world transforms |
| BDEngineParser.FileRawParsesContent | src/main/java/dev/twme/bdengineparser/BDEngineParser.java:66-69 | for a readable file the result is that of parsing the file's text as a JSON string |
| BDEngineParser.FileRawReadFailures | src/main/java/dev/twme/bdengineparser/BDEngineParser.java:70-74 | an invalid path or a read error fails with a parsing exception carrying that cause |
| BDEngineParser.FullParse | src/main/java/dev/twme/bdengineparser/BDEngineParser.java:138-142 | a failed raw parse is passed on unchanged; a raw parse whose forest holds a node without a 16-entry transform list fails with the `IllegalArgumentException` message of `listToMatrix4f` |
| BDEngineParser.FullParseCorrect | src/main/java/dev/twme/bdengineparser/BDEngineParser.java:185-189 | a full parse succeeds exactly when the raw parse does and every node has a 16-entry list; its result then has the same elements with consistent world transforms |
| BDEngineParser.Build | src/main/java/dev/twme/bdengineparser/BDEngineParser.java:116-117 | building an element from a decoded node without world transforms gives a fresh element whose tree is that node, and null for null |
| BDEngineParser.BuildAll | src/main/java/dev/twme/bdengineparser/BDEngineParser.java:116-117 | building a decoded list gives fresh elements whose forest is that list |
| BDEngineParser.ParseJsonStringRaw | src/main/java/dev/twme/bdengineparser/BDEngineParser.java:111-125 | returns fresh elements denoting the result of JsonStringRaw, or its error |
| BDEngineParser.ParseFromInputStreamRaw | src/main/java/dev/twme/bdengineparser/BDEngineParser.java:85-101 | returns fresh elements denoting the result of InputStreamRaw, or its error |
| BDEngineParser.ParseFromFileRaw | src/main/java/dev/twme/bdengineparser/BDEngineParser.java:62-75 | returns fresh elements denoting the result of FileRaw, or its error |
| BDEngineParser.CalculateWorldTransformsForElements | src/main/java/dev/twme/bdengineparser/BDEngineParser.java:185-189 | a null or empty list is a no-op; otherwise the forest becomes what the value-level pass computes |
| BDEngineParser.CalculateOnParsed | src/main/java/dev/twme/bdengineparser/BDEngineParser.java:139-141 | after a raw parse the world-transform pass turns its result into what FullParse says |
| BDEngineParser.ParseJsonString | src/main/java/dev/twme/bdengineparser/BDEngineParser.java:168-172 | returns elements denoting FullParse of the raw JSON-string parse |
| BDEngineParser.ParseFromInputStream | src/main/java/dev/twme/bdengineparser/BDEngineParser.java:153-157 | returns elements denoting FullParse of the raw stream parse |
| BDEngineParser.ParseFromFile | src/main/java/dev/twme/bdengineparser/BDEngineParser.java:138-142 | returns elements denoting FullParse of the raw file parse |

## Left out

- Floating point: `float` and `double` arithmetic, and the `doubleValue`/`floatValue` narrowing of transform entries, are modelled as exact `real` arithmetic.
- Sine and cosine: JOML's `rotateX`/`rotateY`/`rotateZ` evaluate them internally; the model takes them as the `TransformUtils.Trig` parameter.
- JSON decoding: Gson, the `@SerializedName` field mapping and the choice between the default and a caller-supplied Gson instance are outside the model. Decoding is a function parameter whose outcome is a decoded list, a JSON null or a syntax error.
- Gson's `JsonIOException`: it is neither caught nor wrapped by the parser and simply propagates, so it is not modelled.
- File and stream I/O: reading the file is a function parameter, and a stream is given by the decoder's outcome together with the I/O error, if any, that closing the reader raised afterwards; the byte-level reading of the stream is not modelled.
- createAxisAngleRotationMatrix (both overloads, src/main/java/dev/twme/bdengineparser/BDEngineParser.java:203-221): it delegates to `TransformUtils.createRotationAroundAxisMatrix`, which is not part of this model.
- Getters of `ProjectElement` are plain field reads. `toString` is modelled only for its children count. The fields of `TextOptions`, `Brightness`, `TagHead` and the paint texture are carried opaquely.
- Null entries inside a transform list, which would raise `NullPointerException` on unboxing, are not modelled; lists hold reals.
- The calculator copies every matrix it stores (`new Matrix4f(...)`). Here matrices are values, so no aliasing between elements arises and the copies need no model.
- The heap methods take a ghost `repr` set naming the elements of the forest; the Java code has no such parameter. The heap invariant excludes elements shared between two places in one forest, and it excludes cycles. It also makes each element's `Repr` exactly that element and the elements reachable from it, so elements in `repr` that the roots do not reach are never written.
- An escaping `IllegalArgumentException` is modelled as a `false` flag from the heap methods, and as an `IllegalArgument` failure from the full parses.
- CalculateWorldTransforms: a failure is reported through the flag only; the exception's message is not carried.
- `defaultTransformToMatrix4f` is modelled, but no code in the calculator calls it, and default transforms are not propagated to children.
