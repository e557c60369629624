# goverter conversion synthesiser: dispatcher and list rule in Dafny

This project models the core of goverter's code generator. The generator
keeps a registry that maps a (source type, target type) signature to a
conversion method. `Build` resolves a pair in a fixed order:

1. If a method is registered for the signature, it returns a call to it.
2. If either side is a named, non-basic type, it extracts a new method. The
   method goes into the registry before its body is built, and then `Build`
   is tried again.
3. Otherwise the first matching rule of `BuildSteps` builds inline code.
4. If no rule matches, the build fails with a type mismatch.

The list rule is modelled in full. It emits a nil-preserving or
fixed-length initialiser, then a counted loop that converts every element
through the dispatcher. A failure of the element conversion is lifted with
a `"[]"` path frame.

Structure:

- `types.dfy` (`Types`): the type view (`xtype.Type`). Types live in an
  id-indexed universe, so named types can be cyclic.
  - `WellFormed` rules out a cycle that does not pass through a named type.
  - `Size` is the structural size with extractable types as leaves.
- `builder.dfy` (`Builder`): the emitted code as an abstract syntax tree.
  Also the variable/other classification of built expressions, errors with
  path frames, and build results.
- `namer.dfy` (`Namer`): a fresh-name supply.
- `list.dfy` (`ListBuilder`): the pure parts of `builder/list.go`, and
  `RunListCode`, a method that runs the emitted list code on an array. It
  interprets the initialiser statement by statement (`ExecInit`) and runs
  the loop as many times as the emitted bound evaluates to. Go's index
  panics (a write into a nil or too short slice) are array-bounds proof
  obligations there, so code that would panic does not verify.
- `order.dfy` (`NameOrder`): Go string order, and sorting by name.
- `dispatcher.dfy` (`Dispatcher`, `DispatcherFacts`): the dispatcher as
  functions over an explicit registry value. This is the reference
  semantics, and its properties are proved here.
  - Termination over cyclic named types is proved with the measure
    (candidate signatures still unregistered, structural size, call rank).
- `registration.dfy` (`Registration`): validating a declared method, and
  the build loop of `createMethods`.
- `generator.dfy` (`Generator`): the `Generator` class, whose fields
  (`lookup`, `names`, `file`) its methods update in place, and the
  `MethodContext` class with its per-method namer. Each method is proved to
  leave exactly the state and result of its `Dispatcher` or `Registration`
  counterpart.
- `scenarios.dfy` (`Scenarios`): two instances worked through.
  - `[][]int` to `[][]string` fails with two `"[]"` frames, outer first.
  - For `type A []B` and `type B []A`, converting `A` to `B` extracts
    exactly the two methods `AToB` and `BToA`.

Modelling choices where goverter's documented behaviour and its code
differ (the model follows the code):

- The registry key is the ordered pair (source identity, target identity).
  Two types with the same identity string share an entry, as in the code;
  the model does not assume identities are distinct.
- `registerMethod` itself rejects a declaration without exactly one
  parameter and one result.
- `createMethods` builds only the methods registered before it starts.
  Methods found while building are built inside `Build`, at once, not by a
  later pass that runs until nothing is left.
- The two files come from different revisions:
  - `builder/list.go:24` passes an error wrapper as a fifth argument to
    `gen.Build`, while `generator/generator.go:144` takes four. The model
    uses the shared four-argument contract and drops the wrapper.
  - `builder/list.go:5` imports the `xtype` package of the later revision.
- The rule scan in `Build` (lines 170-176) is the same loop as
  `BuildNoLookup`, so the model's `Build` calls `BuildNoLookup` in that
  branch.

## Model

| member | source | states |
|---|---|---|
| ListBuilder.Matches | builder/list.go:12-14 | only a list or array source and a list target match; a fixed-length target never matches |
| ListBuilder.Assemble | builder/list.go:25-54 | an element failure comes back with no code, lifted with one frame `"[]"`/`"[]"` and the element type names; otherwise the result is the initialiser and one loop over `len(source)` whose body is the element statements then `target[index] = elem`; the result is the variable `targetSlice`; a fixed-length source gets no nil check |
| ListBuilder.InitRuns | builder/list.go:35-47 | interpreting the emitted initialiser: `var t T; if src != nil { t = make(T, len(src), len(src)) }` leaves a nil slice for a nil source and a slice of `len(src)` otherwise; `t := make(...)` for an array source always allocates `len(src)` |
| ListBuilder.RunListCode | builder/list.go:35-52 | running the emitted initialiser and loop (bound evaluated from the code) never indexes out of range; a nil source gives a nil target; a source of length N gives a target of length N with `out[i] = conv(in[i])` |
| Namer.FreshName | generator/generator.go:151 | a suggested name is used when free; otherwise the name returned extends it and is not taken |
| NameOrder.SortBy | generator/generator.go:87-89 | the result is a permutation of the methods ordered by name under Go's string order |
| NameOrder.LessTotal | generator/generator.go:88 | Go's string order is total: two different names are ordered one way or the other |
| Dispatcher.Scan | generator/generator.go:136-141 | the rule chosen is the first in `BuildSteps` that matches and none before it does; no rule is chosen only when none matches; the scan reads no registry |
| Dispatcher.Build | generator/generator.go:144-177 | a cached signature gives no statements and `c.<Name>(source)` and leaves the registry unchanged; an extractable pair gives the extraction result; a build never removes or replaces a registered method and adds only extracted ones |
| Dispatcher.Extract | generator/generator.go:150-167 | the signature ends up registered with an extracted method (empty mapping and ignored set, no delegate), and a successful build returns the call to it |
| Dispatcher.ReserveStep | generator/generator.go:151-162 | inserting the fresh method before its body is built keeps the registry consistent and strictly lowers the number of unregistered candidate signatures, which is what ends recursion over cyclic types |
| Dispatcher.AddMethod | generator/generator.go:105-133 | a delegate method emits only `return Delegate(c, source)` and builds nothing; otherwise the function emitted on success is named after the method and ends in a return |
| DispatcherFacts.AddMethodCases | generator/generator.go:117-132 | without a delegate: addMethod fails if and only if the rule scan from a fresh context fails, and then returns that error and emits nothing; on success it emits one function whose body is the scan's statements followed by `return <result>` |
| Dispatcher.BuildNoLookup | generator/generator.go:135-142 | when no rule matches, the result is a TypeMismatch error naming both types and nothing changes |
| DispatcherFacts.NoLookupCases | generator/generator.go:135-142 | the result is the TypeMismatch error if and only if no rule matches; when the first match is the list rule the result is `BuildList`'s, and for any other rule it is that rule's code with nothing changed |
| Dispatcher.BuildList | builder/list.go:17-55 | element failures are lifted with the `"[]"` frame of the element types; on success the result is a variable naming a fresh local slice and the code has the list rule's shape for the source's fixedness |
| DispatcherFacts.ListLiftsElement | builder/list.go:18-55 | the list build ends with the element build's registry and locals, fails if and only if the element build fails, and then returns the element error whole (cause and inner frames) with one `"[]"` frame in front; on success its code is `ListBuilder.Assemble` of the element build of `source[index]`, so the loop body is the element's own statements followed by `target[index] = <element>` |
| DispatcherFacts.ExtractionBounded | generator/generator.go:150-167 | every method a build adds belongs to a candidate signature that had none, so at most one method is extracted per signature |
| DispatcherFacts.ExtractThenCall | generator/generator.go:150-167 | after extraction the signature holds an extracted method for exactly that pair, under a name the namer had not handed out; if the reserved method's addMethod succeeds, the retry returns the call to it, and if not, the result is that addMethod error with no frame added |
| Registration.Requested | generator/generator.go:37-72 | a declaration is accepted if and only if it is a signature with exactly one parameter and one result and any named delegate exists and is a function; the stored method carries the declared types, names, mapping, ignored set and delegate |
| Registration.CreateFrom | generator/generator.go:90-101 | a failure names the failing method's ID and position, and its error's outermost frame is the root frame `source`/`target` with the method's types; when the first method's addMethod fails, the run ends there with that error lifted by the root frame |
| Registration.CreateAddsAll | generator/generator.go:90-101 | a run that does not fail adds every method of the order, in that order: the functions emitted after the file as it was before the run are named after those methods in sequence, with any extracted helpers between them |
| Registration.CreateStopsAtFirstFailure | generator/generator.go:90-101 | on failure, every method before the failing one was added successfully, the run ends with that method's addMethod state, so no later method is built, and the reported error is that addMethod error whole with the root frame in front |
| Scenarios.NestedListMismatch | builder/list.go:25-32 | converting `[][]int` to `[][]string` fails with the int-to-string mismatch and the path `[] : []int -> []string`, then `[] : int -> string` |
| Scenarios.CycleTwoMethods | generator/generator.go:150-167 | for `type A []B` and `type B []A`, building A to B ends with exactly the two methods A-to-B and B-to-A and two emitted functions, and returns the call to A-to-B |
| Generator.MethodContext.Name | builder/list.go:18 | the name returned is fresh in the method's scope and is then taken |
| Generator.MethodContext.Index | builder/list.go:19 | the index name returned is fresh in the method's scope and is then taken |
| Generator.Generator.RegisterMethod | generator/generator.go:37-80 | on failure the state is unchanged; on success the method is stored under its (source, target) signature, replacing any earlier one, and its name is registered |
| Generator.Generator.Snapshot | generator/generator.go:83-86 | the snapshot holds every registered method and nothing else |
| Generator.Generator.BuildOrder | generator/generator.go:83-89 | the build order is the registered methods sorted by name |
| Generator.Generator.CreateMethods | generator/generator.go:82-103 | the methods registered at the start are built in ascending name order, as `Registration.CreateFrom` on the sorted snapshot; `Registration.CreateAddsAll` and `Registration.CreateStopsAtFirstFailure` then give the outcome of a run that succeeds and of one that fails |
| Generator.Generator.AddMethod | generator/generator.go:105-133 | new registry and file are those of `Dispatcher.AddMethod` |
| Generator.Generator.AddBuilt | generator/generator.go:117-132 | without a delegate, the body is built by the rule scan from a fresh method context; new registry, file and error are those of `Dispatcher.AddMethod` |
| Generator.Generator.BuildNoLookup | generator/generator.go:135-142 | the loop picks the first matching rule; result and state are those of `Dispatcher.BuildNoLookup` |
| Generator.Generator.Build | generator/generator.go:144-177 | result and state are those of `Dispatcher.Build` |
| Generator.Generator.Reserve | generator/generator.go:151-162 | the extracted method gets the namer's fresh name for `<Source>To<Target>` and is stored under its signature with the name registered, before any body is built; the number of unregistered candidate signatures drops |
| Generator.Generator.Extract | generator/generator.go:150-167 | the method is inserted into `lookup` before `AddMethod` builds its body; result and state are those of `Dispatcher.Extract` |
| Generator.Generator.BuildList | builder/list.go:17-55 | allocates the slice and index names from the method context, builds `source[index]` into the element type, and returns what `Dispatcher.BuildList` returns |

## Left out

- Rendering through `jen`: the emitted code is an abstract statement and expression tree, not Go source text.
- `go/types` loading and `method.Type()`: types are an id-indexed universe of shape flags, and a declaration's type is a `DeclType` value.
- `sources.Scope().Lookup`: replaced by a map from names to scope objects.
- The namer package (not part of this model): `FreshName` stands in for it. It returns the suggested name when free and otherwise appends underscores until the name is free. `g.namer.Name` followed by `Register` is one append to `names`.
- `strings.Title`, `UnescapedID` and `Type.ID()`: method and slice names are built from identity strings as they are.
- Comment and directive parsing (`comments.Method`): directives arrive as a `Directives` value.
- Error text: `fmt.Errorf` messages, `builder.ToString` and `NewError` are not modelled. Errors are a cause plus a list of frames, the outermost first. Both count errors of `registerMethod` use the same message text in the source; the model keeps them as two error kinds.
- `Wrap` and `errWrapper` (not part of this model, and from a later revision): dropped.
- The map, pointer, struct and basic rules (not part of this model): each is an abstract predicate plus a leaf result `RuleCode`. In this model they always succeed and never touch the registry or the method's local names. In the code, the struct and map rules can fail and recurse through `Build` into fields, keys and values; here recursion runs only through the list rule.
- `MethodContext` mapping, ignored set and mapping base id are stored but not used, since only the list rule is modelled.
- ListBuilder.RunListCode: the element statements and expression are modelled by the function `conv` applied to `source[index]`; the tree of element code is not interpreted. The interpreter `ExecInit` knows only the statement and expression forms the list rule emits (`var`, `:=`, `=`, `if x != nil`, `make`, `len`); anything else stops it.
- NameOrder.Less compares characters, where Go compares bytes. `sort.Slice` is not stable; `SortBy` is one particular sort, and it orders methods with equal names arbitrarily.
- Go map iteration order: `Snapshot` takes the registered methods in an arbitrary order.
- File output and the command line.
