# exlite-class-validator: the error flattener and `classValidate`, in Dafny

This project models the two pieces of logic in exlite-class-validator:

- `arrayFormat` (src/format.ts) turns a forest of class-validator
  `ValidationError` nodes into a flat list of messages. It walks the forest
  depth-first with its inner `mapErrors`, builds dotted paths on the way,
  rewrites messages as `path + "." + message` with `appendPathToConstraints`,
  drops records that have no constraints, and concatenates the values.
- `classValidate` (src/validator.ts) merges the caller's options over the
  defaults. It calls the transformation engine (`plainToInstance`) and the
  validation engine (`validate`). It then assembles a `ValidatorResult`
  holding `data`, `success` and `errors`.

Files:

- `wrappers.dfy`: `Option`, used for JavaScript's `undefined`/`null`.
- `error_tree.dfy`: the `ErrorNode` datatype (`property`, optional
  `constraints` as an ordered sequence of (key, message) pairs, `children`),
  plus `Values` (`Object.values`) and `Join` (the `newPath` computation).
- `format.dfy`: `arrayFormat` stage by stage, as the source composes it:
  `AppendPathToConstraints`, `MapErrors`/`MapChildren`, `FlatMapErrors`,
  `KeepWithConstraints`, `ExtractMessages` and `ArrayFormat`.
- `format_spec.dfy`: a reference definition (`Reported`/`Below`) built directly
  on message strings. It has no intermediate records and no filter. The file
  proves `ArrayFormat` equal to the reference, then proves the order, path,
  membership and count properties from it.
- `format_examples.dfy`: concrete forests and their exact flattenings.
- `validator.dfy`: option merging as a map union where the caller wins, and
  `ClassValidate` with the two engines as function parameters.

The model keeps these behaviours of the code, which a reader might not
expect:

- A top-level node without children is returned unchanged by `mapErrors`
  (src/format.ts:30). Its messages come out verbatim, without its property as
  a prefix.
- A non-top-level node's messages are prefixed with its parent's path, not its
  own (src/format.ts:33,39,58). class-validator's messages already begin with
  the property name. So `address` → `zip` with "zip must be a string" flattens
  to "address.zip must be a string", not to "address.zip.zip must be a string".
- A top-level container's own constraints are never reported
  (src/format.ts:30-41).
- A failed validation comes with an empty `errors` list exactly when the error
  forest carries no reportable message (`FormatSpec.ReportableCount` is 0, by
  `Validator.ResultShape`). Examples are a top-level container whose
  descendants have no constraints (`Validator.FailureWithoutMessages`), or
  top-level leaves whose records are absent or `{}`.
- `Join` keeps the truthiness test of src/format.ts:33. An empty accumulated
  path adds no leading dot.

## Model

| member | source | states |
|---|---|---|
| ErrorTree.Values | src/format.ts:66 | a record's messages, one per entry, in insertion order |
| Format.PrefixMessages | src/format.ts:57-58 | every message of a record becomes `path + "." + message`; keys, count and insertion order are kept |
| Format.AppendPathToConstraints | src/format.ts:51-60 | the copy keeps property and children and always has a record (an absent one becomes `{}`); its i-th entry is the original i-th key with `path + "."` before the message |
| Format.MapErrors | src/format.ts:25-42 | a node without children comes back unchanged; a node with children yields one record per node of its subtree below it, each with a constraints record |
| Format.MapChildren | src/format.ts:34-40 | walking a list of children yields one record per node of that forest, at every depth, each with a constraints record |
| Format.KeepWithConstraints | src/format.ts:65 | the filter keeps exactly the records that have a constraints record, and keeps nothing else |
| Format.ArrayFormat | src/format.ts:63-67 | an empty forest flattens to an empty list |
| FormatSpec.ExtractKeptIsAllMessages | src/format.ts:65-67 | filtering out records without constraints and then extracting values gives every message of every record, in order |
| FormatSpec.AppendPathMessages | src/format.ts:55-59 | the rebuilt record's messages are the original messages in insertion order, each under the given path |
| FormatSpec.AppendPathKeepsDistinctKeys | src/format.ts:55-58 | the rebuilt record has the same keys, so keys that were distinct stay distinct |
| FormatSpec.MapErrorsMessages | src/format.ts:25-42 | the messages of `mapErrors(err, path)` for a container are those the reference reports below it under `Join(path, property)` |
| FormatSpec.MapChildrenMessages | src/format.ts:34-40 | the messages of the child loop are the reference's: for each child, its descendants' messages, then its own under the parent path |
| FormatSpec.FlatMapMessages | src/format.ts:63-64 | the messages of `flatMap(mapErrors)` are the reference's report for the forest, top-level node by top-level node |
| FormatSpec.ArrayFormatIsReported | src/format.ts:17-68 | `arrayFormat` equals the reference definition on every forest |
| FormatSpec.ArrayFormatAppend | src/format.ts:63-67 | top-level order is kept: flattening `a + b` gives flattening `a` followed by flattening `b` |
| FormatSpec.ChildOrder | src/format.ts:34-40 | children are reported in order; for each child, everything below it comes before its own messages, which carry the parent's path |
| FormatSpec.TopLevelChildOrder | src/format.ts:33-39 | for a top-level container's i-th child: earlier siblings, then the child's descendants under its own path, then the child's messages under the container's property, then later siblings |
| FormatSpec.TopLevelLeafVerbatim | src/format.ts:30 | a top-level node without children contributes its messages verbatim in insertion order; with an absent record it contributes nothing |
| FormatSpec.TopLevelContainerDropsOwnMessages | src/format.ts:30-41 | a top-level container's output does not depend on its own constraints record; the output is exactly what is reported below it |
| FormatSpec.BelowStartsWithPath | src/format.ts:33-39 | under a non-empty path, every reported message starts with that path and a dot |
| FormatSpec.TopLevelContainerPrefix | src/format.ts:33-39 | every message of a top-level container with a non-empty property starts with `property + "."` |
| FormatSpec.PrefixedMembership | src/format.ts:58 | a string is among the prefixed messages exactly when it is `path + "." + m` for one of the messages `m` |
| FormatSpec.BelowMembership | src/format.ts:25-42 | a string is reported for a forest below a path exactly when some node at some depth has a message `m` and the string is that node's parent path, `"."`, and `m` |
| FormatSpec.ReportedMembership | src/format.ts:63-64 | a string is in the reference report exactly when some top-level node reports it |
| FormatSpec.ArrayFormatMembership | src/format.ts:63-67 | both directions: a string is output exactly when it is a top-level leaf's message, or a deeper node's message prefixed with its parent's path |
| FormatSpec.ArrayFormatLength | src/format.ts:63-67 | the output has one entry per message of a top-level leaf plus one per message of each non-top-level node |
| FormatSpec.SilentForestReportsNothing | src/format.ts:55-59 | a forest whose records are all absent or empty flattens to nothing |
| FormatExamples.TopLevelLeavesExample | src/format.ts:9-15 | two top-level leaves give their messages verbatim, in input order and then key order |
| FormatExamples.NestedChildExample | src/format.ts:33-39 | `address` with child `zip` gives "address.zip must be a string" |
| FormatExamples.ThreeLevelExample | src/format.ts:36-39 | the grandchild's message comes before the intermediate container's own message; the top-level container's own message is dropped |
| Validator.MergeOptions | src/validator.ts:40-51 | every supplied property wins, even an `undefined` one; other defaults are kept; no other key appears |
| Validator.EffectiveValidatorOptions | src/validator.ts:40-45 | `always` and `whitelist` default to true and `forbidUnknownValues` defaults to false, unless the caller supplies them |
| Validator.EffectiveTransformOptions | src/validator.ts:48-51 | `enableImplicitConversion` defaults to true unless the caller supplies it |
| Validator.MergeWithoutOptions | src/validator.ts:40-51 | an omitted or empty options argument gives exactly the defaults |
| Validator.ClassValidate | src/validator.ts:53-70 | the engines receive the merged options; `success` holds exactly when the validation error list is empty; on success `data` is the instance and `errors` is null; on failure `data` is null and `errors` is `arrayFormat` of the error list |
| Validator.ResultShape | src/validator.ts:63-70 | `data` is present exactly on success and `errors` exactly on failure; a failure has one message per reportable message of the error forest |
| Validator.FailureWithoutMessages | src/validator.ts:66-70 | an engine that reports a container whose only child has no constraints gives `success` false, no data and an empty `errors` list |

## Left out

- The bodies of `plainToInstance` and `validate`. They are class-transformer
  and class-validator code, so they enter `ClassValidate` as function
  parameters.
- `async`/`await`, and engine faults propagating as a rejected promise. This
  is runtime plumbing. `ClassValidate` is the value the promise resolves to.
- The `ValidationError` fields `target`, `value` and `contexts`, which the
  flattener only copies through the object spread.
- The difference between an absent `children` list and an empty one. The
  source tests `children?.length`, which treats both alike, and the output
  never depends on it.
- JavaScript object details of a constraints record: inherited keys that
  `for...in` visits, and the integer-like keys that `Object.values` lists
  first. A record is an ordered list of (key, message) pairs. JavaScript keeps
  its keys distinct; `DistinctKeys` names that, and no member requires it.
- Purity and idempotence of `arrayFormat` (calling it twice gives the same
  list and the input is not mutated) have no lemma. Dafny values are
  immutable and functions are deterministic, so both hold by construction.
- The order of properties inside an options object does not affect the
  engines. Option values other than booleans are opaque (`Value.Other`).
