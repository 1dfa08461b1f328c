/** The error flattener `arrayFormat` of src/format.ts and its two inner
    functions, stage by stage as the source composes them. */
module Format {
  import opened Wrappers
  import opened ErrorTree

  /** The messages of `cs`, each rewritten as `path + "." + message`, keys and
      their order kept. */
  function PrefixMessages(path: string, cs: Constraints): (r: Constraints)
    ensures |r| == |cs|
    ensures forall i :: 0 <= i < |cs| ==> r[i].0 == cs[i].0 && r[i].1 == path + "." + cs[i].1
  {
    if cs == [] then [] else [(cs[0].0, path + "." + cs[0].1)] + PrefixMessages(path, cs[1..])
  }

  /** `appendPathToConstraints`: a copy of `err` whose constraints record is a
      fresh one holding every message of `err` prefixed with `path`. An absent
      record is iterated as an empty one, so the copy always has a record. */
  function AppendPathToConstraints(path: string, err: ErrorNode): (r: ErrorNode)
    ensures r.property == err.property && r.children == err.children
    ensures r.constraints.Some?
    ensures |r.constraints.value| == |err.constraints.GetOr([])|
    ensures forall i :: 0 <= i < |r.constraints.value| ==>
              r.constraints.value[i].0 == err.constraints.GetOr([])[i].0 &&
              r.constraints.value[i].1 == path + "." + err.constraints.GetOr([])[i].1
  {
    err.(constraints := Some(PrefixMessages(path, err.constraints.GetOr([]))))
  }

  /** Number of nodes in the forest `cs`, at every depth. */
  function NodeCount(cs: seq<ErrorNode>): nat
    decreases cs
  {
    if cs == [] then 0 else 1 + NodeCount(cs[0].children) + NodeCount(cs[1..])
  }

  /** `mapErrors(err, path)`: a node without children comes back unchanged;
      otherwise its children are walked under the path `Join(path, property)`. */
  function MapErrors(err: ErrorNode, path: string): (r: seq<ErrorNode>)
    decreases err, 1
    ensures !HasChildren(err) ==> r == [err]
    ensures HasChildren(err) ==> |r| == NodeCount(err.children)
    ensures HasChildren(err) ==> forall x :: x in r ==> x.constraints.Some?
  {
    if !HasChildren(err) then [err]
    else MapChildren(err.children, Join(path, err.property))
  }

  /** The `for (const child of err.children)` loop of `mapErrors` over the
      children `cs`, whose parent path is `newPath`: a child with children first
      contributes its own walk, then the child itself with prefixed messages. */
  function MapChildren(cs: seq<ErrorNode>, newPath: string): (r: seq<ErrorNode>)
    decreases cs, 0
    ensures |r| == NodeCount(cs)
    ensures forall x :: x in r ==> x.constraints.Some?
  {
    if cs == [] then []
    else
      var child := cs[0];
      (if HasChildren(child) then MapErrors(child, newPath) else [])
      + [AppendPathToConstraints(newPath, child)]
      + MapChildren(cs[1..], newPath)
  }

  /** `errors.flatMap(err => mapErrors(err))`, each walk starting from the empty path. */
  function FlatMapErrors(errors: seq<ErrorNode>): (r: seq<ErrorNode>)
  {
    if errors == [] then [] else MapErrors(errors[0], "") + FlatMapErrors(errors[1..])
  }

  /** `.filter(err => !!err.constraints)`: drops the nodes with no record, in order. */
  function KeepWithConstraints(nodes: seq<ErrorNode>): (r: seq<ErrorNode>)
    ensures forall x :: x in r ==> x in nodes && x.constraints.Some?
    ensures forall x :: x in nodes && x.constraints.Some? ==> x in r
  {
    if nodes == [] then []
    else if nodes[0].constraints.Some? then [nodes[0]] + KeepWithConstraints(nodes[1..])
    else KeepWithConstraints(nodes[1..])
  }

  /** `.map(err => Object.values(err.constraints)).flat()` over nodes that all
      have a record. */
  function ExtractMessages(nodes: seq<ErrorNode>): (r: seq<string>)
    requires forall x :: x in nodes ==> x.constraints.Some?
  {
    if nodes == [] then [] else Values(nodes[0].constraints.value) + ExtractMessages(nodes[1..])
  }

  /** `arrayFormat`: the flat list of messages of a validation-error forest. */
  function ArrayFormat(errors: seq<ErrorNode>): (r: seq<string>)
    ensures errors == [] ==> r == []
  {
    ExtractMessages(KeepWithConstraints(FlatMapErrors(errors)))
  }
}
