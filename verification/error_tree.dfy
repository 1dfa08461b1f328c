/** The validation-error tree that the validation engine produces and the
    flattener consumes (a `ValidationError` of class-validator, restricted to
    the fields the flattener reads). */
module ErrorTree {
  import opened Wrappers

  /** A constraints record: (constraint name, message) pairs in insertion order.
      A JavaScript object has distinct keys; see `DistinctKeys`. */
  type Constraints = seq<(string, string)>

  /** One node of the tree. `constraints` is `None` when the engine left the
      field undefined; an absent `children` list is the empty sequence. */
  datatype ErrorNode = ErrorNode(
    property: string,
    constraints: Option<Constraints>,
    children: seq<ErrorNode>)

  /** `err.children?.length` is truthy. */
  predicate HasChildren(n: ErrorNode) {
    |n.children| > 0
  }

  /** The keys of a constraints record are pairwise distinct, as in any
      JavaScript object. */
  predicate DistinctKeys(cs: Constraints) {
    forall i, j :: 0 <= i < j < |cs| ==> cs[i].0 != cs[j].0
  }

  /** `Object.values` of a constraints record: its messages in insertion order. */
  function Values(cs: Constraints): (r: seq<string>)
    ensures |r| == |cs|
    ensures forall i :: 0 <= i < |cs| ==> r[i] == cs[i].1
  {
    if cs == [] then [] else [cs[0].1] + Values(cs[1..])
  }

  /** The messages a node carries itself; an absent record carries none. */
  function Messages(n: ErrorNode): seq<string> {
    Values(n.constraints.GetOr([]))
  }

  /** The path of a node's children: `path ? `${path}.${property}` : property`.
      An empty accumulated path is falsy, so it contributes no leading dot. */
  function Join(path: string, property: string): string {
    if path == "" then property else path + "." + property
  }
}
