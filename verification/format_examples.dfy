/** Concrete forests and what the flattener reports for them. The messages
    follow class-validator's convention of starting with the property name. */
module FormatExamples {
  import opened Wrappers
  import opened ErrorTree
  import opened Format
  import opened FormatSpec

  /** Two top-level leaves: messages verbatim, in input order, and in
      insertion order within a record. */
  lemma TopLevelLeavesExample()
    ensures ArrayFormat([
              ErrorNode("email", Some([("isEmail", "email must be an email")]), []),
              ErrorNode("password", Some([("minLength", "password must be longer than or equal to 8 characters"),
                                          ("isString", "password must be a string")]), [])])
            == ["email must be an email",
                "password must be longer than or equal to 8 characters",
                "password must be a string"]
  {
    var forest := [
      ErrorNode("email", Some([("isEmail", "email must be an email")]), []),
      ErrorNode("password", Some([("minLength", "password must be longer than or equal to 8 characters"),
                                  ("isString", "password must be a string")]), [])];
    ArrayFormatIsReported(forest);
  }

  /** A child's message is prefixed with its parent's path only. */
  lemma NestedChildExample()
    ensures ArrayFormat([
              ErrorNode("address", None, [ErrorNode("zip", Some([("isString", "zip must be a string")]), [])])])
            == ["address.zip must be a string"]
  {
    var forest := [
      ErrorNode("address", None, [ErrorNode("zip", Some([("isString", "zip must be a string")]), [])])];
    var zip := forest[0].children[0];
    assert Messages(zip) == ["zip must be a string"];
    assert Below([zip], "address") == Prefixed("address", ["zip must be a string"]);
    assert Reported(forest) == Below([zip], "address");
    assert "address" + "." + "zip must be a string" == "address.zip must be a string";
    assert Prefixed("address", ["zip must be a string"]) == ["address.zip must be a string"];
    ArrayFormatIsReported(forest);
  }

  /** Three levels: the grandchild's message comes before the intermediate
      container's own message, and the top-level container's own message is
      not reported. */
  lemma ThreeLevelExample()
    ensures ArrayFormat([
              ErrorNode("user", Some([("isObject", "user must be an object")]), [
                ErrorNode("address", Some([("isObject", "address must be an object")]), [
                  ErrorNode("zip", Some([("isString", "zip must be a string")]), [])])])])
            == ["user.address.zip must be a string", "user.address must be an object"]
  {
    var forest := [
      ErrorNode("user", Some([("isObject", "user must be an object")]), [
        ErrorNode("address", Some([("isObject", "address must be an object")]), [
          ErrorNode("zip", Some([("isString", "zip must be a string")]), [])])])];
    var address := forest[0].children[0];
    var zip := address.children[0];
    assert Messages(zip) == ["zip must be a string"];
    assert Messages(address) == ["address must be an object"];
    assert Join("user", "address") == "user.address";
    assert Below([zip], "user.address") == Prefixed("user.address", ["zip must be a string"]);
    assert Below([address], "user") ==
      Below([zip], "user.address") + Prefixed("user", ["address must be an object"]);
    assert Reported(forest) == Below([address], "user");
    assert "user.address" + "." + "zip must be a string" == "user.address.zip must be a string";
    assert "user" + "." + "address must be an object" == "user.address must be an object";
    assert Prefixed("user.address", ["zip must be a string"]) == ["user.address.zip must be a string"];
    assert Prefixed("user", ["address must be an object"]) == ["user.address must be an object"];
    ArrayFormatIsReported(forest);
  }
}
