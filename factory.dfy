/** FrameBuilderFactory.createBuilder of src/builders/FrameBuilderFactory.ts. */
module FrameBuilderFactory {
  import opened Js
  import R = ReplaceBuilder
  import A = AppendBuilder
  import opened DataFrameBuilder

  datatype Variant = ReplaceVariant | AppendVariant

  /** The builder kind a mode selects: `mode || 'replace'`, then 'append' or anything else. */
  function SelectVariant(mode: Option<string>): (v: Variant)
    ensures v == AppendVariant <==> mode == Some("append")
  {
    var effectiveMode := Or(mode, "replace");
    if effectiveMode == "append" then AppendVariant else ReplaceVariant
  }

  /** The state of a freshly built builder of a kind. */
  function Initial(v: Variant, refId: string): (s: BuilderState)
    ensures s.Empty() && s.Consistent() && s.RefId() == refId
    ensures s.AppendState? <==> v == AppendVariant
  {
    if v == AppendVariant then AppendState(A.AppendState(refId, [], 0))
    else ReplaceState(R.ReplaceState(refId, [], None))
  }

  method CreateBuilder(mode: Option<string>, queryId: string, refId: Option<string>) returns (b: Builder)
    ensures fresh(b.Obj()) && b.Valid()
    ensures b.State() == Initial(SelectVariant(mode), Or(refId, queryId))
  {
    var effectiveMode := Or(mode, "replace");
    if effectiveMode == "append" {
      var a := new A.AppendFrameBuilder(queryId, refId);
      b := Append(a);
    } else {
      var r := new R.ReplaceFrameBuilder(queryId, refId);
      b := Replace(r);
    }
  }
}
