// The current drawing tool and its option (stores/tool.js).
module ToolStore {
  import opened Common

  /** The option each tool starts with when none is given. */
  const Defaults: map<string, string> := map[
    "brush" := "pencil", "eraser" := "soft", "square" := "rect", "circle" := "circle",
    "triangle" := "triangle", "text" := "normal", "image" := "upload"]

  /** The option after `setTool(tool, option)` when it was `current`: the given
      option when truthy, otherwise the tool's default, otherwise unchanged. */
  function NextOption(current: string, tool: string, option: Option<string>): (r: string)
    ensures Truthy(option) ==> r == option.value
    ensures !Truthy(option) && tool in Defaults ==> r == Defaults[tool]
    ensures !Truthy(option) && tool !in Defaults ==> r == current
  {
    if Truthy(option) then option.value
    else if tool in Defaults then Defaults[tool]
    else current
  }

  /** Every default option is truthy, so `defaults[tool]` is truthy exactly
      for the tools of the table. */
  lemma DefaultsTruthy()
    ensures forall t | t in Defaults :: Defaults[t] != ""
  {
    assert Defaults.Keys == {"brush", "eraser", "square", "circle", "triangle", "text", "image"};
  }

  /** Setting the same tool twice in a row is the same as setting it once. */
  lemma {:induction false} SetToolIdempotent(current: string, tool: string, option: Option<string>)
    ensures NextOption(NextOption(current, tool, option), tool, option) == NextOption(current, tool, option)
  {
  }

  /** With no option, the option after setting a tool in the table does not
      depend on the option before. */
  lemma DefaultForgetsCurrent(a: string, b: string, tool: string)
    requires tool in Defaults
    ensures NextOption(a, tool, None) == NextOption(b, tool, None) == Defaults[tool]
  {
  }

  /** The tool store. */
  class Store {
    var currentTool: string
    var currentToolOption: string

    constructor()
      ensures currentTool == "brush" && currentToolOption == "pencil"
    {
      currentTool := "brush";
      currentToolOption := "pencil";
    }

    /** `setTool(tool, option)` */
    method SetTool(tool: string, option: Option<string>)
      modifies this
      ensures currentTool == tool
      ensures currentToolOption == NextOption(old(currentToolOption), tool, option)
    {
      currentTool := tool;
      if Truthy(option) {
        currentToolOption := option.value;
      } else if tool in Defaults {
        currentToolOption := Defaults[tool];
      }
    }
  }
}
