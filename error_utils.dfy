/** The uniform result dictionaries every tool returns. */
module ErrorUtils {
  import opened Wrappers
  import opened Json

  /** `create_error_response(message, details)`: an absent or empty `details` is left out. */
  function CreateErrorResponse(message: string, details: Dict): (r: Dict)
    ensures "success" in r && r["success"] == JBool(false)
    ensures "error" in r && r["error"] == JStr(message)
    ensures "details" in r <==> details != map[]
    ensures "details" in r ==> r["details"] == JObj(details)
    ensures r.Keys <= {"success", "error", "details"}
  {
    var response := map["success" := JBool(false), "error" := JStr(message)];
    if Truthy(JObj(details)) then response["details" := JObj(details)] else response
  }

  /** `create_success_response(data)`: `{"success": True}` overlaid with `data`, so a
      `success` key in `data` wins. An absent `data` is the empty map. */
  function CreateSuccessResponse(data: Dict): (r: Dict)
    ensures r.Keys == data.Keys + {"success"}
    ensures forall k :: k in data ==> r[k] == data[k]
    ensures "success" !in data ==> r["success"] == JBool(true)
  {
    var response := map["success" := JBool(true)];
    if Truthy(JObj(data)) then response + data else response
  }

  /** `format_error_message(component, issue, solution)`; an absent or empty solution adds nothing. */
  function FormatErrorMessage(component: string, issue: string, solution: Option<string>): (r: string)
    ensures solution.None? || solution.value == "" ==> r == "[" + component + "] - " + issue
    ensures solution.Some? && solution.value != "" ==>
      r == "[" + component + "] - " + issue + "\nSolution: " + solution.value
  {
    var message := "[" + component + "] - " + issue;
    match solution
    case Some(s) => if s != "" then message + "\nSolution: " + s else message
    case None => message
  }

  /** True of results that report success. */
  predicate Succeeded(r: Dict) {
    "success" in r && Truthy(r["success"])
  }

  /** An error response never reads as a success, whatever its details. */
  lemma ErrorIsNotSuccess(message: string, details: Dict)
    ensures !Succeeded(CreateErrorResponse(message, details))
  {
  }
}
