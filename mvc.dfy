/** What an ASP.NET Core MVC action hands back, and a helper for reading call traces. */
module Mvc {
  import opened Wrappers

  /** An entry added with `ModelState.AddModelError(key, message)`. */
  datatype ModelError = ModelError(key: string, message: string)

  /** The route values an action passes along with a redirect. */
  datatype RouteValues =
    | NoRouteValues
      // new { returnUrl }
    | ReturnUrlValue(returnUrl: Option<string>)
      // a model whose only non-default property is StatusMessage
    | StatusMessageValue(statusMessage: Option<string>)
      // a ShowRecoveryCodesModel
    | RecoveryCodesValues(recoveryCodes: seq<string>, statusMessage: Option<string>)
      // a boxed int passed where an object of route values is expected
    | BoxedIntValue(n: int)

  datatype ExceptionKind = InvalidOperationException | FormatException

  datatype ActionResult =
      // View(), View(model) or View(name, model); `errors` are those this action added to ModelState
    | ViewResult(viewName: Option<string>, errors: seq<ModelError>)
    | PartialViewResult(partialViewName: string)
    | RedirectResult(url: string)
    | LocalRedirectResult(localUrl: string)
    | RedirectToActionResult(actionName: string, controllerName: Option<string>, routeValues: RouteValues)
    | BadRequestResult(error: string)
      // the action throws instead of returning
    | Thrown(kind: ExceptionKind, message: string)

  /** `a` occurs in `trace` somewhere before an occurrence of `b`. */
  predicate Before<E(==)>(trace: seq<E>, a: E, b: E) {
    exists i, j :: 0 <= i < j < |trace| && trace[i] == a && trace[j] == b
  }
}
