/**
 * The crowd-sync publish decision inside `_onSubmitTraktURL`: after a
 * successful resolution the item reads the stored options and, when the user
 * opted in and the host permission is granted, sends one POST with the
 * activity's cache id and the submitted URL to a fixed endpoint.
 */
module CrowdSync {
  import opened Wrappers
  import opened FormFlags

  /** The crowd-sync endpoint the request is posted to. */
  const Endpoint := "https://script.google.com/macros/s/AKfycbxaD_VEcZVv9atICZm00TWvF3XqkwykWtlGE8Ne39EMcjW5m3w/exec"

  /** The host patterns the permission check asks about. */
  const PermissionOrigins: seq<string> := ["*://script.google.com/*", "*://script.googleusercontent.com/*"]

  /** The user's stored options, as far as this decision reads them. */
  datatype Options = Options(sendReceiveSuggestions: bool)

  /** What `BrowserStorage.get('options')` resolves to. */
  datatype Storage = Storage(options: Option<Options>)

  /**
   * A response callback of the request: an empty arrow function, or one that
   * merges a patch into the item's flags.
   */
  datatype Callback = Ignore | SetsState(patch: Patch)

  datatype Params = Params(id: string, url: string)

  datatype Request = Request(httpMethod: string, url: string, params: Params, success: Callback, error: Callback)

  /** The request the item sends for an activity's cache id and the submitted URL. */
  function Post(id: string, submittedUrl: string): (r: Request)
    ensures r.httpMethod == "POST" && r.url == Endpoint
    ensures r.params.id == id && r.params.url == submittedUrl
  {
    Request("POST", Endpoint, Params(id, submittedUrl), Ignore, Ignore)
  }

  /** The item's flags after a response callback has run. */
  function Settle(cb: Callback, f: Flags): Flags {
    match cb
    case Ignore => f
    case SetsState(p) => SetState(f, p)
  }

  /** `storage.options && storage.options.sendReceiveSuggestions`: the second operand is read only when the first holds. */
  function OptedIn(storage: Storage): (b: bool)
    ensures b ==> storage.options.Some?
    ensures storage.options.Some? ==> (b <==> storage.options.value.sendReceiveSuggestions)
  {
    storage.options.Some? && storage.options.value.sendReceiveSuggestions
  }

  /**
   * The result of the `&&` condition and the send it guards: the request sent
   * (if any) or the exception the permission check threw, and the origins the
   * permission check was asked about, if it was asked at all.
   */
  datatype Decision = Decision(outcome: Awaited<Option<Request>>, permissionQuery: Option<seq<string>>)

  function Decide(storage: Storage, permission: Awaited<bool>, id: string, submittedUrl: string): (d: Decision)
    ensures d.permissionQuery.Some? <==> OptedIn(storage)
    ensures d.permissionQuery.Some? ==> d.permissionQuery.value == PermissionOrigins
    ensures d.outcome.Threw? <==> OptedIn(storage) && permission.Threw?
    ensures d.outcome.Returned? && d.outcome.value.Some? <==> OptedIn(storage) && permission == Returned(true)
    ensures d.outcome.Returned? && d.outcome.value.Some? ==> d.outcome.value.value == Post(id, submittedUrl)
  {
    if storage.options.None? then Decision(Returned(None), None)
    else if !storage.options.value.sendReceiveSuggestions then Decision(Returned(None), None)
    else
      match permission
      case Threw => Decision(Threw, Some(PermissionOrigins))
      case Returned(granted) =>
        Decision(Returned(if granted then Some(Post(id, submittedUrl)) else None), Some(PermissionOrigins))
  }

  /** Whatever the endpoint answers, the callbacks of the crowd-sync request leave the flags as they were. */
  lemma ResponsesAreIgnored(id: string, submittedUrl: string, f: Flags)
    ensures Settle(Post(id, submittedUrl).success, f) == f
    ensures Settle(Post(id, submittedUrl).error, f) == f
  {
  }
}
