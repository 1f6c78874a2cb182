/**
 * `_onSubmitTraktURL` and `_onUseSuggestion` as atomic state updates over the
 * answers of their collaborators: the resolver (`getActivityFromURL`), the
 * options read, the permission check, and the cache id of the activity.
 * Every exception inside the `try` block lands in the same `catch`.
 */
module Submission {
  import opened Wrappers
  import opened ActivityData
  import opened FormFlags
  import opened CrowdSync

  /** The answers of the collaborators awaited inside the `try` block, in the order they are awaited. */
  datatype Environment = Environment(resolution: Awaited<()>, storage: Awaited<Storage>, permission: Awaited<bool>)

  /** Which collaborators after the resolver were asked: the options read, and the permission check with its origins. */
  datatype Consulted = Consulted(storage: bool, permissionQuery: Option<seq<string>>)

  /** The flags after the handler, the one request sent (if any), and what was consulted. */
  datatype SubmitResult = SubmitResult(flags: Flags, sent: Option<Request>, consulted: Consulted)

  /** An exception escapes one of the awaited calls of the `try` block. */
  predicate Escapes(env: Environment) {
    || env.resolution.Threw?
    || (env.resolution.Returned? && env.storage.Threw?)
    || (env.resolution.Returned? && env.storage.Returned? && OptedIn(env.storage.value) && env.permission.Threw?)
  }

  /** Every condition of the send holds: resolved, options present and opted in, permission granted. */
  predicate Publishes(env: Environment) {
    && env.resolution.Returned?
    && env.storage.Returned?
    && OptedIn(env.storage.value)
    && env.permission == Returned(true)
  }

  /** `_onSubmitTraktURL(activity, url)`. */
  function Submit(f: Flags, activity: Activity, url: string, cacheId: Activity -> string, env: Environment): (r: SubmitResult)
    ensures r.consulted.storage <==> env.resolution.Returned?
    ensures r.consulted.permissionQuery.Some? <==>
              env.resolution.Returned? && env.storage.Returned? && OptedIn(env.storage.value)
    ensures r.consulted.permissionQuery.Some? ==> r.consulted.permissionQuery.value == PermissionOrigins
    ensures r.sent.Some? <==> Publishes(env)
    ensures r.sent.Some? ==> r.sent.value == Post(cacheId(activity), url)
    ensures !r.flags.isUpdating <==> Escapes(env)
    ensures r.flags.traktError <==> f.traktError || Escapes(env)
    ensures r.flags.showTraktURLForm <==> env.resolution.Threw? && f.showTraktURLForm
    ensures r.flags.traktClick == f.traktClick
  {
    var started := BeginUpdate(f);
    match env.resolution
    case Threw => SubmitResult(CatchError(started), None, Consulted(false, None))
    case Returned(_) =>
      var resolved := HideForm(started);
      match env.storage
      case Threw => SubmitResult(CatchError(resolved), None, Consulted(true, None))
      case Returned(storage) =>
        var d := Decide(storage, env.permission, cacheId(activity), url);
        match d.outcome
        case Threw => SubmitResult(CatchError(resolved), None, Consulted(true, d.permissionQuery))
        case Returned(sent) => SubmitResult(resolved, sent, Consulted(true, d.permissionQuery))
  }

  /** `_onUseSuggestion(activity, url)`: mark the click, then submit the suggested URL. */
  function UseSuggestion(f: Flags, activity: Activity, url: string, cacheId: Activity -> string, env: Environment): (r: SubmitResult)
    ensures r.flags.traktClick
    ensures r.flags.showTraktURLForm <==> env.resolution.Threw?
    ensures r.flags.isUpdating == Submit(f, activity, url, cacheId, env).flags.isUpdating
    ensures r.flags.traktError == Submit(f, activity, url, cacheId, env).flags.traktError
    ensures r.sent == Submit(f, activity, url, cacheId, env).sent
    ensures r.consulted == Submit(f, activity, url, cacheId, env).consulted
  {
    Submit(MarkSuggestionClick(f), activity, url, cacheId, env)
  }

  /** Resubmitting the same URL against the same answers leaves the flags where the first submission put them. */
  lemma SubmitIdempotent(f: Flags, activity: Activity, url: string, cacheId: Activity -> string, env: Environment)
    ensures var once := Submit(f, activity, url, cacheId, env);
            var twice := Submit(once.flags, activity, url, cacheId, env);
            twice.flags == once.flags && twice.sent == once.sent
  {
  }

  /** Whether the permission is granted decides the send and nothing else: the flags are the same either way. */
  lemma PublishingDoesNotAffectFlags(f: Flags, activity: Activity, url: string, cacheId: Activity -> string,
                                     resolution: Awaited<()>, storage: Awaited<Storage>)
    ensures Submit(f, activity, url, cacheId, Environment(resolution, storage, Returned(true))).flags
         == Submit(f, activity, url, cacheId, Environment(resolution, storage, Returned(false))).flags
  {
  }

  /** A user action on the item. */
  datatype Event =
    | ShowForm
    | SubmitUrl(url: string, env: Environment)
    | UseSuggestionUrl(url: string, env: Environment)

  function Step(f: Flags, activity: Activity, cacheId: Activity -> string, e: Event): (r: SubmitResult)
    ensures AtRest(r.flags)
    ensures r.sent.Some? <==> !e.ShowForm? && Publishes(e.env)
    ensures r.sent.Some? ==> r.sent.value == Post(cacheId(activity), e.url)
  {
    match e
    case ShowForm => SubmitResult(OpenForm(f), None, Consulted(false, None))
    case SubmitUrl(url, env) => Submit(f, activity, url, cacheId, env)
    case UseSuggestionUrl(url, env) => UseSuggestion(f, activity, url, cacheId, env)
  }

  /** The URLs of the submissions whose collaborators all let the POST through, in order. */
  function PublishedUrls(events: seq<Event>): seq<string>
    decreases |events|
  {
    if |events| == 0 then []
    else (if !events[0].ShowForm? && Publishes(events[0].env) then [events[0].url] else [])
         + PublishedUrls(events[1..])
  }

  /** One request per URL, in order, all for the same cache id. */
  function Posts(id: string, urls: seq<string>): (r: seq<Request>)
    ensures |r| == |urls|
    ensures forall i :: 0 <= i < |r| ==> r[i] == Post(id, urls[i])
  {
    seq(|urls|, i requires 0 <= i < |urls| => Post(id, urls[i]))
  }

  /** The flags after a sequence of actions, and every request sent along the way. */
  datatype Session = Session(flags: Flags, sent: seq<Request>)

  function Run(f: Flags, activity: Activity, cacheId: Activity -> string, events: seq<Event>): (s: Session)
    ensures s.sent == Posts(cacheId(activity), PublishedUrls(events))
    ensures AtRest(f) ==> AtRest(s.flags)
    decreases |events|
  {
    if |events| == 0 then Session(f, [])
    else
      var step := Step(f, activity, cacheId, events[0]);
      var rest := Run(step.flags, activity, cacheId, events[1..]);
      Session(rest.flags, (if step.sent.Some? then [step.sent.value] else []) + rest.sent)
  }

  /** Running two sequences of actions one after the other is running their concatenation. */
  lemma {:induction false} RunConcat(f: Flags, activity: Activity, cacheId: Activity -> string, a: seq<Event>, b: seq<Event>)
    ensures var first := Run(f, activity, cacheId, a);
            var second := Run(first.flags, activity, cacheId, b);
            Run(f, activity, cacheId, a + b) == Session(second.flags, first.sent + second.sent)
    decreases |a|
  {
    if |a| > 0 {
      assert (a + b)[0] == a[0];
      assert (a + b)[1..] == a[1..] + b;
      var step := Step(f, activity, cacheId, a[0]);
      var head := if step.sent.Some? then [step.sent.value] else [];
      var tail := Run(step.flags, activity, cacheId, a[1..]);
      var second := Run(tail.flags, activity, cacheId, b);
      assert Run(f, activity, cacheId, a) == Session(tail.flags, head + tail.sent);
      RunConcat(step.flags, activity, cacheId, a[1..], b);
      assert Run(step.flags, activity, cacheId, a[1..] + b) == Session(second.flags, tail.sent + second.sent);
      ConcatAssociative(head, tail.sent, second.sent);
    } else {
      assert a + b == b;
    }
  }

  lemma ConcatAssociative<T>(x: seq<T>, y: seq<T>, z: seq<T>)
    ensures x + (y + z) == (x + y) + z
  {
  }

  /** From the constructor's state, every sequence of actions ends at rest. */
  lemma SessionsEndAtRest(activity: Activity, cacheId: Activity -> string, events: seq<Event>)
    ensures AtRest(Run(Initial, activity, cacheId, events).flags)
  {
  }
}
