# traktflix activity list item — a Dafny model

This project models the logic inside `ActivityListItem`, the React list item of
traktflix's history-sync page. Each item shows one Netflix viewing next to the
Trakt movie or episode it was matched to. The user can correct the match by
pasting a Trakt URL or by using a crowd-sourced suggestion. After a successful
correction, the item may report the pair to a shared suggestion service.

The model has three parts.

- **Correction-form flags** (`FormFlags`). The item's four React state booleans
  are `isUpdating`, `showTraktURLForm`, `traktClick` and `traktError`. Each
  `setState` in the handlers is a pure update on a `Flags` record.
- **Submission and crowd-sync** (`CrowdSync`, `Submission`). `_onSubmitTraktURL`
  and `_onUseSuggestion` are atomic functions over the answers of their
  collaborators:
  - the URL resolver;
  - the options read;
  - the host-permission check;
  - the activity's cache id.

  Each awaited answer is `Returned(v)` or `Threw`. The cache id is a plain
  function of the activity. Every exception inside the `try`
  block reaches the same `catch`. The publish decision follows the
  short-circuiting `&&` chain: the permission check is asked only when the
  options are present and opted in. It yields at most one `POST` to the fixed
  endpoint, with `{id: cacheId(activity), url}` as its params. Sequences of user
  actions are run by `Run`.
- **Render derivations** (`Display`). These are the Netflix and Trakt titles,
  the Netflix watch URL, the form id, the Trakt page URL, the suggestion
  entries, which secondary-action span is displayed, and the switch's
  checked value. JavaScript truthiness
  is explicit. An empty `epTitle` is falsy. A `season` of `0` is falsy, so such
  an item links to a movie page. A truthy `season` without a `show` makes
  `render` throw; `Render` returns `None` for that case.

The derivations are related to independent definitions:
- `ParseTraktUrl` and `ParseNetflixUrl` read the URLs back, and the form id
  determines the Netflix id.
- `Split` undoes `Join` for segments without `/`. `ParseInt` undoes the
  template-literal rendering `IntToString`, and accepts only canonical text
  (no leading zeros, no `-0`), so reading back fixes the rendered digits.
- The combined titles are pinned position by position (title, `: `, episode
  or item title). Under one series title the combined Netflix title
  separates episodes, and under one show title the combined Trakt title
  separates items.
- `AtRest` is the invariant every handler establishes once it has finished:
  `isUpdating` is not left set while the form is displayed. While a
  resolution is awaited (lines 35-37) both are set, and line 104 passes that
  state to the form; the handlers are modelled as atomic, so that
  intermediate state is not a value of the model.
- Each `setState` is a `Patch` merged by `SetState`; the handlers' patches are
  written as the source's object literals.

The rest of the project only supports these parts. `Wrappers` holds `Option`
and `Awaited`. `Decimal` renders integers and parses them back. `Paths`
splits, joins and strips path strings.

## Behaviour worth knowing

- A successful submission does not clear `isUpdating`; only the form is
  hidden (line 38). `isUpdating` stays `true` until the paste link reopens
  the form (line 26) or a later submission fails (line 53); the suggestion
  link shows the form again without clearing it (line 30).
- The options read and the permission check run inside the same `try` as the
  resolution (lines 39-40). If either throws, `traktError` is set and
  `isUpdating` cleared, and by then the form has already been hidden.
- Toggling an already-synced activity is not rejected: the switch is only
  hidden (line 114), and `_onChange` forwards `checked` unconditionally
  (line 22).
- The correction form's state is four independent booleans, not a single
  enumerated phase; the model keeps the four booleans.

## Model

| member | source | states |
|---|---|---|
| FormFlags.OpenForm | src/class/history-sync/ActivityListItem.js:25-27 | opening the form shows it and leaves every other flag as the constructor sets it, whatever the prior state |
| FormFlags.OpenFormForgetsHistory | src/class/history-sync/ActivityListItem.js:25-27 | the result of opening the form does not depend on the prior flags; opening twice is opening once; the result is at rest |
| FormFlags.MarkSuggestionClick | src/class/history-sync/ActivityListItem.js:29-30 | using a suggestion shows the form and sets `traktClick`, keeping `isUpdating` and `traktError` |
| FormFlags.BeginUpdate | src/class/history-sync/ActivityListItem.js:34-35 | starting a submission sets `isUpdating` and changes no other flag |
| FormFlags.HideForm | src/class/history-sync/ActivityListItem.js:37-38 | after a successful resolution only `showTraktURLForm` changes, to false |
| FormFlags.CatchError | src/class/history-sync/ActivityListItem.js:52-54 | the catch block clears `isUpdating`, sets `traktError`, and leaves `showTraktURLForm` and `traktClick` as they were |
| CrowdSync.Post | src/class/history-sync/ActivityListItem.js:41-50 | the crowd-sync request is a POST to the fixed endpoint whose params are the cache id and the submitted URL |
| CrowdSync.Decide | src/class/history-sync/ActivityListItem.js:39-41 | the permission check is asked, about the two script.google origins, exactly when options are present and opted in; a request is sent exactly when, in addition, permission is granted; the check's exception propagates exactly when it was asked and threw |
| CrowdSync.ResponsesAreIgnored | src/class/history-sync/ActivityListItem.js:48-49 | the success and error callbacks of the crowd-sync request are empty, so whatever the endpoint answers, the flags stay as they were |
| CrowdSync.OptedIn | src/class/history-sync/ActivityListItem.js:40 | the first two operands of the condition: false when `options` is absent, and otherwise exactly `sendReceiveSuggestions` |
| FormFlags.SetState | src/class/history-sync/ActivityListItem.js:26 | a `setState` patch overwrites exactly the fields it names and keeps every other field |
| Submission.Submit | src/class/history-sync/ActivityListItem.js:34-55 | options are read only after resolution succeeds; one request, with the cache id and URL, is sent exactly when all four conditions hold; `isUpdating` ends false exactly when an awaited call threw, which sets `traktError`; the form stays shown only if resolution threw and it was shown; `traktClick` is untouched |
| Submission.UseSuggestion | src/class/history-sync/ActivityListItem.js:29-32 | a suggestion submission ends with `traktClick` set; the form is shown afterwards exactly when resolution threw; the request sent and the collaborators asked are those of a plain submission |
| Submission.SubmitIdempotent | src/class/history-sync/ActivityListItem.js:34-55 | resubmitting the same URL with the same collaborator answers leaves the flags unchanged and sends the same request |
| Submission.PublishingDoesNotAffectFlags | src/class/history-sync/ActivityListItem.js:40-51 | whether the permission is granted changes only the send, never the flags |
| Submission.Step | src/class/history-sync/ActivityListItem.js:25-55 | every handler, once finished, leaves the flags at rest (`isUpdating` implies the form is hidden); a request is sent exactly for a submission whose collaborators let it through, and carries that submission's URL |
| Submission.Run | src/class/history-sync/ActivityListItem.js:25-55 | over a sequence of actions, the requests sent are one POST per publishing submission, in order, with its URL and the activity's cache id; being at rest is preserved |
| Submission.RunConcat | src/class/history-sync/ActivityListItem.js:25-55 | running two action sequences in turn equals running their concatenation, flags and sent requests alike |
| Submission.SessionsEndAtRest | src/class/history-sync/ActivityListItem.js:14 | starting from the constructor's flags, every sequence of completed actions ends at rest |
| Decimal.IntToString | src/class/history-sync/ActivityListItem.js:61 | `${n}` for an integer is non-empty, contains no `/`, and starts with `-` exactly for a negative number |
| Decimal.IntRoundTrip | src/class/history-sync/ActivityListItem.js:61 | the template-literal rendering of an integer parses back to that integer |
| Decimal.IntCanonical | src/class/history-sync/ActivityListItem.js:69 | the only text that reads back as an integer is that integer's `${n}` rendering |
| Decimal.IntToStringInjective | src/class/history-sync/ActivityListItem.js:73 | two integers render identically exactly when they are equal |
| Display.JoinTitles | src/class/history-sync/ActivityListItem.js:60 | a combined title is the first title, then `: `, then the second |
| Display.NetflixTitle | src/class/history-sync/ActivityListItem.js:60 | the Netflix title is extended exactly when `epTitle` is truthy, and is then the title, `: `, and the episode title |
| Display.NetflixTitleSeparatesEpisodes | src/class/history-sync/ActivityListItem.js:60 | for two items with the same title, the combined titles are equal exactly when both or neither have a truthy episode title and those episode titles agree |
| Display.TraktTitle | src/class/history-sync/ActivityListItem.js:70 | the Trakt title is extended exactly when `show` is present, and is then the show title, `: `, and the item title |
| Display.TraktTitleSeparatesItems | src/class/history-sync/ActivityListItem.js:70 | for two items that both lack a show, or share a show title, the combined titles are equal exactly when the item titles are |
| Display.TraktUrl | src/class/history-sync/ActivityListItem.js:69 | the Trakt URL fails to render exactly when `season` is truthy and `show` is absent; otherwise it is the Trakt host followed by the path `shows/<show slug>/seasons/${season}/episodes/${number}` when `season` is truthy, and `movies/<slug>` otherwise |
| Display.EpisodeUrlParses | src/class/history-sync/ActivityListItem.js:69 | for a show slug without `/`, an episode URL reads back as the show slug, the season and the episode number |
| Display.MovieUrlParses | src/class/history-sync/ActivityListItem.js:69 | for a slug without `/`, a movie URL reads back as the movie slug |
| Display.TraktUrlRoundTrip | src/class/history-sync/ActivityListItem.js:69 | when the slug the URL uses contains no `/`, the Trakt URL reads back as the episode page when `season` is truthy, and as the movie page otherwise |
| Display.NetflixUrl | src/class/history-sync/ActivityListItem.js:61 | the watch URL is the Netflix watch prefix followed by `${netflix.id}` |
| Display.FormId | src/class/history-sync/ActivityListItem.js:73 | the form id is `${netflix.id}` followed by `--add` |
| Display.NetflixUrlRoundTrip | src/class/history-sync/ActivityListItem.js:61 | the Netflix watch URL reads back as the Netflix id |
| Display.FormIdInjective | src/class/history-sync/ActivityListItem.js:73 | two items share a form id exactly when they share a Netflix id |
| Display.SuggestionEntries | src/class/history-sync/ActivityListItem.js:75-82 | one entry per suggestion, in order, keyed by its index; each shows its count and URL, links to the URL on the Trakt host, and submits that URL when used; no entries when suggestions are absent |
| Display.Secondary | src/class/history-sync/ActivityListItem.js:108-114 | "not found" is shown exactly when there is no Trakt item; "already synced" exactly when `alreadyOnTrakt`; the switch exactly when there is a Trakt item that is not already synced |
| Display.SecondaryActionsExclusive | src/class/history-sync/ActivityListItem.js:108-114 | the switch is never shown beside either other span, and at least one span is shown |
| Display.Render | src/class/history-sync/ActivityListItem.js:57-116 | render throws exactly when the Trakt URL cannot be built; otherwise the Trakt URL and title are those of the Trakt item, or empty when there is none; the Netflix title is `NetflixTitle`'s; the watch URL is the watch prefix followed by `${netflix.id}`; the form id is `${netflix.id}` followed by `--add`; the suggestion entries are `SuggestionEntries`'s; the secondary spans follow `Secondary`; the switch's checked value is `activity.add` (line 116) |

## Left out

- Markup, MDL classes, `componentDidMount`/`upgradeDom`, `TmdbImage` and the `browser.i18n` strings: presentation only.
- Date formatting (lines 68 and 99): a moment.js call whose code is not part of this model.
- `_onChange` (lines 21-23): it forwards `checked` to `ActivityActionCreators.toggleActivity`, an opaque collaborator. There is no rule of the item's own to state.
- The internals of `TraktWebAPIUtils`, `BrowserStorage`, `Permissions` and `Request`: their sources are not part of this model. The resolver's effect on the activity record is therefore not modelled. Resolutions appear only as `Returned` or `Threw`, and the cache id only as a function parameter.
- Submission.Submit: `_getTraktCacheId` and `Request.send` are taken not to throw synchronously. If they did, the exception would also reach the `catch`.
- Submission.Submit: a `BrowserStorage.get` that resolves to `undefined` throws at `storage.options`; it is covered by `Threw`.
- Async interleaving: the unawaited `_onSubmitTraktURL` call in `_onUseSuggestion`, React's `setState` batching and concurrent submissions. Each handler is one atomic update.
- Decimal.IntToString: models `${n}` only for integral numbers, in plain decimal notation. JavaScript switches to exponent notation from 10^21, and NaN and `undefined` render as words.
- Truthiness is modelled for the value kinds the item meets: optional strings, optional numbers, optional objects and booleans.
