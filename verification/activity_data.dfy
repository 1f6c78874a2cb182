/**
 * The activity record an `ActivityListItem` is given as its `activity` prop:
 * the Netflix viewing, the Trakt item it was matched to (if any), the crowd
 * suggestions, and the sync flags. Only the fields the item reads are modelled.
 */
module ActivityData {
  import opened Wrappers

  datatype NetflixItem = NetflixItem(id: int, title: string, epTitle: Option<string>)

  datatype Ids = Ids(slug: string)

  datatype Show = Show(title: string, ids: Ids)

  /** A Trakt movie or episode; episodes carry `season`, `number` and `show`. */
  datatype TraktItem = TraktItem(title: string, season: Option<int>, number: int, show: Option<Show>, ids: Ids)

  /** A crowd-sourced candidate: a Trakt path and how many users proposed it. */
  datatype Suggestion = Suggestion(url: string, count: int)

  datatype Activity = Activity(
    netflix: NetflixItem,
    trakt: Option<TraktItem>,
    suggestions: Option<seq<Suggestion>>,
    alreadyOnTrakt: bool,
    add: bool)

  /** JavaScript truthiness of an optional string: present and non-empty. */
  predicate TruthyString(s: Option<string>) {
    s.Some? && s.value != ""
  }

  /** JavaScript truthiness of an optional number: present and non-zero. */
  predicate TruthyNumber(n: Option<int>) {
    n.Some? && n.value != 0
  }
}
