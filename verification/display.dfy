/**
 * The values `ActivityListItem.render` derives from its activity before
 * building markup: titles, links, the form id, the suggestion entries and
 * which of the three secondary-action spans is displayed.
 */
module Display {
  import opened Wrappers
  import opened ActivityData
  import opened Decimal
  import opened Paths

  const NetflixWatchPrefix := "https://www.netflix.com/watch/"
  const TraktHost := "https://trakt.tv/"
  const FormIdSuffix := "--add"

  /** Two titles shown as one, `a: b`. */
  function JoinTitles(a: string, b: string): (r: string)
    ensures a <= r && |r| == |a| + 2 + |b|
    ensures r[|a|..|a| + 2] == ": " && r[|a| + 2..] == b
  {
    a + ": " + b
  }

  /** The Netflix title, followed by the episode title when there is a non-empty one. */
  function NetflixTitle(n: NetflixItem): (r: string)
    ensures n.title <= r
    ensures r == n.title <==> !TruthyString(n.epTitle)
    ensures TruthyString(n.epTitle) ==>
              && |r| == |n.title| + 2 + |n.epTitle.value|
              && r[|n.title|..|n.title| + 2] == ": "
              && r[|n.title| + 2..] == n.epTitle.value
  {
    if TruthyString(n.epTitle) then JoinTitles(n.title, n.epTitle.value) else n.title
  }

  /** Under one series title, the combined Netflix title tells episodes apart: equal exactly when the episode titles are. */
  lemma NetflixTitleSeparatesEpisodes(n: NetflixItem, m: NetflixItem)
    requires n.title == m.title
    ensures NetflixTitle(n) == NetflixTitle(m) <==>
              && TruthyString(n.epTitle) == TruthyString(m.epTitle)
              && (TruthyString(n.epTitle) ==> n.epTitle.value == m.epTitle.value)
  {
    if NetflixTitle(n) == NetflixTitle(m) && TruthyString(n.epTitle) && TruthyString(m.epTitle) {
      assert n.epTitle.value == NetflixTitle(n)[|n.title| + 2..];
    }
  }

  /** The Trakt title, preceded by the show title for an episode. */
  function TraktTitle(t: TraktItem): (r: string)
    ensures r == t.title <==> t.show.None?
    ensures t.show.Some? ==>
              && t.show.value.title <= r
              && |r| == |t.show.value.title| + 2 + |t.title|
              && r[|t.show.value.title|..|t.show.value.title| + 2] == ": "
              && r[|t.show.value.title| + 2..] == t.title
  {
    if t.show.Some? then JoinTitles(t.show.value.title, t.title) else t.title
  }

  /** Under one show, the combined Trakt title tells items apart: equal exactly when the item titles are. */
  lemma TraktTitleSeparatesItems(t: TraktItem, u: TraktItem)
    requires t.show.Some? <==> u.show.Some?
    requires t.show.Some? ==> t.show.value.title == u.show.value.title
    ensures TraktTitle(t) == TraktTitle(u) <==> t.title == u.title
  {
    if t.show.Some? && TraktTitle(t) == TraktTitle(u) {
      assert t.title == TraktTitle(t)[|t.show.value.title| + 2..];
    }
  }

  /** The Netflix watch page of the item. */
  function NetflixUrl(n: NetflixItem): (r: string)
    ensures StripPrefix(r, NetflixWatchPrefix) == Some(IntToString(n.id))
  {
    StripPrefixOfConcat(NetflixWatchPrefix, IntToString(n.id));
    NetflixWatchPrefix + IntToString(n.id)
  }

  /** The id shared by the sync switch and its label. */
  function FormId(n: NetflixItem): (r: string)
    ensures StripSuffix(r, FormIdSuffix) == Some(IntToString(n.id))
  {
    StripSuffixOfConcat(IntToString(n.id), FormIdSuffix);
    IntToString(n.id) + FormIdSuffix
  }

  /**
   * The Trakt page of the item: an episode page when `season` is truthy, a
   * movie page otherwise. `None` is the TypeError thrown when `season` is
   * truthy but `show` is undefined.
   */
  function TraktUrl(t: TraktItem): (r: Option<string>)
    ensures r.None? <==> TruthyNumber(t.season) && t.show.None?
    ensures r.Some? ==> TraktHost <= r.value
    ensures r.Some? && TruthyNumber(t.season) ==>
              StripPrefix(r.value, TraktHost)
              == Some(Join(["shows", t.show.value.ids.slug, "seasons", IntToString(t.season.value),
                            "episodes", IntToString(t.number)], '/'))
    ensures r.Some? && !TruthyNumber(t.season) ==>
              StripPrefix(r.value, TraktHost) == Some(Join(["movies", t.ids.slug], '/'))
  {
    if TruthyNumber(t.season) then
      match t.show
      case None => None
      case Some(show) =>
        var season := IntToString(t.season.value);
        var number := IntToString(t.number);
        var path := "shows/" + show.ids.slug + "/seasons/" + season + "/episodes/" + number;
        EpisodePathJoin(show.ids.slug, season, number);
        StripPrefixOfConcat(TraktHost, path);
        assert TraktHost + "shows/" + show.ids.slug + "/seasons/" + season + "/episodes/" + number
               == TraktHost + path;
        Some(TraktHost + "shows/" + show.ids.slug + "/seasons/" + season + "/episodes/" + number)
    else
      var path := "movies/" + t.ids.slug;
      assert Join(["movies", t.ids.slug], '/') == path;
      StripPrefixOfConcat(TraktHost, path);
      assert TraktHost + "movies/" + t.ids.slug == TraktHost + path;
      Some(TraktHost + "movies/" + t.ids.slug)
  }

  /** What a Trakt page URL designates. */
  datatype TraktRef = EpisodeRef(showSlug: string, season: int, number: int) | MovieRef(slug: string)

  /** The page an item is meant to link to, with the truthiness test on `season`. */
  function IntendedRef(t: TraktItem): TraktRef
    requires !TruthyNumber(t.season) || t.show.Some?
  {
    if TruthyNumber(t.season) then EpisodeRef(t.show.value.ids.slug, t.season.value, t.number)
    else MovieRef(t.ids.slug)
  }

  /** Reads a Trakt page URL back into what it designates. */
  function ParseTraktUrl(url: string): Option<TraktRef> {
    match StripPrefix(url, TraktHost)
    case None => None
    case Some(path) =>
      var parts := Split(path, '/');
      if |parts| == 2 && parts[0] == "movies" then Some(MovieRef(parts[1]))
      else if |parts| == 6 && parts[0] == "shows" && parts[2] == "seasons" && parts[4] == "episodes" then
        match (ParseInt(parts[3]), ParseInt(parts[5]))
        case (Some(season), Some(number)) => Some(EpisodeRef(parts[1], season, number))
        case _ => None
      else None
  }

  /** Reads a Netflix watch URL back into the Netflix id. */
  function ParseNetflixUrl(url: string): Option<int> {
    match StripPrefix(url, NetflixWatchPrefix)
    case None => None
    case Some(digits) => ParseInt(digits)
  }

  /** One entry of the suggestion list: its React key, the count, the link and the URL "use" submits. */
  datatype SuggestionEntry = SuggestionEntry(key: nat, count: int, href: string, text: string, useUrl: string)

  /** One entry per suggestion, in order; none when the list is absent or empty. */
  function SuggestionEntries(suggestions: Option<seq<Suggestion>>): (r: seq<SuggestionEntry>)
    ensures suggestions.None? ==> r == []
    ensures suggestions.Some? ==> |r| == |suggestions.value|
    ensures forall i :: 0 <= i < |r| ==>
              && r[i].key == i
              && r[i].count == suggestions.value[i].count
              && r[i].text == suggestions.value[i].url
              && r[i].useUrl == suggestions.value[i].url
              && StripPrefix(r[i].href, TraktHost) == Some(suggestions.value[i].url)
  {
    if suggestions.None? || |suggestions.value| == 0 then []
    else
      var s := suggestions.value;
      seq(|s|, i requires 0 <= i < |s| =>
        StripPrefixOfConcat(TraktHost, s[i].url);
        SuggestionEntry(i, s[i].count, TraktHost + s[i].url, s[i].url, s[i].url))
  }

  /** Which of the three secondary-action spans have `display: block`. */
  datatype SecondaryActions = SecondaryActions(notFound: bool, alreadySynced: bool, syncSwitch: bool)

  function Secondary(a: Activity): (v: SecondaryActions)
    ensures v.notFound <==> a.trakt.None?
    ensures v.alreadySynced <==> a.alreadyOnTrakt
    ensures v.syncSwitch <==> a.trakt.Some? && !a.alreadyOnTrakt
  {
    SecondaryActions(a.trakt.None?, a.alreadyOnTrakt, !(a.trakt.None? || a.alreadyOnTrakt))
  }

  datatype View = View(
    netflixTitle: string,
    netflixUrl: string,
    traktUrl: string,
    traktTitle: string,
    formId: string,
    suggestions: seq<SuggestionEntry>,
    actions: SecondaryActions,
    switchChecked: bool)

  /** Everything `render` derives; `None` when it throws. */
  function Render(a: Activity): (v: Option<View>)
    ensures v.None? <==> a.trakt.Some? && TraktUrl(a.trakt.value).None?
    ensures v.Some? ==> (v.value.traktUrl == "" <==> a.trakt.None?)
    ensures v.Some? && a.trakt.None? ==> v.value.traktTitle == ""
    ensures v.Some? ==> v.value.actions == Secondary(a)
    ensures v.Some? && a.trakt.Some? ==>
              && v.value.traktUrl == TraktUrl(a.trakt.value).value
              && v.value.traktTitle == TraktTitle(a.trakt.value)
    ensures v.Some? ==> v.value.netflixTitle == NetflixTitle(a.netflix)
    ensures v.Some? ==> StripPrefix(v.value.netflixUrl, NetflixWatchPrefix) == Some(IntToString(a.netflix.id))
    ensures v.Some? ==> StripSuffix(v.value.formId, FormIdSuffix) == Some(IntToString(a.netflix.id))
    ensures v.Some? ==> v.value.suggestions == SuggestionEntries(a.suggestions)
    ensures v.Some? ==> v.value.switchChecked == a.add
  {
    var traktLink := if a.trakt.Some? then TraktUrl(a.trakt.value) else Some("");
    match traktLink
    case None => None
    case Some(traktUrl) =>
      Some(View(
        NetflixTitle(a.netflix),
        NetflixUrl(a.netflix),
        traktUrl,
        if a.trakt.Some? then TraktTitle(a.trakt.value) else "",
        FormId(a.netflix),
        SuggestionEntries(a.suggestions),
        Secondary(a),
        a.add))
  }

  /** The watch URL names the Netflix item it was built from. */
  lemma NetflixUrlRoundTrip(n: NetflixItem)
    ensures ParseNetflixUrl(NetflixUrl(n)) == Some(n.id)
  {
    StripPrefixOfConcat(NetflixWatchPrefix, IntToString(n.id));
    IntRoundTrip(n.id);
  }

  /** Two Netflix items share a form id exactly when they share a Netflix id. */
  lemma FormIdInjective(a: NetflixItem, b: NetflixItem)
    ensures FormId(a) == FormId(b) <==> a.id == b.id
  {
    if FormId(a) == FormId(b) {
      StripSuffixOfConcat(IntToString(a.id), FormIdSuffix);
      StripSuffixOfConcat(IntToString(b.id), FormIdSuffix);
      IntToStringInjective(a.id, b.id);
    }
  }

  predicate NoSlash(s: string) {
    '/' !in s
  }

  /** The path of an episode page, as segments. */
  lemma EpisodePathJoin(slug: string, season: string, number: string)
    ensures Join(["shows", slug, "seasons", season, "episodes", number], '/')
            == "shows/" + slug + "/seasons/" + season + "/episodes/" + number
  {
    var parts := ["shows", slug, "seasons", season, "episodes", number];
    assert Join(parts[4..], '/') == "episodes/" + number;
    assert Join(parts[3..], '/') == season + "/episodes/" + number;
    assert Join(parts[2..], '/') == "seasons/" + season + "/episodes/" + number;
    assert Join(parts[1..], '/') == slug + "/seasons/" + season + "/episodes/" + number;
  }

  lemma EpisodeUrlParses(slug: string, season: int, number: int)
    requires NoSlash(slug)
    ensures ParseTraktUrl(TraktHost + "shows/" + slug + "/seasons/" + IntToString(season)
                          + "/episodes/" + IntToString(number))
            == Some(EpisodeRef(slug, season, number))
  {
    var s := IntToString(season);
    var n := IntToString(number);
    var parts := ["shows", slug, "seasons", s, "episodes", n];
    var path := "shows/" + slug + "/seasons/" + s + "/episodes/" + n;
    assert TraktHost + "shows/" + slug + "/seasons/" + s + "/episodes/" + n == TraktHost + path;
    EpisodePathJoin(slug, s, n);
    StripPrefixOfConcat(TraktHost, path);
    SplitJoin(parts, '/');
    IntRoundTrip(season);
    IntRoundTrip(number);
  }

  lemma MovieUrlParses(slug: string)
    requires NoSlash(slug)
    ensures ParseTraktUrl(TraktHost + "movies/" + slug) == Some(MovieRef(slug))
  {
    var parts := ["movies", slug];
    var path := "movies/" + slug;
    assert Join(parts, '/') == path;
    assert TraktHost + "movies/" + slug == TraktHost + path;
    StripPrefixOfConcat(TraktHost, path);
    SplitJoin(parts, '/');
  }

  /** The Trakt URL, when it renders, designates the intended page (slugs never contain `/`). */
  lemma TraktUrlRoundTrip(t: TraktItem)
    requires !TruthyNumber(t.season) ==> NoSlash(t.ids.slug)
    requires TruthyNumber(t.season) && t.show.Some? ==> NoSlash(t.show.value.ids.slug)
    ensures TraktUrl(t).Some? ==> ParseTraktUrl(TraktUrl(t).value) == Some(IntendedRef(t))
  {
    if TruthyNumber(t.season) && t.show.Some? {
      EpisodeUrlParses(t.show.value.ids.slug, t.season.value, t.number);
    } else if !TruthyNumber(t.season) {
      MovieUrlParses(t.ids.slug);
    }
  }

  /** The switch is never displayed beside either other span, and some span is always displayed. */
  lemma SecondaryActionsExclusive(a: Activity)
    ensures Secondary(a).syncSwitch ==> !Secondary(a).notFound && !Secondary(a).alreadySynced
    ensures Secondary(a).notFound || Secondary(a).alreadySynced || Secondary(a).syncSwitch
  {
  }
}
