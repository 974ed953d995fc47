/** The part of the Spotify Web API search that the recommenders use: the
    request they send, the shape of the result they read, and the
    `{name, url}` record they build from each playlist. */
module Spotify {
  import opened Outcomes
  import opened PyJson

  /** The arguments of one `sp.search(...)` call. */
  datatype SearchRequest = SearchRequest(q: string, kind: string, limit: nat, market: Option<string>)

  /** The value under a playlist's 'external_urls' key. `spotify` is None when
      that value has no 'spotify' key or is not a dict; subscripting it with
      'spotify' then raises either way. */
  datatype ExternalUrls = ExternalUrls(spotify: Option<string>)

  /** One element of `results['playlists']['items']`: None (the API returns
      null for playlists it cannot show) or a dict whose 'name' and
      'external_urls' keys may each be missing. */
  datatype PlaylistItem =
    | NullItem
    | Entry(name: Option<string>, externalUrls: Option<ExternalUrls>)

  /** The value under 'playlists'; `items` is None when it has no 'items' key. */
  datatype PlaylistPage = PlaylistPage(items: Option<seq<PlaylistItem>>)

  /** What `sp.search` returns: a falsy value (None or an empty dict), or a
      dict whose 'playlists' entry is None when the key is missing or its
      value is not a dict. */
  datatype SearchResult =
    | NoResult
    | Found(playlists: Option<PlaylistPage>)

  /** The search service behind a Spotify client: what each request returns,
      or that the call raised. */
  type Catalog = SearchRequest -> Outcome<SearchResult>

  /** The module-level client `sp`: None when its construction failed. */
  datatype SpotifyClient = Uninitialized | Connected(search: Catalog)

  /** A recommendation as sent to the browser: `{"name": ..., "url": ...}`. */
  datatype PlaylistRef = PlaylistRef(name: string, url: string)

  /** Both `playlist['name']` and `playlist['external_urls']['spotify']`
      can be evaluated without raising. */
  predicate Complete(p: PlaylistItem) {
    p.Entry? && p.name.Some? && p.externalUrls.Some? && p.externalUrls.value.spotify.Some?
  }

  /** `{"name": playlist['name'], "url": playlist['external_urls']['spotify']}`. */
  function ToRef(p: PlaylistItem): PlaylistRef
    requires Complete(p)
  {
    PlaylistRef(p.name.value, p.externalUrls.value.spotify.value)
  }

  /** The JSON array jsonify emits for a list of recommendations. */
  function RefsJson(ps: seq<PlaylistRef>): (j: Json)
    ensures j.Arr? && |j.elems| == |ps|
    ensures forall i :: 0 <= i < |ps| ==>
      j.elems[i] == Obj(map["name" := Str(ps[i].name), "url" := Str(ps[i].url)])
  {
    Arr(seq(|ps|, i requires 0 <= i < |ps| => Obj(map["name" := Str(ps[i].name), "url" := Str(ps[i].url)])))
  }

  /** Reads one emitted entry back: the object with exactly the keys name
      and url, both strings; None for anything else. */
  function RefOf(j: Json): (r: Option<PlaylistRef>)
    ensures r.Some? ==> j == Obj(map["name" := Str(r.value.name), "url" := Str(r.value.url)])
  {
    if j.Obj? && j.fields.Keys == {"name", "url"} && j.fields["name"].Str? && j.fields["url"].Str?
    then
      assert j.fields == map["name" := j.fields["name"], "url" := j.fields["url"]];
      Some(PlaylistRef(j.fields["name"].s, j.fields["url"].s))
    else None
  }

  /** Reads a list of emitted entries back, failing if any entry is not a record. */
  function RefsOfElems(es: seq<Json>): (r: Option<seq<PlaylistRef>>)
    ensures r.Some? ==> |r.value| == |es|
  {
    if es == [] then Some([])
    else
      match RefOf(es[0])
      case None => None
      case Some(p) =>
        match RefsOfElems(es[1..])
        case None => None
        case Some(ps) => Some([p] + ps)
  }

  /** Reads an emitted recommendations list back. */
  function RefsOf(j: Json): Option<seq<PlaylistRef>> {
    if j.Arr? then RefsOfElems(j.elems) else None
  }

  lemma {:induction false} RefsOfElemsPointwise(es: seq<Json>, ps: seq<PlaylistRef>)
    requires |es| == |ps|
    requires forall i :: 0 <= i < |es| ==> RefOf(es[i]) == Some(ps[i])
    ensures RefsOfElems(es) == Some(ps)
  {
    if es != [] {
      RefsOfElemsPointwise(es[1..], ps[1..]);
      assert [ps[0]] + ps[1..] == ps;
    }
  }

  /** The list jsonify emits carries every record's name and url unchanged
      and in order: reading it back gives exactly the records. */
  lemma RefsRoundTrip(ps: seq<PlaylistRef>)
    ensures RefsOf(RefsJson(ps)) == Some(ps)
  {
    var j := RefsJson(ps);
    forall i | 0 <= i < |j.elems|
      ensures RefOf(j.elems[i]) == Some(ps[i])
    {
      assert j.elems[i].fields.Keys == {"name", "url"};
    }
    RefsOfElemsPointwise(j.elems, ps);
  }

  /** Different recommendation lists are never emitted as the same JSON list. */
  lemma RefsJsonInjective(ps: seq<PlaylistRef>, qs: seq<PlaylistRef>)
    requires RefsJson(ps) == RefsJson(qs)
    ensures ps == qs
  {
    RefsRoundTrip(ps);
    RefsRoundTrip(qs);
  }
}
