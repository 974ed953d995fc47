/** backend/ai_models.py: the sentiment-to-mood mapping, the playlist
    recommender and the structured support response, with every external
    service (the Hugging Face classifier, Spotify search, the LangChain chain)
    supplied as a function that returns an Outcome. */
module AiModels {
  import opened Outcomes
  import opened PyJson
  import opened Spotify

  // ---------------------------------------------------------------------
  // analyze_sentiment
  // ---------------------------------------------------------------------

  /** The first element of the classifier's output: its label and score.
      The score is a float in [0, 1] that is only passed along. */
  datatype Sentiment = Sentiment(classLabel: string, score: real)

  /** The sentiment classifier applied to the journal text. */
  type Classifier = Json -> Outcome<Sentiment>

  /** What analyze_sentiment returns: `(mood_category, score)`. */
  datatype Classification = Classification(category: string, score: real)

  /** The three mood categories the rest of the service works with. */
  predicate IsMoodCategory(m: string) {
    m == "happy" || m == "sad" || m == "neutral"
  }

  /** The label-to-category mapping of analyze_sentiment. */
  function MoodCategory(classLabel: string): (m: string)
    ensures IsMoodCategory(m)
    ensures m == "happy" <==> classLabel == "POSITIVE"
    ensures m == "sad" <==> classLabel == "NEGATIVE"
  {
    if classLabel == "POSITIVE" then "happy"
    else if classLabel == "NEGATIVE" then "sad"
    else "neutral"
  }

  /** analyze_sentiment(text): the classifier's failure is not caught here. */
  function AnalyzeSentiment(classify: Classifier, text: Json): (r: Outcome<Classification>)
    ensures r.Raised? <==> classify(text).Raised?
    ensures r.Ok? ==> IsMoodCategory(r.value.category)
    ensures r.Ok? ==> r.value.category == MoodCategory(classify(text).value.classLabel)
    ensures r.Ok? ==> r.value.score == classify(text).value.score
  {
    match classify(text)
    case Raised => Raised
    case Ok(s) => Ok(Classification(MoodCategory(s.classLabel), s.score))
  }

  // ---------------------------------------------------------------------
  // get_spotify_recommendations
  // ---------------------------------------------------------------------

  /** One entry of the mood_queries table. The genre hints are part of the
      table but are not sent with the search. */
  datatype MoodQuery = MoodQuery(query: string, genres: seq<string>)

  const MoodQueries: map<string, MoodQuery> := map[
    "happy" := MoodQuery("happy mood playlist", ["pop", "dance", "happy"]),
    "sad" := MoodQuery("sad mood playlist", ["acoustic", "sad", "rainy-day"]),
    "neutral" := MoodQuery("chill mood playlist", ["ambient", "chill", "relaxative"])
  ]

  /** `mood_queries.get(mood, mood_queries["neutral"])`. */
  function QueryFor(mood: string): (q: MoodQuery)
    ensures mood == "happy" ==> q.query == "happy mood playlist"
    ensures mood == "sad" ==> q.query == "sad mood playlist"
    ensures mood != "happy" && mood != "sad" ==> q.query == "chill mood playlist"
    ensures !IsMoodCategory(mood) ==> q == MoodQueries["neutral"]
  {
    if mood in MoodQueries then MoodQueries[mood] else MoodQueries["neutral"]
  }

  /** The one search issued for a mood: playlists only, at most two, US market. */
  function SearchFor(mood: string): SearchRequest {
    SearchRequest(QueryFor(mood).query, "playlist", 2, Some("US"))
  }

  /** The guard of the loop body: the item is truthy and has both a 'name'
      and an 'external_urls' key. */
  predicate Listed(p: PlaylistItem) {
    p.Entry? && p.name.Some? && p.externalUrls.Some?
  }

  /** The items the loop keeps, in the order the search returned them. */
  function Kept(items: seq<PlaylistItem>): (k: seq<PlaylistItem>)
    ensures |k| <= |items|
    ensures forall p :: p in k ==> Listed(p) && p in items
  {
    if items == [] then []
    else
      var last := items[|items| - 1];
      Kept(items[..|items| - 1]) + (if Listed(last) then [last] else [])
  }

  /** The records built from kept items whose URL lookup succeeds. */
  function Projected(k: seq<PlaylistItem>): (ps: seq<PlaylistRef>)
    requires forall p :: p in k ==> Complete(p)
    ensures |ps| == |k|
    ensures forall j :: 0 <= j < |k| ==> ps[j] == ToRef(k[j])
  {
    if k == [] then [] else Projected(k[..|k| - 1]) + [ToRef(k[|k| - 1])]
  }

  /** What lines 67-75 produce from the items: the projection of every kept
      item, or an exception (KeyError) when a kept item's 'external_urls'
      has no 'spotify' key. */
  function ListedPlaylists(items: seq<PlaylistItem>): (r: Outcome<seq<PlaylistRef>>)
    ensures r.Raised? <==> exists p :: p in Kept(items) && !Complete(p)
    ensures r.Ok? ==>
      |r.value| == |Kept(items)| && forall j :: 0 <= j < |Kept(items)| ==> r.value[j] == ToRef(Kept(items)[j])
  {
    if forall p :: p in Kept(items) ==> Complete(p) then Ok(Projected(Kept(items)))
    else Raised
  }

  /** The items of a search result when the guard at line 63 lets it through. */
  function ResultItems(results: SearchResult): Option<seq<PlaylistItem>> {
    if results.Found? && results.playlists.Some? && results.playlists.value.items.Some?
    then Some(results.playlists.value.items.value)
    else None
  }

  /** get_spotify_recommendations(mood) as a value: empty without a client,
      when the search raises, when the result is malformed, or when building
      a record raises; otherwise the records of the kept items. */
  function Recommendations(sp: SpotifyClient, mood: string): (ps: seq<PlaylistRef>)
    ensures sp.Uninitialized? ==> ps == []
  {
    match sp
    case Uninitialized => []
    case Connected(search) =>
      match search(SearchFor(mood))
      case Raised => []
      case Ok(results) =>
        match ResultItems(results)
        case None => []
        case Some(items) =>
          match ListedPlaylists(items)
          case Raised => []
          case Ok(ps) => ps
  }

  /** Kept(items) without the last item is the prefix of Kept(items). */
  lemma {:induction false} KeptOfPrefix(items: seq<PlaylistItem>, i: nat)
    requires i <= |items|
    ensures Kept(items[..i]) <= Kept(items)
    decreases |items|
  {
    if i < |items| {
      var init := items[..|items| - 1];
      assert init[..i] == items[..i];
      KeptOfPrefix(init, i);
    } else {
      assert items[..i] == items;
    }
  }

  /** The positions of the kept items in the search result. */
  ghost function KeptPositions(items: seq<PlaylistItem>): seq<nat> {
    if items == [] then []
    else
      KeptPositions(items[..|items| - 1])
      + (if Listed(items[|items| - 1]) then [|items| - 1] else [])
  }

  /** The loop keeps exactly the items that pass the guard, each once, in
      the order of the search result: Kept(items) is the subsequence of
      items at strictly increasing positions, and a position is among them
      exactly when its item passes the guard. */
  lemma {:induction false} KeptIsListedSubsequence(items: seq<PlaylistItem>)
    ensures |KeptPositions(items)| == |Kept(items)|
    ensures forall j :: 0 <= j < |KeptPositions(items)| ==>
      KeptPositions(items)[j] < |items| && Kept(items)[j] == items[KeptPositions(items)[j]]
    ensures forall a, b :: 0 <= a < b < |KeptPositions(items)| ==>
      KeptPositions(items)[a] < KeptPositions(items)[b]
    ensures forall i :: 0 <= i < |items| ==> (i in KeptPositions(items) <==> Listed(items[i]))
  {
    if items != [] {
      var n := |items| - 1;
      var init := items[..n];
      KeptIsListedSubsequence(init);
      var idx := KeptPositions(init);
      assert forall i :: 0 <= i < n ==> init[i] == items[i];
      assert forall j :: 0 <= j < |idx| ==> idx[j] < n;
    }
  }

  /** When the search yields items, the recommendations are the records of
      the kept items, one per kept item and in the same order, unless some
      kept item has no Spotify URL, in which case nothing is recommended. */
  lemma RecommendationsOfItems(search: Catalog, mood: string, items: seq<PlaylistItem>)
    requires search(SearchFor(mood)) == Ok(Found(Some(PlaylistPage(Some(items)))))
    ensures (forall p :: p in Kept(items) ==> Complete(p)) ==>
      |Recommendations(Connected(search), mood)| == |Kept(items)|
      && forall j :: 0 <= j < |Kept(items)| ==>
        Recommendations(Connected(search), mood)[j] == ToRef(Kept(items)[j])
    ensures (exists p :: p in Kept(items) && !Complete(p)) ==>
      Recommendations(Connected(search), mood) == []
    ensures |Recommendations(Connected(search), mood)| <= |items|
  {
    assert ResultItems(Found(Some(PlaylistPage(Some(items))))) == Some(items);
    var ps := Recommendations(Connected(search), mood);
    if forall p :: p in Kept(items) ==> Complete(p) {
      assert ps == Projected(Kept(items));
    } else {
      assert ps == [];
    }
  }

  /** Every failure of the search or of its result's shape yields no
      recommendations rather than an error. */
  lemma MalformedResultsRecommendNothing(search: Catalog, mood: string)
    requires search(SearchFor(mood)).Raised?
      || search(SearchFor(mood)) == Ok(NoResult)
      || search(SearchFor(mood)) == Ok(Found(None))
      || search(SearchFor(mood)) == Ok(Found(Some(PlaylistPage(None))))
    ensures Recommendations(Connected(search), mood) == []
  {
  }

  /** Extending the items by one extends what is kept by that item when it
      passes the guard. */
  lemma KeptStep(items: seq<PlaylistItem>, i: nat)
    requires i < |items|
    ensures Kept(items[..i + 1]) == Kept(items[..i]) + (if Listed(items[i]) then [items[i]] else [])
  {
    assert items[..i + 1][..i] == items[..i];
  }

  /** An item that passes the guard is kept. */
  lemma ListedIsKept(items: seq<PlaylistItem>, i: nat)
    requires i < |items| && Listed(items[i])
    ensures items[i] in Kept(items)
  {
    KeptStep(items, i);
    KeptOfPrefix(items, i + 1);
    var at := |Kept(items[..i])|;
    assert Kept(items[..i + 1])[at] == items[i];
    assert Kept(items)[at] == items[i];
  }

  /** Projecting one more complete item appends its record. */
  lemma ProjectedSnoc(k: seq<PlaylistItem>, p: PlaylistItem)
    requires forall q :: q in k ==> Complete(q)
    requires Complete(p)
    ensures Projected(k + [p]) == Projected(k) + [ToRef(p)]
  {
    assert (k + [p])[..|k|] == k;
  }

  /** The loop at lines 67-73: appends a record for each kept item, in order;
      the KeyError of a kept item without a Spotify URL ends it. */
  method CollectPlaylists(items: seq<PlaylistItem>) returns (r: Outcome<seq<PlaylistRef>>)
    ensures r == ListedPlaylists(items)
  {
    var playlists := [];
    var i := 0;
    while i < |items|
      invariant i <= |items|
      invariant forall p :: p in Kept(items[..i]) ==> Complete(p)
      invariant playlists == Projected(Kept(items[..i]))
    {
      var playlist := items[i];
      KeptStep(items, i);
      if playlist.Entry? && playlist.name.Some? && playlist.externalUrls.Some? {
        if playlist.externalUrls.value.spotify.None? {
          ListedIsKept(items, i);
          return Raised;
        }
        ProjectedSnoc(Kept(items[..i]), playlist);
        playlists := playlists + [PlaylistRef(playlist.name.value, playlist.externalUrls.value.spotify.value)];
      }
      i := i + 1;
    }
    assert items[..i] == items;
    return Ok(playlists);
  }

  /** get_spotify_recommendations: the client guard, the table lookup, one
      search, the result guard and the loop; an exception anywhere after the
      client guard is caught at line 77 and yields []. */
  method GetSpotifyRecommendations(sp: SpotifyClient, mood: string) returns (playlists: seq<PlaylistRef>)
    ensures playlists == Recommendations(sp, mood)
  {
    if sp.Uninitialized? {
      return [];
    }
    var moodInfo := QueryFor(mood);
    var results := sp.search(SearchRequest(moodInfo.query, "playlist", 2, Some("US")));
    if results.Raised? {
      return [];
    }
    var found := ResultItems(results.value);
    if found.None? {
      return [];
    }
    var collected := CollectPlaylists(found.value);
    playlists := if collected.Ok? then collected.value else [];
  }

  // ---------------------------------------------------------------------
  // generate_support_response
  // ---------------------------------------------------------------------

  /** What `json.loads` makes of the stripped chain output. */
  datatype LlmOutput = Undecodable | Decoded(value: Json)

  /** The LangChain chain run on (text, mood), followed by strip and
      json.loads; Raised when `chain.run` raises. */
  type SupportChain = (Json, string) -> Outcome<LlmOutput>

  /** The payload returned when the output is not JSON or lacks a key. */
  const SupportFallback: Json := Obj(map[
    "validation" := Str("I hear how challenging this is and it's understandable to feel this way."),
    "coping_strategies" := Arr([
      Str("Try a short mindfulness exercise, focusing on your breath for a few minutes."),
      Str("Write down three things you're grateful for today to shift your mindset.")
    ])
  ])

  /** Both required keys test present with Python's `in`. */
  predicate HasSupportKeys(v: Json) {
    Contains(v, "validation") == Ok(true) && Contains(v, "coping_strategies") == Ok(true)
  }

  /** The `in` test raises TypeError, which `except json.JSONDecodeError`
      does not catch. */
  predicate IsScalar(v: Json) {
    v.Null? || v.Bool? || v.Num?
  }

  /** generate_support_response(text, mood): the parsed output when both keys
      are in it, the fixed payload when it does not parse or lacks a key, and
      an exception when the chain raises or the parsed value is a scalar. */
  function GenerateSupportResponse(chain: SupportChain, text: Json, mood: string): (r: Outcome<Json>)
    ensures r.Raised? <==>
      chain(text, mood).Raised? || (chain(text, mood).value.Decoded? && IsScalar(chain(text, mood).value.value))
    ensures r.Ok? ==> HasSupportKeys(r.value)
    ensures r.Ok? && r.value != SupportFallback ==> chain(text, mood) == Ok(Decoded(r.value))
    ensures chain(text, mood).Ok? && chain(text, mood).value.Decoded? && HasSupportKeys(chain(text, mood).value.value)
      ==> r == Ok(chain(text, mood).value.value)
    ensures chain(text, mood) == Ok(Undecodable) ==> r == Ok(SupportFallback)
  {
    match chain(text, mood)
    case Raised => Raised
    case Ok(Undecodable) => Ok(SupportFallback)
    case Ok(Decoded(data)) =>
      match Contains(data, "validation")
      case Raised => Raised
      case Ok(false) => Ok(SupportFallback)
      case Ok(true) =>
        match Contains(data, "coping_strategies")
        case Raised => Raised
        case Ok(hasStrategies) => if hasStrategies then Ok(data) else Ok(SupportFallback)
  }

  /** Whatever generate_support_response returns is truthy. */
  lemma SupportResponseIsTruthy(chain: SupportChain, text: Json, mood: string)
    requires GenerateSupportResponse(chain, text, mood).Ok?
    ensures Truthy(GenerateSupportResponse(chain, text, mood).value)
  {
    var v := GenerateSupportResponse(chain, text, mood).value;
    assert HasSupportKeys(v);
    match v
    case Str(s) =>
      assert IsSubstring("validation", s);
      assert s != [];
    case _ =>
  }

  /** The check is on `in`, not on the shape: a list holding the two key
      names is returned as the payload, and a parsed number escapes as an
      exception instead of reaching the fallback. */
  lemma ShapeCheckIsMembership(chain: SupportChain, text: Json, mood: string)
    ensures chain(text, mood) == Ok(Decoded(Arr([Str("validation"), Str("coping_strategies")])))
      ==> GenerateSupportResponse(chain, text, mood) == Ok(Arr([Str("validation"), Str("coping_strategies")]))
    ensures chain(text, mood) == Ok(Decoded(Num(42.0)))
      ==> GenerateSupportResponse(chain, text, mood).Raised?
  {
  }
}
