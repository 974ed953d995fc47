/** backend/app.py: the earlier, monolithic version of the service. It maps
    labels inline, searches with a shorter query table, builds a record for
    every returned playlist without checking it, asks for a message for
    every mood, and catches nothing: any exception escapes the view. */
module App {
  import opened Outcomes
  import opened PyJson
  import opened Spotify
  import opened Http
  import AiModels

  /** The services the module-level objects reach. */
  datatype AppServices = AppServices(
    classify: AiModels.Classifier,          // sentiment_analyzer(text)[0]
    search: Catalog,                        // sp.search, the client built at import
    completion: string -> Outcome<string>)  // generate_personalized_message(mood)

  /** The label mapping written out in analyze_mood; it is the same mapping
      as analyze_sentiment's in ai_models. */
  function MoodOfLabel(classLabel: string): (m: string)
    ensures m == AiModels.MoodCategory(classLabel)
  {
    if classLabel == "POSITIVE" then "happy"
    else if classLabel == "NEGATIVE" then "sad"
    else "neutral"
  }

  const MoodQueries: map<string, string> := map["happy" := "happy", "sad" := "sad", "neutral" := "ambient"]

  /** `mood_queries.get(mood, "ambient")`. */
  function QueryFor(mood: string): (q: string)
    ensures mood == "happy" ==> q == "happy"
    ensures mood == "sad" ==> q == "sad"
    ensures mood != "happy" && mood != "sad" ==> q == "ambient"
  {
    if mood in MoodQueries then MoodQueries[mood] else "ambient"
  }

  /** The search for a mood: playlists only, at most two, no market. */
  function SearchFor(mood: string): SearchRequest {
    SearchRequest(QueryFor(mood), "playlist", 2, None)
  }

  /** `results['playlists']['items']`, which raises (TypeError or KeyError)
      unless both lookups succeed. */
  function ResultItems(results: SearchResult): Outcome<seq<PlaylistItem>> {
    if results.Found? && results.playlists.Some? && results.playlists.value.items.Some?
    then Ok(results.playlists.value.items.value)
    else Raised
  }

  /** The records of all items, one per item and in order; an exception as
      soon as one item lacks a name or a Spotify URL. */
  function ProjectAll(items: seq<PlaylistItem>): (r: Outcome<seq<PlaylistRef>>)
    ensures r.Ok? <==> forall p :: p in items ==> Complete(p)
    ensures r.Ok? ==> |r.value| == |items| && forall i :: 0 <= i < |items| ==> r.value[i] == ToRef(items[i])
  {
    if items == [] then Ok([])
    else
      var last := items[|items| - 1];
      match ProjectAll(items[..|items| - 1])
      case Raised => Raised
      case Ok(ps) => if Complete(last) then Ok(ps + [ToRef(last)]) else Raised
  }

  /** get_spotify_recommendations(mood) as a value. */
  function Recommendations(search: Catalog, mood: string): (r: Outcome<seq<PlaylistRef>>)
    ensures r.Raised? <==>
      search(SearchFor(mood)).Raised?
      || ResultItems(search(SearchFor(mood)).value).Raised?
      || exists p :: p in ResultItems(search(SearchFor(mood)).value).value && !Complete(p)
    ensures r.Ok? ==>
      var items := ResultItems(search(SearchFor(mood)).value).value;
      |r.value| == |items| && forall i :: 0 <= i < |items| ==> r.value[i] == ToRef(items[i])
  {
    match search(SearchFor(mood))
    case Raised => Raised
    case Ok(results) =>
      match ResultItems(results)
      case Raised => Raised
      case Ok(items) => ProjectAll(items)
  }

  /** get_spotify_recommendations: one search, then a record appended for
      every item; nothing is caught. */
  method GetSpotifyRecommendations(search: Catalog, mood: string) returns (r: Outcome<seq<PlaylistRef>>)
    ensures r == Recommendations(search, mood)
  {
    var results := search(SearchRequest(QueryFor(mood), "playlist", 2, None));
    if results.Raised? {
      return Raised;
    }
    var found := ResultItems(results.value);
    if found.Raised? {
      return Raised;
    }
    var items := found.value;
    var playlists := [];
    var i := 0;
    while i < |items|
      invariant i <= |items|
      invariant ProjectAll(items[..i]) == Ok(playlists)
    {
      var playlist := items[i];
      assert items[..i + 1][..i] == items[..i];
      if !Complete(playlist) {
        // playlist['name'] or playlist['external_urls']['spotify'] raises
        assert playlist in items[..i + 1];
        return Raised;
      }
      playlists := playlists + [PlaylistRef(playlist.name.value, playlist.externalUrls.value.spotify.value)];
      i := i + 1;
    }
    assert items[..i] == items;
    return Ok(playlists);
  }

  /** The keys of a successful reply body: there is no support payload. */
  const AnalysisKeys: set<string> := {"mood", "music_recommendations", "personalized_message"}

  /** analyze_mood(): 400 for a missing or falsy text; otherwise the mood,
      the recommendations and a message for every mood. Raised stands for an
      exception that escapes the view (Flask then answers with its own error
      page). */
  function AnalyzeMood(body: Json, services: AppServices): (r: Outcome<Reply>)
    ensures r.Ok? ==> r.value.status == 200 || r.value.status == 400
    ensures r == Ok(Reply(ErrorBody(NoTextProvided), 400)) <==>
      body.Obj? && !Truthy(TextOf(body.fields))
    ensures r.Ok? && r.value.status == 200 ==>
      r.value.body.Obj? && r.value.body.fields.Keys == AnalysisKeys
    ensures !body.Obj? ==> r.Raised?
    ensures body.Obj? && Truthy(TextOf(body.fields)) ==>
      var text := TextOf(body.fields);
      (services.classify(text).Raised? ==> r.Raised?)
      && (services.classify(text).Ok? ==>
        var mood := MoodOfLabel(services.classify(text).value.classLabel);
        (Recommendations(services.search, mood).Raised? ==> r.Raised?)
        && (services.completion(mood).Raised? ==> r.Raised?)
        && (r.Ok? ==>
          r.value.status == 200
          && r.value.body.fields["mood"] == Str(mood)
          && r.value.body.fields["music_recommendations"] == RefsJson(Recommendations(services.search, mood).value)
          && r.value.body.fields["personalized_message"] == Str(services.completion(mood).value)))
  {
    match Get(body, "text", Str(""))
    case Raised => Raised
    case Ok(text) =>
      if !Truthy(text) then Ok(Reply(ErrorBody(NoTextProvided), 400))
      else
        match services.classify(text)
        case Raised => Raised
        case Ok(sentiment) =>
          var mood := MoodOfLabel(sentiment.classLabel);
          match Recommendations(services.search, mood)
          case Raised => Raised
          case Ok(recommendations) =>
            match services.completion(mood)
            case Raised => Raised
            case Ok(message) =>
              Ok(Reply(Obj(map[
                "mood" := Str(mood),
                "music_recommendations" := RefsJson(recommendations),
                "personalized_message" := Str(message)
              ]), 200))
  }

  /** Unlike the blueprint, the earlier view asks for a message whatever the
      mood, and a failing generator makes the whole request fail. */
  lemma MessageForEveryMood(data: map<string, Json>, services: AppServices, s: AiModels.Sentiment)
    requires "text" in data && Truthy(data["text"])
    requires services.classify(data["text"]) == Ok(s)
    requires Recommendations(services.search, AiModels.MoodCategory(s.classLabel)).Ok?
    ensures var mood := AiModels.MoodCategory(s.classLabel);
      var r := AnalyzeMood(Obj(data), services);
      (services.completion(mood).Ok? ==>
        r.Ok? && r.value.status == 200
        && r.value.body.fields["mood"] == Str(mood)
        && r.value.body.fields["personalized_message"] == Str(services.completion(mood).value))
      && (services.completion(mood).Raised? ==> r.Raised?)
  {
    var mood := AiModels.MoodCategory(s.classLabel);
    assert Get(Obj(data), "text", Str("")) == Ok(data["text"]);
    assert MoodOfLabel(s.classLabel) == mood;
  }

  /** Given the same classifier outcome, the two handlers agree on the mood. */
  lemma SameMoodAsBlueprint(data: map<string, Json>, services: AppServices, s: AiModels.Sentiment)
    requires "text" in data && Truthy(data["text"])
    requires services.classify(data["text"]) == Ok(s)
    requires AnalyzeMood(Obj(data), services).Ok?
    ensures AnalyzeMood(Obj(data), services).value.body.fields["mood"]
      == Str(AiModels.AnalyzeSentiment(services.classify, data["text"]).value.category)
  {
  }
}
