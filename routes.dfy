/** backend/routes.py: the POST /analyze handler of the blueprint, as a
    function from the request body and the external services to the reply. */
module Routes {
  import opened Outcomes
  import opened PyJson
  import opened Spotify
  import opened Http
  import opened AiModels

  /** The services the handler reaches through the functions of ai_models. */
  datatype Services = Services(
    classify: Classifier,                   // sentiment_analyzer(text)[0]
    spotify: SpotifyClient,                 // the module-level client sp
    personalMessage: string -> Outcome<string>,  // generate_personalized_message(mood)
    supportChain: SupportChain)             // chain.run(...), strip, json.loads

  const MessageFallback := "Thank you for sharing your feelings!"

  /** The payload the handler substitutes when generate_support_response raises. */
  const HandlerSupportFallback: Json := Obj(map[
    "validation" := Str("I understand it might be tough."),
    "coping_strategies" := Arr([Str("Take a short walk."), Str("Try deep breathing.")])
  ])

  const ServerErrorMessage := "An error occurred processing your request"

  /** The keys of a successful reply body. */
  const AnalysisKeys: set<string> :=
    {"mood", "music_recommendations", "personalized_message", "support_response"}

  /** The personalized message: only for a sad mood, with the fixed string
      when the generator raises; None otherwise. */
  function MessageFor(services: Services, mood: string): Json {
    if mood == "sad" then
      match services.personalMessage(mood)
      case Ok(m) => Str(m)
      case Raised => Str(MessageFallback)
    else Null
  }

  /** The support payload, with the handler's own fallback when
      generate_support_response raises. */
  function SupportFor(services: Services, text: Json, mood: string): Json {
    match GenerateSupportResponse(services.supportChain, text, mood)
    case Ok(s) => s
    case Raised => HandlerSupportFallback
  }

  /** analyze_mood(): 400 for a missing or falsy text before any service is
      used, 500 for any exception that escapes the steps (a body that is not
      a dict, a failing classifier), 200 with the four keys otherwise. */
  function AnalyzeMood(body: Json, services: Services): (reply: Reply)
    ensures reply.status == 200 || reply.status == 400 || reply.status == 500
    ensures reply.status == 400 <==> body.Obj? && !Truthy(TextOf(body.fields))
    ensures reply.status == 400 ==> reply.body == ErrorBody(NoTextProvided)
    ensures reply.status == 500 <==>
      !body.Obj? || (Truthy(TextOf(body.fields)) && services.classify(TextOf(body.fields)).Raised?)
    ensures reply.status == 500 ==> reply.body == ErrorBody(ServerErrorMessage)
    ensures reply.status == 200 ==> reply.body.Obj? && reply.body.fields.Keys == AnalysisKeys
  {
    match Get(body, "title", Str(""))
    case Raised => Reply(ErrorBody(ServerErrorMessage), 500)
    case Ok(_) =>
      // location and weather are read the same way; none of the three is used
      match Get(body, "text", Str(""))
      case Raised => Reply(ErrorBody(ServerErrorMessage), 500)
      case Ok(text) =>
        if !Truthy(text) then Reply(ErrorBody(NoTextProvided), 400)
        else
          match AnalyzeSentiment(services.classify, text)
          case Raised => Reply(ErrorBody(ServerErrorMessage), 500)
          case Ok(c) =>
            var mood := c.category;
            var recommendations := Recommendations(services.spotify, mood);
            var message := MessageFor(services, mood);
            var support := SupportFor(services, text, mood);
            Reply(Obj(map[
              "mood" := Str(mood),
              "music_recommendations" := RefsJson(recommendations),
              "personalized_message" := message,
              "support_response" := if Truthy(support) then support else Str("")
            ]), 200)
  }

  /** A successful reply carries the classifier's category, the
      recommender's list unchanged, a message exactly when the mood is sad,
      and the support payload: generate_support_response's result unless
      it raises, always with both keys and never the empty string. */
  lemma SuccessfulReply(data: map<string, Json>, services: Services, s: Sentiment)
    requires Truthy(TextOf(data)) && services.classify(TextOf(data)) == Ok(s)
    ensures var reply := AnalyzeMood(Obj(data), services);
      var mood := MoodCategory(s.classLabel);
      reply.status == 200
      && reply.body.fields["mood"] == Str(mood)
      && reply.body.fields["music_recommendations"] == RefsJson(Recommendations(services.spotify, mood))
      && (reply.body.fields["personalized_message"] != Null <==> mood == "sad")
      && HasSupportKeys(reply.body.fields["support_response"])
      && (GenerateSupportResponse(services.supportChain, TextOf(data), mood).Ok? ==>
        reply.body.fields["support_response"] == GenerateSupportResponse(services.supportChain, TextOf(data), mood).value)
  {
    var text := TextOf(data);
    var mood := MoodCategory(s.classLabel);
    var support := SupportFor(services, text, mood);
    match GenerateSupportResponse(services.supportChain, text, mood)
    case Ok(v) =>
      SupportResponseIsTruthy(services.supportChain, text, mood);
    case Raised =>
      assert support == HandlerSupportFallback;
      assert HasSupportKeys(HandlerSupportFallback);
  }

  /** For a sad mood the message is the generator's text, or the fixed
      string when the generator raises. */
  lemma SadMessage(data: map<string, Json>, services: Services, s: Sentiment)
    requires Truthy(TextOf(data)) && services.classify(TextOf(data)) == Ok(s)
    requires s.classLabel == "NEGATIVE"
    ensures AnalyzeMood(Obj(data), services).body.fields["personalized_message"] ==
      if services.personalMessage("sad").Ok? then Str(services.personalMessage("sad").value)
      else Str(MessageFallback)
  {
  }

  /** When generate_support_response raises, the reply carries the
      handler's own fixed payload. */
  lemma SupportFallbackOnRaise(data: map<string, Json>, services: Services, s: Sentiment)
    requires Truthy(TextOf(data)) && services.classify(TextOf(data)) == Ok(s)
    requires GenerateSupportResponse(services.supportChain, TextOf(data), MoodCategory(s.classLabel)).Raised?
    ensures AnalyzeMood(Obj(data), services).body.fields["support_response"] == HandlerSupportFallback
  {
    assert "validation" in HandlerSupportFallback.fields;
  }

  /** A missing or falsy text is rejected whatever the services would do:
      none of them is consulted. */
  lemma NoServiceForEmptyText(data: map<string, Json>, services: Services, others: Services)
    requires !Truthy(TextOf(data))
    ensures AnalyzeMood(Obj(data), services) == AnalyzeMood(Obj(data), others)
      == Reply(ErrorBody(NoTextProvided), 400)
  {
  }

  /** The message generator is consulted only for a sad mood: replacing it
      changes nothing for any other mood. */
  lemma MessageGeneratorOnlyWhenSad(body: Json, services: Services, generator: string -> Outcome<string>)
    requires body.Obj? && Truthy(TextOf(body.fields))
    requires services.classify(TextOf(body.fields)).Ok?
    requires services.classify(TextOf(body.fields)).value.classLabel != "NEGATIVE"
    ensures AnalyzeMood(body, services) == AnalyzeMood(body, services.(personalMessage := generator))
  {
  }

  /** title, location and weather do not influence the reply. */
  lemma UnusedFieldsIgnored(data: map<string, Json>, key: string, value: Json, services: Services)
    requires key == "title" || key == "location" || key == "weather"
    ensures AnalyzeMood(Obj(data[key := value]), services) == AnalyzeMood(Obj(data), services)
  {
    assert TextOf(data[key := value]) == TextOf(data);
  }

  /** The journal entry "I lost my job today" classified NEGATIVE: the mood
      is sad, the search asks for the sad playlists and a message is sent. */
  lemma LostJobScenario(services: Services)
    requires services.classify(Str("I lost my job today")) == Ok(Sentiment("NEGATIVE", 0.9))
    ensures var reply := AnalyzeMood(Obj(map["text" := Str("I lost my job today")]), services);
      reply.status == 200
      && reply.body.fields["mood"] == Str("sad")
      && reply.body.fields["music_recommendations"] == RefsJson(Recommendations(services.spotify, "sad"))
      && SearchFor("sad").q == "sad mood playlist"
      && reply.body.fields["personalized_message"].Str?
  {
    var data := map["text" := Str("I lost my job today")];
    assert TextOf(data) == Str("I lost my job today");
  }
}
