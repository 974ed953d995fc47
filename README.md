# moodtracker backend, modelled in Dafny

The moodtracker backend takes a journal entry, classifies its sentiment,
and returns four things: a mood category (`happy`, `sad` or `neutral`),
up to two Spotify playlists for that mood, an optional joke, and a
structured support payload (`validation` plus `coping_strategies`). This
project models the deterministic logic around the external services.
That logic covers the label-to-mood mapping, the query table, the guards
and filter loop of the playlist recommender, the key check and fallback of
the support response, and the two `/analyze` handlers:

- the blueprint handler in `backend/routes.py`;
- the earlier monolithic handler in `backend/app.py`.

Each external service is an input to the model:

- the Hugging Face classifier, a function from the text to `Outcome<Sentiment>`;
- Spotify search, a `Catalog` from `SearchRequest` to `Outcome<SearchResult>`, held by a
  `SpotifyClient` that is `Uninitialized` when the module-level `sp` could not be built;
- the joke generator, a function from the mood to `Outcome<string>`;
- the LangChain chain followed by `json.loads`, a function from (text, mood) to
  `Outcome<LlmOutput>`.

`Outcome<T>` is `Ok(value) | Raised`. Raised stands for a Python exception.
When a service is "not called", the model states that the reply does not
depend on it: replacing that service leaves the reply unchanged. JSON values
(the request body, the parsed model output, the reply bodies) are the `Json`
datatype. Its `Truthy`, `Contains` and `Get` follow Python's truthiness, its
`in` on dicts, lists and strings, and `dict.get`.

Files:

- `outcomes.dfy`: `Option` and `Outcome`.
- `py_json.dfy`: the `Json` values and the Python operations on them.
- `spotify.dfy`: the search request and result shapes, and `PlaylistRef`.
- `http.dfy`: the reply, a body plus a status.
- `ai_models.dfy`: `backend/ai_models.py`.
- `routes.dfy`: `backend/routes.py`.
- `app.dfy`: `backend/app.py`.

The two `get_spotify_recommendations` functions append to a list in a loop.
In `app.dfy`, `App.GetSpotifyRecommendations` holds that loop itself and is
proved equal to `App.Recommendations`. In `ai_models.dfy`, the loop is in
`AiModels.CollectPlaylists`, proved equal to `AiModels.ListedPlaylists`; the
method `AiModels.GetSpotifyRecommendations` calls it after the client and
result guards and is proved equal to `AiModels.Recommendations`. The handlers
are pure branching, so they are functions, and they use those specification
functions.

Behaviour of the code worth knowing:

- `generate_support_response` does not always fall back. It catches only
  `json.JSONDecodeError` (`backend/ai_models.py:117`), so an exception from
  `chain.run` (line 111) escapes, and so does the `TypeError` of the `in`
  test (line 115) when the parsed value is a number, a boolean or `null`.
  The blueprint handler then substitutes its own, different fallback
  (`backend/routes.py:40-45`).
- The key check is Python's `in`, not a schema check. A parsed list such as
  `["validation", "coping_strategies"]`, or a string containing both words,
  is returned as the payload (`AiModels.ShapeCheckIsMembership`).
- A playlist is kept when the keys `name` and `external_urls` are present
  (`backend/ai_models.py:69`), so an empty name is kept. A kept playlist
  whose `external_urls` has no `spotify` key raises a `KeyError` at line 72;
  the catch-all at line 77 then empties the whole list rather than dropping
  that entry.
- For a mood other than sad, `personalized_message` is present with the
  value `null` (`backend/routes.py:29`, `50`); the key is not omitted.

## Model

| member | source | states |
|---|---|---|
| AiModels.MoodCategory | backend/ai_models.py:133-138 | the category is one of happy, sad, neutral; it is happy exactly when the label is POSITIVE and sad exactly when it is NEGATIVE, so every other label gives neutral |
| AiModels.AnalyzeSentiment | backend/ai_models.py:128-140 | raises exactly when the classifier raises; otherwise returns the mapped category, which is one of the three, and the classifier's score unchanged |
| AiModels.QueryFor | backend/ai_models.py:39-54 | happy searches "happy mood playlist", sad searches "sad mood playlist", every other mood searches "chill mood playlist"; a mood outside the three gets the neutral entry |
| AiModels.Recommendations | backend/ai_models.py:33-36 | without a Spotify client there are no recommendations |
| AiModels.Kept | backend/ai_models.py:67-73 | the loop keeps at most as many items as the search returned, and every kept item comes from the result and passes the guard (truthy, with 'name' and 'external_urls') |
| AiModels.Projected | backend/ai_models.py:70-73 | one record per kept item, in order: the j-th record is the name and the 'spotify' URL of the j-th item |
| AiModels.ListedPlaylists | backend/ai_models.py:67-75 | raises exactly when some kept item has no Spotify URL; otherwise it is one record per kept item, in the same order |
| AiModels.KeptIsListedSubsequence | backend/ai_models.py:67-73 | the kept items are the result's items at strictly increasing positions, and a position is kept exactly when its item passes the guard: an order-preserving selection of exactly the listed items |
| AiModels.CollectPlaylists | backend/ai_models.py:67-75 | the loop yields the {name, url} record of every kept item in order, and raises exactly when some kept item has no Spotify URL |
| AiModels.GetSpotifyRecommendations | backend/ai_models.py:33-79 | the imperative recommender (client guard, one search with the table's query, type playlist, limit 2, market US, result guard, loop, catch-all) returns exactly Recommendations(sp, mood) |
| AiModels.RecommendationsOfItems | backend/ai_models.py:63-79 | once the search yields items, the recommendations are one record per kept item, in the same order, and never more than the item count; they are empty when a kept item lacks a Spotify URL |
| AiModels.MalformedResultsRecommendNothing | backend/ai_models.py:56-79 | a raising search, a falsy result, a result without 'playlists' or playlists without 'items' give an empty list, never an error |
| AiModels.GenerateSupportResponse | backend/ai_models.py:111-126 | raises exactly when the chain raises or the parsed value is a scalar; a parsed value with both keys is returned unchanged; an undecodable output gives the fixed fallback payload; whatever is returned has both keys |
| AiModels.SupportResponseIsTruthy | backend/ai_models.py:113-126 | every payload the generator returns is truthy |
| AiModels.ShapeCheckIsMembership | backend/ai_models.py:114-118 | a parsed list of the two key names passes the check and is returned as the payload; a parsed number raises instead of falling back |
| Routes.AnalyzeMood | backend/routes.py:16-56 | the status is 200, 400 or 500; 400 with {"error": "No text provided"} exactly when the body is a dict with a missing or falsy text; 500 with the generic error exactly when the body is not a dict or the classifier raises; a 200 body has exactly the keys mood, music_recommendations, personalized_message, support_response |
| Routes.SuccessfulReply | backend/routes.py:27-52 | on success the mood is the classifier's category, the recommendations are the recommender's list unchanged, a message is present exactly when the mood is sad, the support payload is generate_support_response's result whenever that does not raise, and it has both keys, so the '' branch is never taken |
| Routes.SadMessage | backend/routes.py:29-36 | for a sad mood the message is the generator's text, or exactly "Thank you for sharing your feelings!" when it raises |
| Routes.SupportFallbackOnRaise | backend/routes.py:38-45 | when generate_support_response raises, the payload is exactly the handler's fallback ("I understand it might be tough.", with the walk and breathing strategies) |
| Routes.NoServiceForEmptyText | backend/routes.py:22-25 | a missing or falsy text gives 400 {"error": "No text provided"} whatever the services are, so none of them is consulted |
| Routes.MessageGeneratorOnlyWhenSad | backend/routes.py:29-30 | when the mood is not sad, replacing the message generator does not change the reply, so it is not called |
| Routes.UnusedFieldsIgnored | backend/routes.py:19-21 | title, location and weather have no effect on the reply |
| Routes.LostJobScenario | backend/routes.py:27-36 | "I lost my job today" classified NEGATIVE gives mood sad, the recommendations of the "sad mood playlist" search and a non-null message |
| Spotify.RefsRoundTrip | backend/routes.py:47-52 | the music_recommendations list jsonify emits reads back, entry by entry, as exactly the recommender's records: every name and url unchanged, in order, nothing added or dropped, each entry an object with exactly the keys name and url |
| Spotify.RefsJsonInjective | backend/app.py:60-64 | two different recommendation lists are never emitted as the same JSON list, so the reply determines the recommender's result |
| App.MoodOfLabel | backend/app.py:47-52 | the earlier handler's inline mapping equals analyze_sentiment's mapping for every label |
| App.QueryFor | backend/app.py:68-74 | happy searches "happy", sad searches "sad", neutral and every other mood search "ambient" |
| App.ProjectAll | backend/app.py:79-86 | without filtering, the result is one {name, url} record per item, in order, so its length equals the item count; it raises exactly when some item lacks a name or a Spotify URL |
| App.Recommendations | backend/app.py:74-86 | succeeds exactly when the search, both unguarded lookups and every item's name and Spotify URL succeed; then it is one record per returned item, in order |
| App.GetSpotifyRecommendations | backend/app.py:66-86 | the imperative recommender (one search, limit 2, no market; the unguarded lookups; the append loop) returns exactly App.Recommendations(search, mood) |
| App.AnalyzeMood | backend/app.py:34-64 | a missing or falsy text gives 400 {"error": "No text provided"}, and only then; a body that is not a dict, a raising classifier, a raising search or lookup, or a raising completion escapes as an exception; any other reply is 200 with exactly the keys mood, music_recommendations, personalized_message (no support_response), carrying the mapped mood, App.Recommendations' list and the completion's text |
| App.MessageForEveryMood | backend/app.py:55-64 | the message is requested for every mood and is the completion's text; a failing completion makes the request fail |
| App.SameMoodAsBlueprint | backend/app.py:42-52 | given the same classifier outcome, the earlier handler reports the same mood as analyze_sentiment |

## Left out

- The external services are not modelled, only their results. This covers the Hugging Face pipeline, `sp.search`, the OpenAI completions, and the LangChain chain with its prompt templates.
- `generate_personalized_message` (both files) is an opaque function from the mood to a string or an exception.
- `json.loads` is not modelled: the chain's parsed output is an input.
- Environment loading and client construction at import are left out. The model takes `sp` as a `SpotifyClient` parameter, so a failed construction is `Uninitialized`.
- Flask routing, `jsonify`, CORS, `print` logging, `app.run` and the `GET /` status route are left out.
- A request body that Flask cannot read as JSON is left out: the body is an already-decoded `Json` value.
- Reply bodies are maps, so the order of keys in the emitted JSON is not modelled.
- The confidence score is a `real` that is only passed along. JSON numbers are reals.
- Non-dict search result shapes are simplified. A truthy `playlists` value that is not a dict counts as missing: in `ai_models.py` both paths give `[]`, and in `app.py` both raise. An `items` value that is not a list counts as missing; that differs only for an empty dict or string in `app.py`, which Python iterates to `[]`.
- Playlist items that are neither `null` nor a dict (strings, numbers, lists) are not modelled.
- Playlist names and Spotify URLs are modelled as strings; other JSON values under those keys are not.
- AiModels.Recommendations: its own contract covers only the missing client; the search, guard and loop behaviour is stated by RecommendationsOfItems, MalformedResultsRecommendNothing, CollectPlaylists and KeptIsListedSubsequence.
