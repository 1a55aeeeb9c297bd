# Weather chatbot conversation core, in Dafny

This project models the core of a small weather chatbot backend (`main.py`).
One HTTP endpoint, `/chatbot`, keeps a process-wide table `user_data` that maps
each user id to a session record holding a name, a location mode and optional
coordinates. Each request goes through an ordered cascade of stages: first
contact, name capture, location choice, city resolution, weather query and a
fallback. Weather questions are answered by a keyword matcher that runs over the
normalised question text.

Files and modules:

- `wrappers.dfy`, module `Wrappers`: `Option`, which stands for Python's `None` or a present value.
- `strings.dfy`, module `Strings`: Python's `word in text` on strings (`Contains`) and facts about it.
- `normalize.dfy`, module `Normalize`: `normalize_text`. It is `StripAccents(LowerText(s))`: Python's `str.lower` followed by the `re.sub` over the accent table.
- `intent.dfy`, modules `Intent` and `IntentExamples`: `generate_response`. It has an independent reference reading of the cascade, `FirstMatch`, which searches an ordered keyword table. Worked example questions are included.
- `conversation.dfy`, modules `Conversation` and `ConversationExamples`:
  - the session record and the request;
  - the class `Chatbot`, which holds the table as `var users: map<string, Session>`, has the methods `StartConversation`, `HandleLocationChoice` and `Handle`, and models `chatbot`;
  - the pure specification `Step`, with the stage selector `StageOf`;
  - lemmas about single steps and about whole conversations (`Run`);
  - client methods that replay example conversations.

Modelling assumptions:

- `str.lower` is modelled over a stated alphabet. The ASCII capitals `A`-`Z` and the uppercase forms of the 21 tabled letters (`Á À Ä Â É È Ë Ê Í Ì Ï Î Ó Ò Ö Ô Ú Ù Ü Û Ñ`) become lowercase. Every other character is unchanged. Over this alphabet lowercasing keeps the length of the text.
- A stored location is `Unset`, `Otra` or `Actual`. The source stores `None`, `"otra"` and `"ubicación actual"`.
- Python truthiness is written out:
  - `Truthy` holds for a present, non-empty string.
  - `NonZero` holds for a present coordinate that is not `0.0`.
  - `not user_data.get(user_id)` becomes "no record for this id", because a stored record is never an empty dict.
- The geocoder and the weather service are function parameters (`Geocoder`, `WeatherService`).
  - A geocoder result of `None` is the empty result list.
  - A weather result of `None` is a reply other than HTTP 200. It becomes `ServerError(500, "Error al obtener los datos meteorológicos")`, the `HTTPException` of main.py:56.
- Numbers are rendered by a parameter `show: real -> string`, which stands for Python's float formatting inside the f-strings. The request's latitude and longitude and the weather readings are `real`; the geocoder's pair is kept as the two strings it returns (`Coordinates`).

Behaviour of the code a reader may not expect, which the model follows:

- Coordinates are not written once. A city that is sent again and geocodes replaces the stored pair (main.py:133-137; `CoordinatesCanBeReplaced`).
- A user on "otra" with stored coordinates never gets a weather reply. Lines 143-145 only reassign the local `lat`/`lon`, and the weather branch at line 148 requires `"ubicación actual"`. Such a user gets the fallback reply (`OtraUserNeverGetsWeather`).
- The question "lloviendo" contains neither "lluvia" nor "precipitacion". It therefore gets the "no estoy seguro" reply, not the "no ha llovido" one (`IntentExamples.LloviendoIsNotRecognised`).
- In `start_conversation`, the welcome-back branch reads `.get("name", "amigo")`. The key `"name"` is always present, so an unset name is printed as `None` and `"amigo"` is never used (`NameText`).
- The general-conditions reply says "no hay lluvias" whatever the precipitation reading is (`Intent.GeneralReplyIgnoresPrecipitation`).

## Model

| member | source | states |
|---|---|---|
| Normalize.LowerText | main.py:31 | lowercasing over the modelled alphabet keeps the length of the text |
| Normalize.StripAccents | main.py:24-31 | replacing each accented letter keeps the length of the text |
| Normalize.NormalizeText | main.py:23-31 | the normalised text has the length of the input |
| Normalize.ClassIsTableDomain | main.py:24-30 | the pattern's character class is exactly the set of letters the replacement table maps, so the `.get` fallback is never used |
| Normalize.NormalizeAt | main.py:23-31 | each output character is the lowercase of the input character, replaced by its listed base letter when that lowercase letter is in the table, and unchanged otherwise |
| Normalize.NormalizeEqual | main.py:23-31 | two texts normalise alike if and only if they have the same length and normalise alike character by character |
| Normalize.NoAccentSurvives | main.py:24 | no character of the accent class `áàäâéèëêíìïîóòöôúùüûñ` occurs in the output |
| Normalize.NormalizeIdempotent | main.py:23-31 | normalising normalised text returns it unchanged |
| Normalize.NormalizeIgnoresCase | main.py:31 | texts that differ only in letter case normalise alike |
| Normalize.CafeExample | main.py:23-31 | "CAFÉ" and "cafe" both normalise to "cafe" |
| Intent.GenerateResponse | main.py:68-87 | the if/elif cascade over the normalised question; it has no ensures of its own, and its behaviour is stated by `ResponseFollowsKeywordOrder`, `RainReplyIffPrecipitation`, `ReplyQuotesReading` and `GeneralReplyIgnoresPrecipitation` |
| Intent.ResponseFollowsKeywordOrder | main.py:73-87 | the reply is the answer for the first keyword group of the ordered table (temperatura; viento; lluvia or precipitacion; como esta el clima) that the normalised question contains, else the not-understood reply |
| Intent.FirstMatchIsFirst | main.py:75-86 | when group k is mentioned and no earlier group is, the table search gives group k's topic |
| Intent.FirstMatchNone | main.py:86-87 | when no group is mentioned, the search gives no topic |
| Intent.FirstMatchFound | main.py:75-85 | a topic found by the search belongs to a mentioned group with no earlier group mentioned |
| Intent.RainReplyIffPrecipitation | main.py:79-83 | a rain question gets the "Está lloviendo … paraguas" reply if and only if precipitation > 0, and the "no ha llovido" reply if and only if it is not |
| Intent.ReplyQuotesReading | main.py:75-85 | the temperature and general replies quote the temperature with "°C", the wind reply quotes the wind speed with "m/s", and the rainy reply quotes the precipitation with "mm" |
| Intent.GeneralReplyIgnoresPrecipitation | main.py:84-85 | the general-conditions reply says "no hay lluvias" and does not depend on the precipitation reading |
| IntentExamples.WindQuestion | main.py:77-78 | "¿Cómo está el viento?" gets the wind reply |
| IntentExamples.RainOrWindQuestion | main.py:77-79 | a question naming both rain and wind gets the wind reply, because wind is checked first |
| IntentExamples.GeneralQuestion | main.py:84-85 | "¿Cómo está el clima?" with accents is recognised as the general-conditions question |
| IntentExamples.RainQuestion | main.py:79-83 | "¿Habrá precipitación?" is a rain question, and its reply depends on precipitation > 0 |
| IntentExamples.LloviendoIsNotRecognised | main.py:75-87 | "lloviendo" matches no keyword and gets the not-understood reply |
| Conversation.AskForLocation | main.py:90-94 | the current-or-other question while the location is unset, else the location-known note; no ensures of its own, its use after name capture is stated by `NameSetOnce` |
| Conversation.ParseLocationChoice | main.py:98-105 | the location a choice selects, "otra" before "actual" in the normalised text; no ensures of its own, its outcomes are stated by `LocationChoiceOutcome` and `LocationSetOnce` |
| Conversation.ChoiceReply | main.py:99-106 | the city prompt, the confirmation or the clarification for the selected location; no ensures of its own, stated by `LocationChoiceOutcome` |
| Conversation.StageOf | main.py:120-152 | the first stage of the handler whose guard holds; no ensures of its own, its guards are stated by `FirstContactGreets`, `NameSetOnce`, `CityResolutionOutcome`, `WeatherAndFallbackKeepTable` and `OtraUserNeverGetsWeather` |
| Conversation.Step | main.py:110-152 | one request as a function of the table before it, the specification of `Chatbot.Handle`; no ensures of its own, its properties are the `Conversation` step lemmas below |
| Conversation.Chatbot.constructor | main.py:10 | the session table starts empty and valid |
| Conversation.Chatbot.StartConversation | main.py:59-65 | an unknown id gets one blank record and the greeting; a known id leaves the table unchanged and gets the welcome-back reply with the stored name rendered |
| Conversation.Chatbot.HandleLocationChoice | main.py:97-106 | stores Otra when the normalised choice contains "otra", otherwise Actual when it contains "actual", otherwise nothing, with the matching reply |
| Conversation.Chatbot.Handle | main.py:110-152 | the reply and the new table are those of `Step` on the old table, and the table invariant is kept |
| Conversation.StepPreservesValid | main.py:120-137 | a stored name is never empty, and only an "otra" user has coordinates, before and after every request |
| Conversation.StepTouchesOnlyCallersRecord | main.py:120-152 | after a request the table's ids are the old ones plus the caller's; every other user's record is unchanged; no record is removed |
| Conversation.FirstContactGreets | main.py:120-121 | an unknown id gets exactly one new record (name and location unset, no coordinates) and the fixed greeting, whatever the request carries |
| Conversation.NameSetOnce | main.py:124-126 | the stored name changes if and only if none was stored and the request has a non-empty name; that name is then stored, and the reply asks current-or-other, or says the location is known; a stored name never changes |
| Conversation.LocationSetOnce | main.py:129-130 | the location changes if and only if the location-choice stage is reached and the choice selects one; it changes only from unset; once set it never changes |
| Conversation.LocationChoiceOutcome | main.py:97-106 | in the location-choice stage, "otra" is checked first and sets Otra with the city prompt; "actual" sets Actual with the confirmation; otherwise there is no change and the clarification reply |
| Conversation.CityResolutionOutcome | main.py:133-140 | the city stage is reached only by an "otra" user sending a non-empty city; a geocoding miss leaves the table unchanged and replies "No pude encontrar"; a hit stores the returned pair and confirms the city |
| Conversation.CoordinatesOnlyFromGeocoding | main.py:133-137 | the caller's coordinates change only in the city stage, and only to the geocoder's hit |
| Conversation.CoordinatesCanBeReplaced | main.py:133-137 | a city sent again that geocodes overwrites the stored coordinates |
| Conversation.WeatherOnlyForCurrentLocation | main.py:148-150 | outside the weather stage the outcome does not depend on the weather service (that this stage needs location Actual and a non-zero latitude and longitude is stated by `WeatherAndFallbackKeepTable`) |
| Conversation.GeocodingOnlyForCity | main.py:133-134 | outside the city stage the outcome does not depend on the geocoder |
| Conversation.WeatherAndFallbackKeepTable | main.py:143-152 | the weather stage and the fallback never change the table; a weather failure is the HTTP 500 error; a success is the matched reply; the fallback is the fixed "No pude procesar" reply |
| Conversation.OtraUserNeverGetsWeather | main.py:143-152 | an "otra" user never reaches the weather stage; with a stored name and no city, even stored coordinates give the fallback |
| Conversation.RunKeepsWhatIsSet | main.py:110-152 | over any sequence of requests the table stays valid, no record is removed, and a stored name or location never changes |
| Conversation.RunRecordsCallers | main.py:120-121 | after a sequence of requests, a record exists exactly for the ids that were known before or sent a request |
| ConversationExamples.OtherChoice | main.py:99-101 | the choice "otra cosa" selects Otra |
| ConversationExamples.OtherWinsOverCurrent | main.py:99-103 | a choice containing both "otra" and "actual" selects Otra |
| ConversationExamples.CurrentChoice | main.py:102-104 | the choices "la actual" and "actual" select Actual |
| ConversationExamples.AccentedCurrentChoice | main.py:98-104 | the choice "Ubicación actual" selects Actual after normalisation |
| ConversationExamples.UnclearChoice | main.py:105-106 | the choice "no se" selects nothing |
| ConversationExamples.TemperatureQuestion | main.py:75-76 | the question "temperatura" is about the temperature |
| ConversationExamples.NewUserAsksTemperature | main.py:110-150 | a new user who sends a name, then a choice selecting the current location, then a temperature question with non-zero coordinates gets the greeting, the location question, the confirmation and the temperature reply, in that order |
| ConversationExamples.CityRetry | main.py:133-140 | for an "otra" user, a city the geocoder misses gets "No pude encontrar" and stores nothing; the same city sent again once it geocodes is confirmed and its pair is stored |
| ConversationExamples.LuisAsksTemperature | main.py:110-150 | the conversation "Luis", "actual", "temperatura" with a reading of 18 °C ends with a reply that quotes 18 °C |

## Left out

- The FastAPI application, the route decorator, the `async` handler and pydantic's validation of `ChatRequest` (main.py:1-20, 109-110). This is framework plumbing. A request is a plain record of optional fields.
- The HTTP calls to the geocoding and weather services and the embedded credentials (main.py:34-56). This is network I/O. The services are oracle parameters. Exceptions raised by the calls themselves, such as a transport error or a malformed JSON body, are not modelled.
- The positional reading of temperature, wind speed and precipitation out of the weather response (main.py:69-71). That response shape belongs to the external service. A `Snapshot` holds the three values already read, so an `IndexError` or `KeyError` there is not modelled.
- Python's float formatting inside the f-strings (main.py:76-85) is the parameter `show`. Float rounding is not modelled: numbers are `real`, and they are used only through `> 0` and non-zero tests.
- Normalize.LowerText: models `str.lower` only over ASCII letters and the 21 tabled letters. Full Unicode case mapping is not modelled; some of it changes the length of the text.
- Concurrent requests racing on `user_data`. The source has no locking, and the model serves requests one at a time.
- The `"conversation": True` entry of a new record (main.py:61). Nothing ever reads it.
- The assignments to the local `lat`, `lon` at main.py:136 and main.py:144-145. Nothing reads them before the function returns. Their absence of effect is what `OtraUserNeverGetsWeather` states.
