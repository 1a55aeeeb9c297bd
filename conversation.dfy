/**
 * The conversation state machine of the `/chatbot` endpoint (main.py:59-152):
 * a process-wide table from user id to session record, and a handler that
 * picks the first stage whose guard holds, possibly updates the caller's
 * record, and replies.
 *
 * Geocoding (`get_coordinates`) and the weather service
 * (`get_meteomatics_data`) are oracles passed to the handler. A weather
 * oracle result of `None` stands for a reply other than HTTP 200, which the
 * source turns into an HTTP 500 error.
 */
module Conversation {
  import opened Wrappers
  import opened Strings
  import opened Normalize
  import opened Intent

  /** The stored location mode: unset (`None`), `"otra"` or `"ubicación actual"`. */
  datatype Location = Unset | Otra | Actual

  /** A geocoding hit: latitude and longitude as the strings the service returns. */
  datatype Coordinates = Coordinates(lat: string, lon: string)

  /** One user's record; `coordinates` is `None` while the key is absent. */
  datatype Session = Session(name: Option<string>, location: Location, coordinates: Option<Coordinates>)

  /** The record created on first contact. */
  const NewSession: Session := Session(None, Unset, None)

  /** An inbound request: the user id and the optional fields. */
  datatype Request = Request(
    userId: string,
    question: string,
    name: Option<string>,
    locationChoice: Option<string>,
    city: Option<string>,
    lat: Option<real>,
    lon: Option<real>)

  /** The endpoint's answer: a reply, or the HTTP error raised when the weather
      service fails. */
  datatype Response = Reply(text: string) | ServerError(status: int, detail: string)

  type Geocoder = string -> Option<Coordinates>
  type WeatherService = (real, real) -> Option<Snapshot>

  /** Python truthiness of an optional string: present and non-empty. */
  predicate Truthy(s: Option<string>)
  {
    s.Some? && s.value != ""
  }

  /** Python truthiness of an optional float: present and non-zero. */
  predicate NonZero(x: Option<real>)
  {
    x.Some? && x.value != 0.0
  }

  const GreetingReply: string := "Hola! Soy tu asistente meteorológico. ¿Cómo te llamas?"

  /** The f-string of a stored name: Python renders `None` as "None". */
  function NameText(name: Option<string>): string
  {
    match name
    case Some(n) => n
    case None => "None"
  }

  function WelcomeBackReply(name: string): string
  {
    "¡Hola de nuevo, " + name + "! ¿En qué te puedo ayudar hoy?"
  }

  const AskLocationReply: string :=
    "¿Te gustaría usar tu ubicación actual o prefieres otra? Responde 'actual' o 'otra'."
  const LocationKnownReply: string := "Parece que ya tenemos tu ubicación. ¿Te gustaría continuar?"
  const AskCityReply: string := "Por favor, dime el nombre de la ciudad o lugar que te gustaría usar."
  const CurrentLocationReply: string :=
    "¡Genial! Usaremos tu ubicación actual. ¿Qué te gustaría saber sobre el clima?"
  const ChoiceNotUnderstoodReply: string :=
    "No entendí tu respuesta. ¿Prefieres usar 'ubicación actual' o 'otra'?"

  function CityConfirmedReply(city: string): string
  {
    "Usaremos " + city + " como tu ubicación. ¿Qué te gustaría saber sobre el clima en " + city + "?"
  }

  function CityNotFoundReply(city: string): string
  {
    "No pude encontrar la ubicación " + city + ". ¿Puedes intentarlo de nuevo?"
  }

  const CannotProcessReply: string := "No pude procesar tu solicitud. Intenta de nuevo."

  const WeatherFailure: Response := ServerError(500, "Error al obtener los datos meteorológicos")

  /** `ask_for_location`: the current-or-other question while the location is
      unset, else the note that it is already known. */
  function AskForLocation(s: Session): string
  {
    if s.location == Unset then AskLocationReply else LocationKnownReply
  }

  /** The location a choice selects, if any: "otra" is checked before "actual"
      in the normalised text. */
  function ParseLocationChoice(choice: string): Option<Location>
  {
    var c := NormalizeText(choice);
    if Contains(c, "otra") then Some(Otra)
    else if Contains(c, "actual") then Some(Actual)
    else None
  }

  /** The reply of `handle_location_choice` for the location it selected. */
  function ChoiceReply(choice: Option<Location>): string
  {
    match choice
    case Some(Otra) => AskCityReply
    case Some(Actual) => CurrentLocationReply
    case _ => ChoiceNotUnderstoodReply
  }

  /** The stages of the handler, in the order their guards are tried. */
  datatype Stage = FirstContact | NameCapture | LocationChoice | CityResolution | WeatherQuery | Fallback

  /** The stage a request reaches: the first one whose guard holds. */
  function StageOf(users: map<string, Session>, req: Request): Stage
  {
    if req.userId !in users then FirstContact
    else
      var s := users[req.userId];
      if Truthy(req.name) && !Truthy(s.name) then NameCapture
      else if Truthy(req.locationChoice) && s.location == Unset then LocationChoice
      else if Truthy(req.city) && s.location == Otra then CityResolution
      else if s.location == Actual && NonZero(req.lat) && NonZero(req.lon) then WeatherQuery
      else Fallback
  }

  /** The response and the new session table after one request. */
  datatype Outcome = Outcome(response: Response, users: map<string, Session>)

  /** One request, as a function of the session table before it: the
      specification of `Chatbot.Handle`. */
  function Step(users: map<string, Session>, req: Request, geocode: Geocoder,
                weather: WeatherService, show: real -> string): Outcome
  {
    var id := req.userId;
    match StageOf(users, req)
    case FirstContact =>
      Outcome(Reply(GreetingReply), users[id := NewSession])
    case NameCapture =>
      var s := users[id].(name := req.name);
      Outcome(Reply(AskForLocation(s)), users[id := s])
    case LocationChoice =>
      var choice := ParseLocationChoice(req.locationChoice.value);
      Outcome(Reply(ChoiceReply(choice)),
              if choice.Some? then users[id := users[id].(location := choice.value)] else users)
    case CityResolution =>
      var city := req.city.value;
      (match geocode(city)
       case Some(c) => Outcome(Reply(CityConfirmedReply(city)), users[id := users[id].(coordinates := Some(c))])
       case None => Outcome(Reply(CityNotFoundReply(city)), users))
    case WeatherQuery =>
      (match weather(req.lat.value, req.lon.value)
       case Some(snap) => Outcome(Reply(GenerateResponse(req.question, snap, show)), users)
       case None => Outcome(WeatherFailure, users))
    case Fallback =>
      Outcome(Reply(CannotProcessReply), users)
  }

  /** A record the handler can produce: a stored name is never empty (only a
      non-empty name is stored), and only an "otra" user has coordinates. */
  predicate SessionOk(s: Session)
  {
    && (s.name.Some? ==> s.name.value != "")
    && (s.coordinates.Some? ==> s.location == Otra)
  }

  ghost predicate ValidStore(users: map<string, Session>)
  {
    forall id :: id in users ==> SessionOk(users[id])
  }

  /** The session table `user_data` and the endpoint that drives it. */
  class Chatbot {
    var users: map<string, Session>

    ghost predicate Valid()
      reads this
    {
      ValidStore(users)
    }

    /** The table starts empty. */
    constructor ()
      ensures Valid() && users == map[]
    {
      users := map[];
    }

    /** `start_conversation`: create the record of a new user and greet them;
        for a known user, welcome them back by the stored name. */
    method StartConversation(userId: string) returns (resp: Response)
      modifies this
      ensures userId !in old(users) ==> users == old(users)[userId := NewSession] && resp == Reply(GreetingReply)
      ensures userId in old(users) ==>
        users == old(users) && resp == Reply(WelcomeBackReply(NameText(old(users)[userId].name)))
    {
      if userId !in users {
        users := users[userId := NewSession];
        resp := Reply(GreetingReply);
      } else {
        resp := Reply(WelcomeBackReply(NameText(users[userId].name)));
      }
    }

    /** `handle_location_choice`: store the location the choice selects, if
        any, and reply accordingly. */
    method HandleLocationChoice(userId: string, choice: string) returns (resp: Response)
      requires userId in users
      modifies this
      ensures var picked := ParseLocationChoice(choice);
        && resp == Reply(ChoiceReply(picked))
        && users == if picked.Some? then old(users)[userId := old(users)[userId].(location := picked.value)]
                    else old(users)
    {
      var normalized := NormalizeText(choice);
      if Contains(normalized, "otra") {
        users := users[userId := users[userId].(location := Otra)];
        resp := Reply(AskCityReply);
      } else if Contains(normalized, "actual") {
        users := users[userId := users[userId].(location := Actual)];
        resp := Reply(CurrentLocationReply);
      } else {
        resp := Reply(ChoiceNotUnderstoodReply);
      }
    }

    /** The `/chatbot` endpoint: one request against the session table. */
    method Handle(req: Request, geocode: Geocoder, weather: WeatherService, show: real -> string)
      returns (resp: Response)
      modifies this
      ensures Outcome(resp, users) == Step(old(users), req, geocode, weather, show)
      ensures old(Valid()) ==> Valid()
    {
      if Valid() {
        StepPreservesValid(users, req, geocode, weather, show);
      }
      var userId := req.userId;
      if userId !in users {
        resp := StartConversation(userId);
        return;
      }
      if Truthy(req.name) && !Truthy(users[userId].name) {
        users := users[userId := users[userId].(name := req.name)];
        resp := Reply(AskForLocation(users[userId]));
        return;
      }
      if Truthy(req.locationChoice) && users[userId].location == Unset {
        resp := HandleLocationChoice(userId, req.locationChoice.value);
        return;
      }
      if Truthy(req.city) && users[userId].location == Otra {
        var city := req.city.value;
        var coordinates := geocode(city);
        if coordinates.Some? {
          users := users[userId := users[userId].(coordinates := coordinates)];
          resp := Reply(CityConfirmedReply(city));
        } else {
          resp := Reply(CityNotFoundReply(city));
        }
        return;
      }
      if users[userId].location == Actual && NonZero(req.lat) && NonZero(req.lon) {
        var data := weather(req.lat.value, req.lon.value);
        if data.None? {
          resp := WeatherFailure;
          return;
        }
        resp := Reply(GenerateResponse(req.question, data.value, show));
        return;
      }
      resp := Reply(CannotProcessReply);
    }
  }

  /** Every request leaves the table in a state the handler can produce. */
  lemma StepPreservesValid(users: map<string, Session>, req: Request, geocode: Geocoder,
                           weather: WeatherService, show: real -> string)
    requires ValidStore(users)
    ensures ValidStore(Step(users, req, geocode, weather, show).users)
  {
  }

  /** Records are never removed: the caller's record exists afterwards, and
      every other user's record is exactly as it was. */
  lemma StepTouchesOnlyCallersRecord(users: map<string, Session>, req: Request, geocode: Geocoder,
                                     weather: WeatherService, show: real -> string)
    ensures var after := Step(users, req, geocode, weather, show).users;
      && after.Keys == users.Keys + {req.userId}
      && forall id :: id in users && id != req.userId ==> after[id] == users[id]
  {
  }

  /** The first request of an unknown user creates one blank record (no
      coordinates) and gets the greeting, whatever else it carries. */
  lemma FirstContactGreets(users: map<string, Session>, req: Request, geocode: Geocoder,
                           weather: WeatherService, show: real -> string)
    requires req.userId !in users
    ensures Step(users, req, geocode, weather, show) ==
      Outcome(Reply(GreetingReply), users[req.userId := NewSession])
    ensures NewSession.name.None? && NewSession.location == Unset && NewSession.coordinates.None?
  {
  }

  /** The stored name changes exactly when none is stored and the request
      carries a non-empty one; that name is then stored and the reply asks
      for, or acknowledges, the location. A stored name never changes. */
  lemma NameSetOnce(users: map<string, Session>, req: Request, geocode: Geocoder,
                    weather: WeatherService, show: real -> string)
    requires ValidStore(users) && req.userId in users
    ensures var o := Step(users, req, geocode, weather, show);
      var before, after := users[req.userId], o.users[req.userId];
      && (after.name != before.name <==> before.name.None? && Truthy(req.name))
      && (after.name != before.name ==>
            && after == before.(name := req.name)
            && o.response == Reply(if before.location == Unset then AskLocationReply else LocationKnownReply))
      && (before.name.Some? ==> after.name == before.name)
  {
  }

  /** The location is written only while unset, by a non-empty choice that
      selects one; once set it never changes. */
  lemma LocationSetOnce(users: map<string, Session>, req: Request, geocode: Geocoder,
                        weather: WeatherService, show: real -> string)
    requires req.userId in users
    ensures var o := Step(users, req, geocode, weather, show);
      var before, after := users[req.userId], o.users[req.userId];
      && (after.location != before.location <==>
            StageOf(users, req) == LocationChoice && ParseLocationChoice(req.locationChoice.value).Some?)
      && (after.location != before.location ==>
            before.location == Unset && Some(after.location) == ParseLocationChoice(req.locationChoice.value))
      && (before.location != Unset ==> after.location == before.location)
  {
  }

  /** The location-choice stage: "otra" selects Otra and asks for a city,
      "actual" selects Actual and confirms, anything else changes nothing and
      asks again. */
  lemma LocationChoiceOutcome(users: map<string, Session>, req: Request, geocode: Geocoder,
                              weather: WeatherService, show: real -> string)
    requires StageOf(users, req) == LocationChoice
    ensures var id, o := req.userId, Step(users, req, geocode, weather, show);
      var c := NormalizeText(req.locationChoice.value);
      && (Contains(c, "otra") ==>
            o == Outcome(Reply(AskCityReply), users[id := users[id].(location := Otra)]))
      && (!Contains(c, "otra") && Contains(c, "actual") ==>
            o == Outcome(Reply(CurrentLocationReply), users[id := users[id].(location := Actual)]))
      && (!Contains(c, "otra") && !Contains(c, "actual") ==>
            o == Outcome(Reply(ChoiceNotUnderstoodReply), users))
  {
  }

  /** City resolution, for an "otra" user sending a non-empty city: a
      geocoding miss changes nothing and says so; a hit stores the pair,
      replacing any stored one, and confirms the city. */
  lemma CityResolutionOutcome(users: map<string, Session>, req: Request, geocode: Geocoder,
                              weather: WeatherService, show: real -> string)
    requires StageOf(users, req) == CityResolution
    ensures var id, city, o := req.userId, req.city.value, Step(users, req, geocode, weather, show);
      && users[id].location == Otra && city != ""
      && (geocode(city).None? ==> o == Outcome(Reply(CityNotFoundReply(city)), users))
      && (geocode(city).Some? ==>
            o == Outcome(Reply(CityConfirmedReply(city)), users[id := users[id].(coordinates := geocode(city))]))
  {
  }

  /** Coordinates change only by a geocoding hit in the city stage. */
  lemma CoordinatesOnlyFromGeocoding(users: map<string, Session>, req: Request, geocode: Geocoder,
                                     weather: WeatherService, show: real -> string)
    requires req.userId in users
    ensures var after := Step(users, req, geocode, weather, show).users[req.userId];
      after.coordinates != users[req.userId].coordinates ==>
        && StageOf(users, req) == CityResolution
        && after.coordinates == geocode(req.city.value)
        && after.coordinates.Some?
  {
  }

  /** The weather service is consulted only for a user on the current
      location whose request has a non-zero latitude and longitude: in every
      other stage the outcome is the same whatever the service would answer. */
  lemma WeatherOnlyForCurrentLocation(users: map<string, Session>, req: Request, geocode: Geocoder,
                                      weather: WeatherService, other: WeatherService, show: real -> string)
    requires StageOf(users, req) != WeatherQuery
    ensures Step(users, req, geocode, weather, show) == Step(users, req, geocode, other, show)
  {
  }

  /** The geocoder is consulted only in the city stage. */
  lemma GeocodingOnlyForCity(users: map<string, Session>, req: Request, geocode: Geocoder,
                             other: Geocoder, weather: WeatherService, show: real -> string)
    requires StageOf(users, req) != CityResolution
    ensures Step(users, req, geocode, weather, show) == Step(users, req, other, weather, show)
  {
  }

  /** The weather stage and the fallback never change the table; a weather
      failure is the HTTP 500 error, a success the matched reply. */
  lemma WeatherAndFallbackKeepTable(users: map<string, Session>, req: Request, geocode: Geocoder,
                                    weather: WeatherService, show: real -> string)
    requires StageOf(users, req) in {WeatherQuery, Fallback}
    ensures var o := Step(users, req, geocode, weather, show);
      && o.users == users
      && (StageOf(users, req) == Fallback ==> o.response == Reply(CannotProcessReply))
      && (StageOf(users, req) == WeatherQuery ==>
            && users[req.userId].location == Actual
            && NonZero(req.lat) && NonZero(req.lon)
            && var data := weather(req.lat.value, req.lon.value);
               o.response == if data.None? then WeatherFailure
                             else Reply(GenerateResponse(req.question, data.value, show)))
  {
  }

  /** An "otra" user never reaches the weather stage: once the name is stored
      and no city is sent, even stored coordinates give the fallback. */
  lemma OtraUserNeverGetsWeather(users: map<string, Session>, req: Request, geocode: Geocoder,
                                 weather: WeatherService, show: real -> string)
    requires req.userId in users && users[req.userId].location == Otra
    ensures StageOf(users, req) != WeatherQuery
    ensures Truthy(users[req.userId].name) && !Truthy(req.city) ==>
      Step(users, req, geocode, weather, show) == Outcome(Reply(CannotProcessReply), users)
  {
  }

  /** A resubmitted city that geocodes replaces the stored coordinates. */
  lemma CoordinatesCanBeReplaced(users: map<string, Session>, req: Request, geocode: Geocoder,
                                 weather: WeatherService, show: real -> string, first: Coordinates, second: Coordinates)
    requires req.userId in users
    requires var s := users[req.userId]; Truthy(s.name) && s.location == Otra && s.coordinates == Some(first)
    requires Truthy(req.city) && geocode(req.city.value) == Some(second)
    ensures Step(users, req, geocode, weather, show).users[req.userId].coordinates == Some(second)
  {
  }

  /** One request together with what the two external services answer while
      it is being served. */
  datatype Turn = Turn(req: Request, geocode: Geocoder, weather: WeatherService)

  /** The session table after a sequence of requests, served one at a time. */
  function Run(users: map<string, Session>, turns: seq<Turn>, show: real -> string): map<string, Session>
    decreases |turns|
  {
    if turns == [] then users
    else
      var t := turns[0];
      Run(Step(users, t.req, t.geocode, t.weather, show).users, turns[1..], show)
  }

  /** The ids that sent a request in a sequence of turns. */
  function Callers(turns: seq<Turn>): set<string>
  {
    set i | 0 <= i < |turns| :: turns[i].req.userId
  }

  /** Over any conversation the table stays valid, records are never removed,
      and a stored name or location never changes. */
  lemma {:induction false} RunKeepsWhatIsSet(users: map<string, Session>, turns: seq<Turn>, show: real -> string)
    requires ValidStore(users)
    decreases |turns|
    ensures var after := Run(users, turns, show);
      && ValidStore(after)
      && users.Keys <= after.Keys
      && (forall id :: id in users && users[id].name.Some? ==> after[id].name == users[id].name)
      && (forall id :: id in users && users[id].location != Unset ==> after[id].location == users[id].location)
  {
    if turns != [] {
      var t := turns[0];
      var next := Step(users, t.req, t.geocode, t.weather, show).users;
      StepPreservesValid(users, t.req, t.geocode, t.weather, show);
      StepTouchesOnlyCallersRecord(users, t.req, t.geocode, t.weather, show);
      if t.req.userId in users {
        NameSetOnce(users, t.req, t.geocode, t.weather, show);
        LocationSetOnce(users, t.req, t.geocode, t.weather, show);
      }
      RunKeepsWhatIsSet(next, turns[1..], show);
    }
  }

  /** A record exists exactly for the ids that were already known or have
      sent a request. */
  lemma {:induction false} RunRecordsCallers(users: map<string, Session>, turns: seq<Turn>, show: real -> string)
    decreases |turns|
    ensures Run(users, turns, show).Keys == users.Keys + Callers(turns)
  {
    if turns != [] {
      var t := turns[0];
      var next := Step(users, t.req, t.geocode, t.weather, show).users;
      StepTouchesOnlyCallersRecord(users, t.req, t.geocode, t.weather, show);
      RunRecordsCallers(next, turns[1..], show);
      assert Callers(turns) == {t.req.userId} + Callers(turns[1..]) by {
        forall id | id in Callers(turns)
          ensures id in {t.req.userId} + Callers(turns[1..])
        {
          var i :| 0 <= i < |turns| && turns[i].req.userId == id;
          if i > 0 {
            assert turns[1..][i - 1] == turns[i];
          }
        }
        forall id | id in Callers(turns[1..])
          ensures id in Callers(turns)
        {
          var i :| 0 <= i < |turns[1..]| && turns[1..][i].req.userId == id;
          assert turns[i + 1] == turns[1..][i];
        }
      }
    }
  }
}

/** Worked examples: location choices and whole conversations. */
module ConversationExamples {
  import opened Wrappers
  import opened Strings
  import opened Normalize
  import opened Intent
  import opened Conversation

  /** A choice containing "otra" selects Otra. */
  lemma OtherChoice()
    ensures ParseLocationChoice("otra cosa") == Some(Otra)
  {
    NormalizesTo("otra cosa", "otra cosa");
    OccursByChars("otra cosa", "otra", 0);
  }

  lemma NormalizeOtherFirst()
    ensures NormalizeText("otra, no la actual") == "otra, no la actual"
  {
    NormalizesTo("otra, no la actual", "otra, no la actual");
  }

  lemma NormalizeTheCurrent()
    ensures NormalizeText("la actual") == "la actual"
  {
    NormalizesTo("la actual", "la actual");
  }

  lemma NormalizeDontKnow()
    ensures NormalizeText("no se") == "no se"
  {
    NormalizesTo("no se", "no se");
  }

  lemma NormalizeCurrent()
    ensures NormalizeText("actual") == "actual"
  {
    NormalizesTo("actual", "actual");
  }

  lemma NormalizeAccentedChoice()
    ensures NormalizeText("Ubicación actual") == "ubicacion actual"
  {
    assert Normalized('U') == 'u' && Normalized('ó') == 'o';
    NormalizesTo("Ubicación actual", "ubicacion actual");
  }

  lemma OtherFirstMentions()
    ensures Contains("otra, no la actual", "otra")
  {
    OccursByChars("otra, no la actual", "otra", 0);
  }

  lemma TheCurrentMentions()
    ensures Contains("la actual", "actual") && !Contains("la actual", "otra")
  {
    OccursByChars("la actual", "actual", 3);
    AbsentByFirstTwo("la actual", "otra");
  }

  lemma CurrentMentions()
    ensures Contains("actual", "actual") && !Contains("actual", "otra")
  {
    ContainsSelf("actual");
    AbsentByFirstTwo("actual", "otra");
  }

  lemma AccentedCurrentMentions()
    ensures Contains("ubicacion actual", "actual") && !Contains("ubicacion actual", "otra")
  {
    OccursByChars("ubicacion actual", "actual", 10);
    AbsentByFirstTwo("ubicacion actual", "otra");
  }

  lemma DontKnowMentions()
    ensures !Contains("no se", "actual") && !Contains("no se", "otra")
  {
    LongerNotContained("no se", "actual");
    AbsentByFirstTwo("no se", "otra");
  }

  /** "otra" is checked first, so it wins over a later "actual". */
  lemma OtherWinsOverCurrent()
    ensures ParseLocationChoice("otra, no la actual") == Some(Otra)
  {
    NormalizeOtherFirst();
    OtherFirstMentions();
  }

  /** A choice containing only "actual" selects Actual. */
  lemma CurrentChoice()
    ensures ParseLocationChoice("la actual") == Some(Actual)
    ensures ParseLocationChoice("actual") == Some(Actual)
  {
    NormalizeTheCurrent();
    NormalizeCurrent();
    TheCurrentMentions();
    CurrentMentions();
  }

  /** Accents and capitals in the choice do not matter. */
  lemma AccentedCurrentChoice()
    ensures ParseLocationChoice("Ubicación actual") == Some(Actual)
  {
    NormalizeAccentedChoice();
    AccentedCurrentMentions();
  }

  /** A choice with neither word selects nothing. */
  lemma UnclearChoice()
    ensures ParseLocationChoice("no se") == None
  {
    NormalizeDontKnow();
    DontKnowMentions();
  }

  lemma NormalizeTemperatureQuestion()
    ensures NormalizeText("temperatura") == "temperatura"
  {
    NormalizesTo("temperatura", "temperatura");
  }

  /** The bare question "temperatura" is about the temperature. */
  lemma TemperatureQuestion()
    ensures TopicOf("temperatura") == Temperature
  {
    NormalizeTemperatureQuestion();
    ContainsSelf("temperatura");
    assert KeywordGroups[0].1[0] == "temperatura";
    FirstMatchIsFirst(KeywordGroups, "temperatura", 0);
  }

  /** A new user sends a name, then a choice selecting the current location,
      then a temperature question with non-zero coordinates while the weather
      service succeeds: the four replies are the greeting, the location
      question, the confirmation and the temperature reply. */
  method NewUserAsksTemperature(userId: string, name: string, choice: string, question: string,
                                lat: real, lon: real, snap: Snapshot, show: real -> string)
    returns (replies: seq<Response>)
    requires name != "" && choice != "" && lat != 0.0 && lon != 0.0
    requires ParseLocationChoice(choice) == Some(Actual)
    requires TopicOf(question) == Temperature
    ensures replies == [Reply(GreetingReply), Reply(AskLocationReply), Reply(CurrentLocationReply),
                        Reply(TemperatureReply(show(snap.temp)))]
  {
    var geocode: Geocoder := (city: string) => None;
    var weather: WeatherService := (x: real, y: real) => Some(snap);
    var bot := new Chatbot();
    var r1 := bot.Handle(Request(userId, "", None, None, None, None, None), geocode, weather, show);
    var r2 := bot.Handle(Request(userId, "", Some(name), None, None, None, None), geocode, weather, show);
    var r3 := bot.Handle(Request(userId, "", None, Some(choice), None, None, None), geocode, weather, show);
    assert bot.users[userId] == Session(Some(name), Actual, None);
    ResponseFollowsKeywordOrder(question, snap, show);
    var r4 := bot.Handle(Request(userId, question, None, None, None, Some(lat), Some(lon)), geocode, weather, show);
    replies := [r1, r2, r3, r4];
  }

  /** A user who chose another location sends a city the geocoder cannot
      resolve, then the same city once it can: the first attempt leaves no
      coordinates and says so, the second stores the pair and confirms. */
  method CityRetry(userId: string, name: string, choice: string, city: string, found: Coordinates)
    returns (missed: Response, confirmed: Response, stored: Option<Coordinates>)
    requires name != "" && choice != "" && city != ""
    requires ParseLocationChoice(choice) == Some(Otra)
    ensures missed == Reply(CityNotFoundReply(city))
    ensures confirmed == Reply(CityConfirmedReply(city))
    ensures stored == Some(found)
  {
    var miss: Geocoder := (place: string) => None;
    var hit: Geocoder := (place: string) => Some(found);
    var weather: WeatherService := (x: real, y: real) => None;
    var show := (x: real) => "";
    var bot := new Chatbot();
    var r := bot.Handle(Request(userId, "", None, None, None, None, None), miss, weather, show);
    r := bot.Handle(Request(userId, "", Some(name), None, None, None, None), miss, weather, show);
    r := bot.Handle(Request(userId, "", None, Some(choice), None, None, None), miss, weather, show);
    assert bot.users[userId] == Session(Some(name), Otra, None);
    missed := bot.Handle(Request(userId, "", None, None, Some(city), None, None), miss, weather, show);
    assert bot.users[userId].coordinates == None;
    confirmed := bot.Handle(Request(userId, "", None, None, Some(city), None, None), hit, weather, show);
    stored := bot.users[userId].coordinates;
  }

  /** The same conversation with the name "Luis", the choice "actual", the
      question "temperatura" and a reading of 18 °C: the last reply quotes
      18 °C. */
  method LuisAsksTemperature(show: real -> string) returns (last: Response)
    ensures last == Reply(TemperatureReply(show(18.0)))
    ensures last.Reply? && Contains(last.text, show(18.0) + "°C")
  {
    var snap := Snapshot(18.0, 3.2, 0.0);
    CurrentChoice();
    TemperatureQuestion();
    var replies := NewUserAsksTemperature("u1", "Luis", "actual", "temperatura", -12.05, -77.04, snap, show);
    last := replies[3];
    TemperatureReplyQuotes(show(18.0));
  }
}
