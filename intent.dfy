/**
 * The intent matcher `generate_response` (main.py:68-87): normalise the
 * question, then answer the first keyword group it mentions, in the fixed
 * order temperature, wind, rain, general conditions, else a fallback reply.
 *
 * The reading of the three values out of the weather service's response
 * (main.py:69-71) is not modelled: a `Snapshot` holds them already read.
 * Rendering a number as text (Python's float formatting inside the
 * f-strings) is the parameter `show`.
 */
module Intent {
  import opened Strings
  import opened Normalize

  /** The readings the replies use: temperature (°C), wind speed (m/s) and
      precipitation of the last hour (mm). */
  datatype Snapshot = Snapshot(temp: real, windSpeed: real, precip: real)

  /** What a question is about, decided by the keyword it mentions first. */
  datatype Topic = Temperature | Wind | Rain | General | Unrecognised

  /** The keyword groups, in the order the cascade tests them. */
  const KeywordGroups: seq<(Topic, seq<string>)> := [
    (Temperature, ["temperatura"]),
    (Wind, ["viento"]),
    (Rain, ["lluvia", "precipitacion"]),
    (General, ["como esta el clima"])]

  /** The text mentions one of the words. */
  predicate MentionsAny(text: string, words: seq<string>)
  {
    exists k | 0 <= k < |words| :: Contains(text, words[k])
  }

  /** The topic of the first group the text mentions: a reference reading of
      the cascade as a search through an ordered table. */
  function FirstMatch(groups: seq<(Topic, seq<string>)>, text: string): Topic
  {
    if groups == [] then Unrecognised
    else if MentionsAny(text, groups[0].1) then groups[0].0
    else FirstMatch(groups[1..], text)
  }

  function TemperatureReply(temp: string): string
  {
    "La temperatura actual es de " + temp + "°C" + ". ¿Algo más que te interese saber?"
  }

  function WindReply(wind: string): string
  {
    "El viento está a unos " + wind + " m/s" + ". ¡Agárrate el sombrero si sales!"
  }

  function RainReply(precip: string): string
  {
    "Está lloviendo, con " + precip + " mm" + " acumulados. Mejor agarra el paraguas."
  }

  const DryReply: string := "Por ahora no ha llovido, ¡todo despejado!"

  function GeneralReply(temp: string): string
  {
    "La temperatura es de " + temp + "°C" + " y " + "no hay lluvias" + ". ¿Te gustaría saber algo más?"
  }

  const UnrecognisedReply: string :=
    "Mmm, no estoy seguro de lo que preguntas. ¿Puedes repetirlo de otra forma?"

  /** `generate_response`: the if/elif cascade over the normalised question. */
  function GenerateResponse(question: string, snap: Snapshot, show: real -> string): string
  {
    var q := NormalizeText(question);
    if Contains(q, "temperatura") then TemperatureReply(show(snap.temp))
    else if Contains(q, "viento") then WindReply(show(snap.windSpeed))
    else if Contains(q, "lluvia") || Contains(q, "precipitacion") then
      (if snap.precip > 0.0 then RainReply(show(snap.precip)) else DryReply)
    else if Contains(q, "como esta el clima") then GeneralReply(show(snap.temp))
    else UnrecognisedReply
  }

  /** The reply for a topic. */
  function Answer(topic: Topic, snap: Snapshot, show: real -> string): string
  {
    match topic
    case Temperature => TemperatureReply(show(snap.temp))
    case Wind => WindReply(show(snap.windSpeed))
    case Rain => if snap.precip > 0.0 then RainReply(show(snap.precip)) else DryReply
    case General => GeneralReply(show(snap.temp))
    case Unrecognised => UnrecognisedReply
  }

  /** The topic of the question, by the keyword table. */
  function TopicOf(question: string): Topic
  {
    FirstMatch(KeywordGroups, NormalizeText(question))
  }

  /** The cascade answers the first keyword group of the table that the
      normalised question mentions. */
  lemma ResponseFollowsKeywordOrder(question: string, snap: Snapshot, show: real -> string)
    ensures GenerateResponse(question, snap, show) == Answer(TopicOf(question), snap, show)
  {
    var q := NormalizeText(question);
    assert MentionsAny(q, ["temperatura"]) <==> Contains(q, "temperatura") by {
      assert ["temperatura"][0] == "temperatura";
    }
    assert MentionsAny(q, ["viento"]) <==> Contains(q, "viento") by {
      assert ["viento"][0] == "viento";
    }
    assert MentionsAny(q, ["lluvia", "precipitacion"]) <==>
      Contains(q, "lluvia") || Contains(q, "precipitacion") by {
      assert ["lluvia", "precipitacion"][0] == "lluvia";
      assert ["lluvia", "precipitacion"][1] == "precipitacion";
    }
    assert MentionsAny(q, ["como esta el clima"]) <==> Contains(q, "como esta el clima") by {
      assert ["como esta el clima"][0] == "como esta el clima";
    }
    var g := KeywordGroups;
    assert g[0] == (Temperature, ["temperatura"]);
    assert g[1..][0] == (Wind, ["viento"]);
    assert g[1..][1..][0] == (Rain, ["lluvia", "precipitacion"]);
    assert g[1..][1..][1..][0] == (General, ["como esta el clima"]);
    assert g[1..][1..][1..][1..] == [];
    assert FirstMatch(g[1..][1..][1..], q) ==
      if MentionsAny(q, ["como esta el clima"]) then General else Unrecognised;
    assert FirstMatch(g[1..][1..], q) ==
      if MentionsAny(q, ["lluvia", "precipitacion"]) then Rain else FirstMatch(g[1..][1..][1..], q);
    assert FirstMatch(g[1..], q) ==
      if MentionsAny(q, ["viento"]) then Wind else FirstMatch(g[1..][1..], q);
    assert FirstMatch(g, q) ==
      if MentionsAny(q, ["temperatura"]) then Temperature else FirstMatch(g[1..], q);
  }

  /** The search returns the topic of the first group mentioned. */
  lemma {:induction false} FirstMatchIsFirst(groups: seq<(Topic, seq<string>)>, text: string, k: nat)
    requires k < |groups|
    requires MentionsAny(text, groups[k].1)
    requires forall j :: 0 <= j < k ==> !MentionsAny(text, groups[j].1)
    ensures FirstMatch(groups, text) == groups[k].0
  {
    if k > 0 {
      assert !MentionsAny(text, groups[0].1);
      FirstMatchIsFirst(groups[1..], text, k - 1);
    }
  }

  /** When no group is mentioned the search gives `Unrecognised`. */
  lemma {:induction false} FirstMatchNone(groups: seq<(Topic, seq<string>)>, text: string)
    requires forall j :: 0 <= j < |groups| ==> !MentionsAny(text, groups[j].1)
    ensures FirstMatch(groups, text) == Unrecognised
  {
    if groups != [] {
      assert !MentionsAny(text, groups[0].1);
      FirstMatchNone(groups[1..], text);
    }
  }

  /** A recognised topic is that of a mentioned group with no earlier group
      mentioned. */
  lemma {:induction false} FirstMatchFound(groups: seq<(Topic, seq<string>)>, text: string)
    requires FirstMatch(groups, text) != Unrecognised
    ensures exists k :: 0 <= k < |groups| && groups[k].0 == FirstMatch(groups, text) &&
                        MentionsAny(text, groups[k].1) &&
                        forall j :: 0 <= j < k ==> !MentionsAny(text, groups[j].1)
  {
    if !MentionsAny(text, groups[0].1) {
      FirstMatchFound(groups[1..], text);
      var k :| 0 <= k < |groups[1..]| && groups[1..][k].0 == FirstMatch(groups[1..], text) &&
        MentionsAny(text, groups[1..][k].1) &&
        forall j :: 0 <= j < k ==> !MentionsAny(text, groups[1..][j].1);
      assert groups[k + 1] == groups[1..][k];
      forall j | 0 <= j < k + 1
        ensures !MentionsAny(text, groups[j].1)
      {
        if j > 0 {
          assert groups[j] == groups[1..][j - 1];
        }
      }
    } else {
      assert groups[0].0 == FirstMatch(groups, text);
    }
  }

  /** A rain question gets the umbrella reply exactly when some precipitation
      was measured, and the dry reply otherwise. */
  lemma RainReplyIffPrecipitation(question: string, snap: Snapshot, show: real -> string)
    requires TopicOf(question) == Rain
    ensures GenerateResponse(question, snap, show) == RainReply(show(snap.precip)) <==> snap.precip > 0.0
    ensures GenerateResponse(question, snap, show) == DryReply <==> snap.precip <= 0.0
  {
    ResponseFollowsKeywordOrder(question, snap, show);
    assert RainReply(show(snap.precip))[0] == 'E';
    assert DryReply[0] == 'P';
  }

  lemma TemperatureReplyQuotes(t: string)
    ensures Contains(TemperatureReply(t), t + "°C")
  {
    assert TemperatureReply(t) == "La temperatura actual es de " + (t + "°C") + ". ¿Algo más que te interese saber?";
    ContainsInfix("La temperatura actual es de ", t + "°C", ". ¿Algo más que te interese saber?");
  }

  lemma GeneralReplyQuotes(t: string)
    ensures Contains(GeneralReply(t), t + "°C")
    ensures Contains(GeneralReply(t), "no hay lluvias")
  {
    var tail := " y " + "no hay lluvias" + ". ¿Te gustaría saber algo más?";
    assert GeneralReply(t) == "La temperatura es de " + (t + "°C") + tail;
    ContainsInfix("La temperatura es de ", t + "°C", tail);
    assert GeneralReply(t) == ("La temperatura es de " + t + "°C" + " y ") + "no hay lluvias" + ". ¿Te gustaría saber algo más?";
    ContainsInfix("La temperatura es de " + t + "°C" + " y ", "no hay lluvias", ". ¿Te gustaría saber algo más?");
  }

  lemma WindReplyQuotes(w: string)
    ensures Contains(WindReply(w), w + " m/s")
  {
    assert WindReply(w) == "El viento está a unos " + (w + " m/s") + ". ¡Agárrate el sombrero si sales!";
    ContainsInfix("El viento está a unos ", w + " m/s", ". ¡Agárrate el sombrero si sales!");
  }

  lemma RainReplyQuotes(p: string)
    ensures Contains(RainReply(p), p + " mm")
  {
    assert RainReply(p) == "Está lloviendo, con " + (p + " mm") + " acumulados. Mejor agarra el paraguas.";
    ContainsInfix("Está lloviendo, con ", p + " mm", " acumulados. Mejor agarra el paraguas.");
  }

  /** Each reply quotes the reading its topic is about. */
  lemma ReplyQuotesReading(question: string, snap: Snapshot, show: real -> string)
    ensures var r := GenerateResponse(question, snap, show);
      && (TopicOf(question) in {Temperature, General} ==> Contains(r, show(snap.temp) + "°C"))
      && (TopicOf(question) == Wind ==> Contains(r, show(snap.windSpeed) + " m/s"))
      && (TopicOf(question) == Rain && snap.precip > 0.0 ==> Contains(r, show(snap.precip) + " mm"))
  {
    ResponseFollowsKeywordOrder(question, snap, show);
    TemperatureReplyQuotes(show(snap.temp));
    GeneralReplyQuotes(show(snap.temp));
    WindReplyQuotes(show(snap.windSpeed));
    RainReplyQuotes(show(snap.precip));
  }

  /** The general-conditions reply says there is no rain whatever the
      precipitation reading is. */
  lemma GeneralReplyIgnoresPrecipitation(question: string, snap: Snapshot, show: real -> string)
    requires TopicOf(question) == General
    ensures Contains(GenerateResponse(question, snap, show), "no hay lluvias")
    ensures forall p: real :: GenerateResponse(question, snap.(precip := p), show) == GenerateResponse(question, snap, show)
  {
    ResponseFollowsKeywordOrder(question, snap, show);
    GeneralReplyQuotes(show(snap.temp));
    forall p: real
      ensures GenerateResponse(question, snap.(precip := p), show) == GenerateResponse(question, snap, show)
    {
      ResponseFollowsKeywordOrder(question, snap.(precip := p), show);
    }
  }
}

/** Replies to example questions, with the topic each one is recognised as. */
module IntentExamples {
  import opened Strings
  import opened Normalize
  import opened Intent

  lemma NormalizeWindQuestion()
    ensures NormalizeText("¿Cómo está el viento?") == "¿como esta el viento?"
  {
    assert Normalized('C') == 'c' && Normalized('ó') == 'o' && Normalized('á') == 'a';
    NormalizesTo("¿Cómo está el viento?", "¿como esta el viento?");
  }

  lemma WindQuestionMentions()
    ensures Contains("¿como esta el viento?", "viento")
    ensures !Contains("¿como esta el viento?", "temperatura")
  {
    OccursByChars("¿como esta el viento?", "viento", 14);
    AbsentByFirstTwo("¿como esta el viento?", "temperatura");
  }

  /** An accented, capitalised wind question gets the wind reply. */
  lemma WindQuestion(snap: Snapshot, show: real -> string)
    ensures GenerateResponse("¿Cómo está el viento?", snap, show) == WindReply(show(snap.windSpeed))
  {
    NormalizeWindQuestion();
    WindQuestionMentions();
  }

  lemma NormalizeRainOrWindQuestion()
    ensures NormalizeText("¿Lluvia o viento?") == "¿lluvia o viento?"
  {
    assert Normalized('L') == 'l';
    NormalizesTo("¿Lluvia o viento?", "¿lluvia o viento?");
  }

  lemma RainOrWindQuestionMentions()
    ensures Contains("¿lluvia o viento?", "viento")
    ensures !Contains("¿lluvia o viento?", "temperatura")
  {
    OccursByChars("¿lluvia o viento?", "viento", 10);
    AbsentByFirstTwo("¿lluvia o viento?", "temperatura");
  }

  /** A question naming both rain and wind gets the wind reply: wind is checked
      before rain. */
  lemma RainOrWindQuestion(snap: Snapshot, show: real -> string)
    ensures GenerateResponse("¿Lluvia o viento?", snap, show) == WindReply(show(snap.windSpeed))
  {
    NormalizeRainOrWindQuestion();
    RainOrWindQuestionMentions();
  }

  lemma NormalizeGeneralQuestion()
    ensures NormalizeText("¿Cómo está el clima?") == "¿como esta el clima?"
  {
    assert Normalized('C') == 'c' && Normalized('ó') == 'o' && Normalized('á') == 'a';
    NormalizesTo("¿Cómo está el clima?", "¿como esta el clima?");
  }

  lemma GeneralQuestionMentions()
    ensures Contains("¿como esta el clima?", "como esta el clima")
  {
    OccursByChars("¿como esta el clima?", "como esta el clima", 1);
  }

  lemma GeneralQuestionMentionsNoEarlierKeyword()
    ensures !Contains("¿como esta el clima?", "temperatura")
    ensures !Contains("¿como esta el clima?", "viento")
    ensures !Contains("¿como esta el clima?", "lluvia")
    ensures !Contains("¿como esta el clima?", "precipitacion")
  {
    AbsentByFirstTwo("¿como esta el clima?", "temperatura");
    AbsentByFirstTwo("¿como esta el clima?", "viento");
    AbsentByFirstTwo("¿como esta el clima?", "lluvia");
    AbsentByFirstTwo("¿como esta el clima?", "precipitacion");
  }

  /** The general-conditions question, written with accents, is recognised. */
  lemma GeneralQuestion(snap: Snapshot, show: real -> string)
    ensures GenerateResponse("¿Cómo está el clima?", snap, show) == GeneralReply(show(snap.temp))
  {
    NormalizeGeneralQuestion();
    GeneralQuestionMentions();
    GeneralQuestionMentionsNoEarlierKeyword();
  }

  lemma NormalizeRainQuestion()
    ensures NormalizeText("¿Habrá precipitación?") == "¿habra precipitacion?"
  {
    assert Normalized('H') == 'h' && Normalized('á') == 'a' && Normalized('ó') == 'o';
    NormalizesTo("¿Habrá precipitación?", "¿habra precipitacion?");
  }

  lemma RainQuestionMentions()
    ensures Contains("¿habra precipitacion?", "precipitacion")
    ensures !Contains("¿habra precipitacion?", "temperatura")
    ensures !Contains("¿habra precipitacion?", "viento")
    ensures !Contains("¿habra precipitacion?", "lluvia")
  {
    OccursByChars("¿habra precipitacion?", "precipitacion", 7);
    AbsentByFirstTwo("¿habra precipitacion?", "temperatura");
    AbsentByFirstTwo("¿habra precipitacion?", "viento");
    AbsentByFirstTwo("¿habra precipitacion?", "lluvia");
  }

  /** An accented precipitation question is a rain question: the umbrella
      reply when some precipitation was measured, the dry reply otherwise. */
  lemma RainQuestion(snap: Snapshot, show: real -> string)
    ensures GenerateResponse("¿Habrá precipitación?", snap, show) ==
      if snap.precip > 0.0 then RainReply(show(snap.precip)) else DryReply
  {
    NormalizeRainQuestion();
    RainQuestionMentions();
  }

  lemma LloviendoMentionsNothing()
    ensures forall k :: 0 <= k < |KeywordGroups| ==> !MentionsAny("lloviendo", KeywordGroups[k].1)
  {
    LongerNotContained("lloviendo", "temperatura");
    LongerNotContained("lloviendo", "precipitacion");
    LongerNotContained("lloviendo", "como esta el clima");
    forall i | 0 <= i <= 3
      ensures !OccursAt("lloviendo", "viento", i) && !OccursAt("lloviendo", "lluvia", i)
    {
      assert "lloviendo"[i..i + 6][0] == "lloviendo"[i];
      assert "lloviendo"[i..i + 6][2] == "lloviendo"[i + 2];
      assert "lloviendo"[i..i + 6][4] == "lloviendo"[i + 4];
    }
    assert KeywordGroups[2].1 == ["lluvia", "precipitacion"];
  }

  /** "lloviendo" contains none of the keywords ("llov" is not "lluv"), so it
      gets the not-understood reply whatever the precipitation. */
  lemma LloviendoIsNotRecognised(snap: Snapshot, show: real -> string)
    ensures TopicOf("lloviendo") == Unrecognised
    ensures GenerateResponse("lloviendo", snap, show) == UnrecognisedReply
  {
    NormalizesTo("lloviendo", "lloviendo");
    LloviendoMentionsNothing();
    FirstMatchNone(KeywordGroups, "lloviendo");
    ResponseFollowsKeywordOrder("lloviendo", snap, show);
  }
}
