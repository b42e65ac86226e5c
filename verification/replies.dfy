/**
 * What the single-shot handlers speak: the greeting (voice_assistant.py:86-94),
 * time and date (voice_assistant.py:96-104), the encyclopedia search
 * (voice_assistant.py:106-120), the weather report (voice_assistant.py:223-246)
 * and the computation (voice_assistant.py:252-266). Each external service is an
 * abstract result value.
 */
module Replies {
  import opened Wrappers
  import opened Text

  // ---------------------------------------------------------------- greet

  const MorningGreeting := "Good morning! How can I assist you today?"
  const AfternoonGreeting := "Good afternoon! What can I do for you?"
  const EveningGreeting := "Good evening! How may I help you?"

  /**
   * The greeting for an hour of the day. The hours fall into three greetings:
   * morning for 6 to 11, afternoon for 12 to 17, evening for the rest of the
   * day, including the small hours.
   */
  function Greeting(hour: int): (r: string)
    ensures r == MorningGreeting <==> 6 <= hour < 12
    ensures r == AfternoonGreeting <==> 12 <= hour < 18
    ensures r == EveningGreeting <==> hour < 6 || 18 <= hour
  {
    assert MorningGreeting[5] == 'm' && AfternoonGreeting[5] == 'a' && EveningGreeting[5] == 'e';
    if 6 <= hour < 12 then MorningGreeting
    else if 12 <= hour < 18 then AfternoonGreeting
    else EveningGreeting
  }

  // ---------------------------------------------------------------- time and date

  /** What `get_time` says, given the clock as formatted text ("%I:%M %p"). */
  function TimeReply(clock: string): string {
    "It's " + clock
  }

  /** What `get_date` says, given the date as formatted text ("%A, %B %d, %Y"). */
  function DateReply(today: string): string {
    "Today is " + today
  }

  // ---------------------------------------------------------------- wikipedia

  /** What `wikipedia.summary` yields. */
  datatype WikiResult =
    | Summary(text: string)
    | Ambiguous      // wikipedia.DisambiguationError
    | WikiFailure    // any other exception (no page, no network)

  const SearchingWikipedia := "Searching Wikipedia..."
  const WikiPrefix := "According to Wikipedia: "
  const AmbiguousMessage := "Multiple matches found. " + "Please be more specific."
  const WikiNotFoundMessage := "Sorry, I couldn't find that on Wikipedia."

  /** The topic searched for: the command with every "wikipedia" removed, then stripped. */
  function WikiTopic(query: string): (topic: string)
    ensures |topic| <= |query|
    ensures topic == [] || (!IsSpace(topic[0]) && !IsSpace(topic[|topic| - 1]))
  {
    Strip(RemoveAll(query, "wikipedia"))
  }

  /**
   * A command that mentions "wikipedia" once: the topic is the rest of the
   * command, the text before the mention joined to the text after it, stripped.
   */
  lemma WikiTopicOfOneMention(query: string, i: nat)
    requires IndexOf(query, "wikipedia") == Some(i)
    requires !Contains(query[i + 9..], "wikipedia")
    ensures WikiTopic(query) == Strip(query[..i] + query[i + 9..])
  {
    RemoveAtFirst(query, "wikipedia", i);
    RemoveAbsent(query[i + 9..], "wikipedia");
  }

  /** "wikipedia python" searches for "python". */
  lemma WikiTopicExample(query: string)
    requires query == "wikipedia python"
    ensures WikiTopic(query) == "python"
  {
    OneMentionAtStart(query);
    WikiTopicOfOneMention(query, 0);
    assert query[..0] + query[9..] == query[9..];
    StripOneBlank(query[9..]);
  }

  lemma OneMentionAtStart(query: string)
    requires query == "wikipedia python"
    ensures IndexOf(query, "wikipedia") == Some(0)
    ensures query[9..] == " python" && !Contains(query[9..], "wikipedia")
  {
    assert "wikipedia" <= query;
    MissingCharNotContained(query[9..], "wikipedia", 'w');
  }

  lemma StripOneBlank(s: string)
    requires s == " python"
    ensures Strip(s) == "python"
  {
    assert LeadingSpace(s) == 1;
    assert TrailingSpace(s) == 0;
  }

  /**
   * What the encyclopedia search says: a summary is spoken after a fixed lead-in,
   * and each of the two failures has its own message.
   */
  function WikiReply(result: WikiResult): (reply: string)
    ensures result.Summary? <==> WikiPrefix <= reply
    ensures result.Summary? ==> reply[|WikiPrefix|..] == result.text
    ensures result == Ambiguous <==> reply == AmbiguousMessage
    ensures result == WikiFailure <==> reply == WikiNotFoundMessage
  {
    assert WikiPrefix[0] == 'A' && AmbiguousMessage[0] == 'M' && WikiNotFoundMessage[0] == 'S';
    match result
    case Summary(text) => WikiPrefix + text
    case Ambiguous => AmbiguousMessage
    case WikiFailure => WikiNotFoundMessage
  }

  // ---------------------------------------------------------------- weather

  /** What the weather service yields for a city. */
  datatype WeatherResult =
    | Report(description: string, temperature: string, humidity: string)  // "cod" is 200
    | CityNotFound        // any other "cod"
    | WeatherUnavailable  // the request or the JSON decoding raised

  /** The source's degree sign as it stands in its text: "Â°C". */
  const Celsius := "Â°C"

  const CityNotFoundMessage := "City not found"
  const WeatherUnavailableMessage := "Weather service unavailable"

  /**
   * What the weather command says: a report names the city first and ends with
   * the humidity in percent; each of the two failures has its own message.
   */
  function WeatherReply(city: string, result: WeatherResult): (reply: string)
    ensures result.Report? ==> "Weather in " + city + ": " <= reply && reply[|reply| - 1] == '%'
    ensures result == CityNotFound <==> reply == CityNotFoundMessage
    ensures result == WeatherUnavailable <==> reply == WeatherUnavailableMessage
  {
    assert CityNotFoundMessage[0] == 'C' && WeatherUnavailableMessage[8] == 's';
    match result
    case Report(description, temperature, humidity) =>
      var reply := "Weather in " + city + ": " + description + ". Temperature: " + temperature + Celsius
        + ", Humidity: " + humidity + "%";
      assert reply[0] == 'W' && reply[8] == 'i';
      reply
    case CityNotFound => CityNotFoundMessage
    case WeatherUnavailable => WeatherUnavailableMessage
  }

  // ---------------------------------------------------------------- computation

  /** What the computation engine yields for a question. */
  datatype ComputeResult =
    | Answer(text: string)
    | NoAnswer            // the result iterator is empty (StopIteration)
    | ComputeUnavailable  // any other exception

  const NoAnswerMessage := "I couldn't compute that"
  const ComputeUnavailableMessage := "Computation service unavailable"

  /**
   * What the computation command says: the engine's first answer, word for
   * word; an empty answer list and a failing service have different messages.
   */
  function ComputeReply(result: ComputeResult): (reply: string)
    ensures result.Answer? ==> reply == result.text
    ensures result == NoAnswer ==> reply == NoAnswerMessage && reply != ComputeUnavailableMessage
    ensures result == ComputeUnavailable ==> reply == ComputeUnavailableMessage && reply != NoAnswerMessage
  {
    assert NoAnswerMessage[0] == 'I' && ComputeUnavailableMessage[0] == 'C';
    match result
    case Answer(text) => text
    case NoAnswer => NoAnswerMessage
    case ComputeUnavailable => ComputeUnavailableMessage
  }
}
