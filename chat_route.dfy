/**
 * The `POST /` handler of the chat router: reject a missing location, ask the
 * assistant, and fall back to the direct lookup when the assistant path fails.
 */
module ChatRoute {
  import opened Wrappers
  import opened Weather
  import opened Location
  import opened Lookup
  import opened RunStatus

  const NoLocationProvided: string := "No location provided"
  const InternalServerError: string := "Internal server error: "

  /** The `message` field of the JSON reply: a text, or the assistant path's answer as is. */
  datatype Body = Message(text: string) | AssistantReply(answer: Answer)

  /** An HTTP reply: its status code and its body. */
  datatype Response = Response(status: int, body: Body)

  /** The assistant path, seen from the handler: how it settles for the prompt it is sent. */
  type Assistant = string -> Outcome

  /** JavaScript truthiness of the request's `location`: present and not the empty string. */
  predicate Truthy(location: Option<string>) {
    location.Some? && location.value != ""
  }

  /** The message the assistant is sent for a location. */
  function Prompt(location: string): string {
    "Get the weather in " + location
  }

  /** The handler: the request's `location`, the assistant path and the weather provider give the reply. */
  function HandlePost(location: Option<string>, assistant: Assistant, provider: Provider): (resp: Response)
    ensures resp.status == 200 || resp.status == 500
    ensures resp.status == 200 && resp.body.Message? ==> resp.body.text in {"good_weather", "bad_weather"}
  {
    if !Truthy(location) then Response(500, Message(NoLocationProvided))
    else
      match assistant(Prompt(location.value))
      case Settled(answer) => Response(200, AssistantReply(answer))
      case Threw(m) =>
        if m == NoLocationProvided then Response(500, Message(m))
        else
          var data := GetWeather(location.value, provider);
          if data.success then Response(200, Message(data.message))
          else Response(500, Message(InternalServerError + data.message))
  }

  /**
   * A missing or empty location is answered 500 "No location provided",
   * whatever the assistant and the provider would have said: neither is consulted.
   */
  lemma MissingLocationRejected(location: Option<string>, assistant: Assistant, provider: Provider)
    requires location == None || location == Some("")
    ensures HandlePost(location, assistant, provider) == Response(500, Message("No location provided"))
  {
  }

  /** When the assistant path settles, its answer is returned with status 200 and the provider is not consulted. */
  lemma AssistantAnswerReturned(location: string, assistant: Assistant, provider: Provider)
    requires location != "" && assistant(Prompt(location)).Settled?
    ensures HandlePost(Some(location), assistant, provider) == Response(200, AssistantReply(assistant(Prompt(location)).answer))
  {
  }

  /**
   * When the assistant path throws anything but "No location provided", the
   * provider is asked about the location's city and country: a reading gives
   * 200 with its verdict, an error 500 with "Internal server error: " before
   * the error's message.
   */
  lemma FallbackToLookup(location: string, assistant: Assistant, provider: Provider)
    requires location != ""
    requires assistant(Prompt(location)).Threw? && assistant(Prompt(location)).message != "No location provided"
    ensures var reply := provider(City(location), Country(location));
      && (reply.Fetched? ==> HandlePost(Some(location), assistant, provider) == Response(200, Message(Verdict(reply.reading).Text())))
      && (reply.FetchFailed? ==> HandlePost(Some(location), assistant, provider) == Response(500, Message("Internal server error: " + reply.message)))
  {
    GetWeatherOutcome(location, provider);
  }

  /**
   * An assistant error whose message is "No location provided" is taken for
   * the handler's own: 500 with that message and no fallback lookup.
   */
  lemma AssistantErrorMistakenForMissingLocation(location: string, assistant: Assistant, provider: Provider)
    requires location != "" && assistant(Prompt(location)) == Threw("No location provided")
    ensures HandlePost(Some(location), assistant, provider) == Response(500, Message("No location provided"))
  {
  }

  /**
   * The status is 200 exactly when the location is present
   * and either the assistant path settles or it throws something other than
   * "No location provided" and the provider gives a reading.
   */
  lemma StatusIff(location: Option<string>, assistant: Assistant, provider: Provider)
    ensures HandlePost(location, assistant, provider).status == 200 <==>
      && Truthy(location)
      && (|| assistant(Prompt(location.value)).Settled?
          || (&& assistant(Prompt(location.value)).message != "No location provided"
              && provider(City(location.value), Country(location.value)).Fetched?))
  {
    if Truthy(location) {
      GetWeatherOutcome(location.value, provider);
    }
  }

  /**
   * The test "London, UK": with the assistant path failing and the provider
   * giving a reading for city "London" and country " UK", the reply is 200
   * with `good_weather` or `bad_weather`.
   */
  lemma LondonGetsVerdict(assistant: Assistant, provider: Provider)
    requires assistant(Prompt("London, UK")).Threw? && assistant(Prompt("London, UK")).message != "No location provided"
    requires provider("London", Some(" UK")).Fetched?
    ensures HandlePost(Some("London, UK"), assistant, provider).status == 200
    ensures HandlePost(Some("London, UK"), assistant, provider).body.text in {"good_weather", "bad_weather"}
  {
    LondonUK();
    FallbackToLookup("London, UK", assistant, provider);
    LabelTextIsKnown(Verdict(provider("London", Some(" UK")).reading));
  }

  /**
   * The tests of unknown locations: a location without a comma is looked up
   * as city only, and the provider's 404 error comes back as 500
   * "Internal server error: Request failed with status code 404".
   */
  lemma UnknownLocationFails(location: string, assistant: Assistant, provider: Provider)
    requires location != "" && Comma !in location
    requires assistant(Prompt(location)).Threw? && assistant(Prompt(location)).message != "No location provided"
    requires provider(location, None) == FetchFailed("Request failed with status code 404")
    ensures HandlePost(Some(location), assistant, provider)
      == Response(500, Message("Internal server error: " + "Request failed with status code 404"))
  {
    NoCommaIsCityOnly(location);
    FallbackToLookup(location, assistant, provider);
  }
}
