/** The bot's handlers for the start command, the health command, location
    messages and free text.

    A `Bot` records what the handlers do to the outside world: the messages
    sent to the chat platform (`outbox`), the requests sent to the LLM
    gateway (`gatewayRequests`), the reverse-geocoding queries
    (`geocodeQueries`) and the health-check log (`log`). The gateway and the
    geocoding service are not modelled: a handler is given the gateway's
    behaviour as a function and the geocoding service's answer as a
    `GeocodeResponse` value. */
module Handlers {
  import opened Config
  import opened MarkdownV2
  import opened AnswerGenerator

  datatype ParseMode = PlainText | MarkdownV2Mode

  datatype KeyboardButton = KeyboardButton(text: string, requestLocation: bool)

  datatype ReplyMarkup =
    | NoMarkup
    | ReplyKeyboard(keyboard: seq<seq<KeyboardButton>>, oneTimeKeyboard: bool)

  /** A message the bot sends. */
  datatype OutgoingMessage = OutgoingMessage(chatId: int, text: string, parseMode: ParseMode, markup: ReplyMarkup)

  /** The content of an incoming message. Coordinates are kept as the text
      they are rendered to in the query and in the prompt. */
  datatype Incoming = TextMessage(text: string) | LocationMessage(latitude: string, longitude: string)

  /** An incoming update: who sent it, in which chat, and what. */
  datatype Update = Update(fromUserId: int, chatId: int, message: Incoming)

  /** The health command's log: an informational line for an admin, a
      warning for anyone else. */
  datatype LogEntry = HealthConfirmed(userId: int) | HealthDenied(userId: int)

  /** What a handler finished with: normally, or with an exception that
      leaves the handler before it replies. */
  datatype Outcome = Completed | Raised(error: Error)

  /** The two fields the handler reads from the reverse-geocoding service's
      JSON answer, each `None` when the key is absent; a present value is
      the text it is rendered to. */
  datatype GeocodeResponse = GeocodeResponse(locality: Option<string>, countryName: Option<string>)

  const GREETING: string :=
    "\U{2708}\U{FE0F} Welcome to the History Around Me Bot! \U{1F30E} \n\n I'm your professional travel guide! Click the button below to send your current location."
  const LOCATION_KEYBOARD: ReplyMarkup :=
    ReplyKeyboard([[KeyboardButton("Send Location", true)]], true)
  const HEALTH_REPLY: string := "Bot is live and running!"
  const NOT_FOUND_REPLY: string := "Location details not found."
  const UNKNOWN_COUNTRY: string := "Unknown country"

  /** A reverse-geocoding query: the coordinates and the language the
      locality is asked in. */
  datatype GeocodeQuery = GeocodeQuery(latitude: string, longitude: string, localityLanguage: string)

  /** The user prompt sent to the generator for a pair of coordinates. */
  function LocationPrompt(latitude: string, longitude: string): string {
    latitude + ", " + longitude
  }

  /** The sentence naming where the user is; a missing country is named
      "Unknown country", the locality is used as it is. */
  function LocationInfo(geo: GeocodeResponse): (info: string)
    requires geo.locality.Some?
    ensures geo.countryName.Some? ==> info == "You are in " + geo.locality.value + ", " + geo.countryName.value + "."
    ensures geo.countryName.None? ==> info == "You are in " + geo.locality.value + ", Unknown country."
  {
    var country := if geo.countryName.Some? then geo.countryName.value else UNKNOWN_COUNTRY;
    "You are in " + geo.locality.value + ", " + country + "."
  }

  /** The generator's answer for a pair of coordinates: the coordinates as
      the user input and no system prompt of its own. */
  function PlacesOfInterest(latitude: string, longitude: string, settings: Settings,
                            llm: ChatRequest -> Completion): (r: Result<string>)
    ensures r == Err(PromptNotSpecified) <==> !Truthy(settings.systemPrompt)
    ensures Truthy(settings.systemPrompt) ==>
      var calls := GatewayCalls(LocationPrompt(latitude, longitude), None, settings);
      && |calls| == 1
      && calls[0].messages == [ChatMessage(System, settings.systemPrompt.value), ChatMessage(User, latitude + ", " + longitude)]
      && r == FirstChoice(llm(calls[0]))
  {
    GenerateAnswer(LocationPrompt(latitude, longitude), None, settings, llm)
  }

  /** The message that replying with `text` in MarkdownV2 sends. */
  function MarkdownReply(u: Update, text: string): OutgoingMessage {
    OutgoingMessage(u.chatId, Escape(text), MarkdownV2Mode, NoMarkup)
  }

  /** A location reply that reaches the user says where the user is, then a
      blank line, then the generator's answer, all escaped. */
  lemma LocationReplyReadsBack(u: Update, geo: GeocodeResponse, more: string)
    requires geo.locality.Some?
    ensures Unescape(MarkdownReply(u, LocationInfo(geo) + "\n\n" + more).text) == LocationInfo(geo) + "\n\n" + more
    ensures Escape(LocationInfo(geo) + "\n\n" + more) == Escape(LocationInfo(geo)) + "\n\n" + Escape(more)
  {
    UnescapeEscape(LocationInfo(geo) + "\n\n" + more);
    EscapeConcat(LocationInfo(geo) + "\n\n", more);
    EscapeConcat(LocationInfo(geo), "\n\n");
    EscapeIdentityIff("\n\n");
    CountReservedZero("\n\n");
  }

  class Bot {
    const settings: Settings
    var outbox: seq<OutgoingMessage>
    var gatewayRequests: seq<ChatRequest>
    var geocodeQueries: seq<GeocodeQuery>
    var log: seq<LogEntry>

    /** Every message sent in MarkdownV2 is the escape of some text. */
    ghost predicate Valid()
      reads this`outbox
    {
      forall m :: m in outbox && m.parseMode == MarkdownV2Mode ==> IsEscaped(m.text)
    }

    constructor (settings: Settings)
      ensures Valid()
      ensures this.settings == settings
      ensures outbox == [] && gatewayRequests == [] && geocodeQueries == [] && log == []
    {
      this.settings := settings;
      outbox, gatewayRequests, geocodeQueries, log := [], [], [], [];
    }

    /** Replies in the update's chat with the escaped text, in MarkdownV2. */
    method SendReplyText(u: Update, text: string)
      requires Valid()
      modifies this`outbox
      ensures Valid()
      ensures outbox == old(outbox) + [MarkdownReply(u, text)]
    {
      outbox := outbox + [MarkdownReply(u, text)];
    }

    /** The start command: the fixed greeting, unescaped, with a one-time
        keyboard of one button that asks for the user's location. */
    method SendWelcome(u: Update)
      requires Valid()
      modifies this`outbox
      ensures Valid()
      ensures outbox == old(outbox) + [OutgoingMessage(u.chatId, GREETING, PlainText, LOCATION_KEYBOARD)]
    {
      outbox := outbox + [OutgoingMessage(u.chatId, GREETING, PlainText, LOCATION_KEYBOARD)];
    }

    /** The health command: an admin gets one confirmation, sent to the
        admin's own user id; anyone else gets nothing and a warning is
        logged. */
    method HealthCheck(u: Update)
      requires Valid()
      modifies this`outbox, this`log
      ensures Valid()
      ensures IsAdmin(settings, u.fromUserId) ==>
        && outbox == old(outbox) + [OutgoingMessage(u.fromUserId, HEALTH_REPLY, PlainText, NoMarkup)]
        && log == old(log) + [HealthConfirmed(u.fromUserId)]
      ensures !IsAdmin(settings, u.fromUserId) ==>
        outbox == old(outbox) && log == old(log) + [HealthDenied(u.fromUserId)]
    {
      var userId := u.fromUserId;
      if userId in settings.adminUserIds {
        outbox := outbox + [OutgoingMessage(userId, HEALTH_REPLY, PlainText, NoMarkup)];
        log := log + [HealthConfirmed(userId)];
      } else {
        log := log + [HealthDenied(userId)];
      }
    }

    /** Calls the generator, recording the request it sends, if any. */
    method Generate(userInput: string, systemPrompt: Option<string>, llm: ChatRequest -> Completion)
      returns (r: Result<string>)
      modifies this`gatewayRequests
      ensures r == GenerateAnswer(userInput, systemPrompt, settings, llm)
      ensures gatewayRequests == old(gatewayRequests) + GatewayCalls(userInput, systemPrompt, settings)
    {
      gatewayRequests := gatewayRequests + GatewayCalls(userInput, systemPrompt, settings);
      r := GenerateAnswer(userInput, systemPrompt, settings, llm);
    }

    /** A location message: look the coordinates up; with a locality, ask
        the generator about the coordinates and reply with where the user
        is followed by its answer; without one, reply that nothing was
        found and do not ask the generator. */
    method Location(u: Update, geo: GeocodeResponse, llm: ChatRequest -> Completion) returns (outcome: Outcome)
      requires Valid()
      requires u.message.LocationMessage?
      modifies this`outbox, this`gatewayRequests, this`geocodeQueries
      ensures Valid()
      ensures geocodeQueries == old(geocodeQueries) + [GeocodeQuery(u.message.latitude, u.message.longitude, "en")]
      ensures geo.locality.None? ==>
        && outbox == old(outbox) + [MarkdownReply(u, NOT_FOUND_REPLY)]
        && gatewayRequests == old(gatewayRequests)
        && outcome == Completed
      ensures geo.locality.Some? ==>
        gatewayRequests == old(gatewayRequests) + GatewayCalls(LocationPrompt(u.message.latitude, u.message.longitude), None, settings)
      ensures geo.locality.Some? ==>
        match PlacesOfInterest(u.message.latitude, u.message.longitude, settings, llm)
        case Ok(more) => outbox == old(outbox) + [MarkdownReply(u, LocationInfo(geo) + "\n\n" + more)] && outcome == Completed
        case Err(e) => outbox == old(outbox) && outcome == Raised(e)
    {
      var latitude, longitude := u.message.latitude, u.message.longitude;
      geocodeQueries := geocodeQueries + [GeocodeQuery(latitude, longitude, "en")];
      if geo.locality.Some? {
        var info := LocationInfo(geo);
        var more := Generate(LocationPrompt(latitude, longitude), None, llm);
        match more
        case Ok(answer) =>
          SendReplyText(u, info + "\n\n" + answer);
          outcome := Completed;
        case Err(e) =>
          outcome := Raised(e);
      } else {
        SendReplyText(u, NOT_FOUND_REPLY);
        outcome := Completed;
      }
    }

    /** A text message that is not a command: the generator's answer to the
        raw text, escaped, in MarkdownV2. */
    method HandleTextMessage(u: Update, llm: ChatRequest -> Completion) returns (outcome: Outcome)
      requires Valid()
      requires u.message.TextMessage?
      modifies this`outbox, this`gatewayRequests
      ensures Valid()
      ensures gatewayRequests == old(gatewayRequests) + GatewayCalls(u.message.text, None, settings)
      ensures match GenerateAnswer(u.message.text, None, settings, llm)
        case Ok(answer) => outbox == old(outbox) + [MarkdownReply(u, answer)] && outcome == Completed
        case Err(e) => outbox == old(outbox) && outcome == Raised(e)
    {
      var answer := Generate(u.message.text, None, llm);
      match answer
      case Ok(text) =>
        SendReplyText(u, text);
        outcome := Completed;
      case Err(e) =>
        outcome := Raised(e);
    }
  }
}
