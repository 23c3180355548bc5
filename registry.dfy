/** The capability registry: the if/elif chain that maps a call's name to one
    of the four movie capabilities, reading named arguments with a default of
    the empty string (app.py:124-141). */
module Registry {
  import opened Wrappers
  import opened JsonValue
  import opened Interpreter

  const NowPlayingName: string := "get_now_playing_movies"
  const ShowtimesName: string := "get_showtimes"
  const ReviewsName: string := "get_reviews"
  const BuyTicketName: string := "buy_ticket"
  const UnknownPrefix: string := "Unknown function: "

  /** The value a named argument takes when the arguments mapping lacks it. */
  const Missing: Json := JStr("")

  predicate IsKnownName(name: Json) {
    name in {JStr(NowPlayingName), JStr(ShowtimesName), JStr(ReviewsName), JStr(BuyTicketName)}
  }

  /** The capability selected by a call, with the argument values it is
      invoked with. Argument values are passed on as decoded: nothing
      converts them to strings. */
  datatype Cap =
    | NowPlaying
    | Showtimes(title: Json, location: Json)
    | Reviews(movieId: Json)
    | BuyTicket(theater: Json, movie: Json, showtime: Json)
    | Unknown(name: Json)

  /** Reading a named argument from something that is not a mapping raises
      an attribute error, which nothing in the loop catches. */
  datatype DispatchError = AttributeError(receiver: Json)

  /** The external capabilities, left uninterpreted. */
  datatype Capabilities = Capabilities(
    nowPlaying: () -> string,
    showtimes: (Json, Json) -> string,
    reviews: Json -> string,
    buyTicket: (Json, Json, Json) -> string)

  /** `arguments.get(key, "")` on a mapping. */
  function Arg(arguments: map<string, Json>, key: string): (v: Json)
    ensures key in arguments ==> v == arguments[key]
    ensures key !in arguments ==> v == Missing
  {
    if key in arguments then arguments[key] else Missing
  }

  /** Selects the capability a call names. */
  function Dispatch(call: Call): (r: Result<Cap, DispatchError>)
    // the name alone decides which capability is chosen
    ensures r.Ok? && r.value.NowPlaying? <==> call.name == JStr(NowPlayingName)
    ensures r.Ok? && r.value.Showtimes? ==> call.name == JStr(ShowtimesName)
    ensures r.Ok? && r.value.Reviews? ==> call.name == JStr(ReviewsName)
    ensures r.Ok? && r.value.BuyTicket? ==> call.name == JStr(BuyTicketName)
    // unrecognised names are reported, whatever the arguments
    ensures r.Ok? && r.value.Unknown? <==> !IsKnownName(call.name)
    ensures r.Ok? && r.value.Unknown? ==> r.value.name == call.name
    // the three readers of named arguments fail exactly on non-mappings
    ensures r.Err? <==> IsKnownName(call.name) && call.name != JStr(NowPlayingName) && !call.arguments.JObj?
    ensures r.Err? ==> r.error == AttributeError(call.arguments)
  {
    var name, args := call.name, call.arguments;
    if name == JStr(NowPlayingName) then
      Ok(NowPlaying)
    else if name == JStr(ShowtimesName) then
      if args.JObj? then Ok(Showtimes(Arg(args.fields, "title"), Arg(args.fields, "location")))
      else Err(AttributeError(args))
    else if name == JStr(ReviewsName) then
      if args.JObj? then Ok(Reviews(Arg(args.fields, "movie_id")))
      else Err(AttributeError(args))
    else if name == JStr(BuyTicketName) then
      if args.JObj? then
        Ok(BuyTicket(Arg(args.fields, "theater"), Arg(args.fields, "movie"), Arg(args.fields, "showtime")))
      else Err(AttributeError(args))
    else
      Ok(Unknown(name))
  }

  /** The text of an unknown-function result. `show` is the host's rendering
      of a non-string value; a string name is inserted as it is. */
  function UnknownText(show: Json -> string, name: Json): (t: string)
    ensures |UnknownPrefix| <= |t| && t[..|UnknownPrefix|] == UnknownPrefix
    ensures name.JStr? ==> t == UnknownPrefix + name.s
  {
    UnknownPrefix + (if name.JStr? then name.s else show(name))
  }

  /** The text a dispatched capability returns. */
  function Run(caps: Capabilities, show: Json -> string, cap: Cap): string {
    match cap
    case NowPlaying => caps.nowPlaying()
    case Showtimes(title, location) => caps.showtimes(title, location)
    case Reviews(movieId) => caps.reviews(movieId)
    case BuyTicket(theater, movie, showtime) => caps.buyTicket(theater, movie, showtime)
    case Unknown(name) => UnknownText(show, name)
  }

  /** The call a model would emit for a capability: the name together with a
      mapping holding exactly the capability's named parameters. */
  function Request(cap: Cap): (c: Call)
    ensures cap.Unknown? ==> c.name == cap.name
    ensures !cap.Unknown? ==> IsKnownName(c.name)
  {
    match cap
    case NowPlaying => Call(JStr(NowPlayingName), JStr(""))
    case Showtimes(title, location) =>
      Call(JStr(ShowtimesName), JObj(map["title" := title, "location" := location]))
    case Reviews(movieId) => Call(JStr(ReviewsName), JObj(map["movie_id" := movieId]))
    case BuyTicket(theater, movie, showtime) =>
      Call(JStr(BuyTicketName), JObj(map["theater" := theater, "movie" := movie, "showtime" := showtime]))
    case Unknown(name) => Call(name, JNull)
  }

  /** Round trip: dispatching the request for a capability (other than an
      unknown name that happens to be a known one) selects that very
      capability with the same argument values. */
  lemma DispatchRequest(cap: Cap)
    requires cap.Unknown? ==> !IsKnownName(cap.name)
    ensures Dispatch(Request(cap)) == Ok(cap)
  {
  }

  /** Listing the movies now playing never looks at the arguments: any value
      there, mapping or not, leads to the same capability. */
  lemma NowPlayingIgnoresArguments(a1: Json, a2: Json)
    ensures Dispatch(Call(JStr(NowPlayingName), a1)) == Dispatch(Call(JStr(NowPlayingName), a2)) == Ok(NowPlaying)
  {
  }

  /** An unrecognised name yields the unknown-function text whatever the
      capabilities are: no capability is invoked. */
  lemma UnknownInvokesNoCapability(call: Call, caps1: Capabilities, caps2: Capabilities, show: Json -> string)
    requires !IsKnownName(call.name)
    ensures Dispatch(call).Ok?
    ensures Run(caps1, show, Dispatch(call).value) == Run(caps2, show, Dispatch(call).value)
    ensures var t := Run(caps1, show, Dispatch(call).value);
      |UnknownPrefix| <= |t| && t[..|UnknownPrefix|] == UnknownPrefix
    ensures call.name.JStr? ==> Run(caps1, show, Dispatch(call).value) == UnknownPrefix + call.name.s
  {
  }

  /** Named arguments missing from the mapping are passed as the empty
      string, present ones as they are. */
  lemma ArgumentDefaults(name: Json, fields: map<string, Json>)
    requires IsKnownName(name) && name != JStr(NowPlayingName)
    ensures Dispatch(Call(name, JObj(fields))).Ok?
    ensures var cap := Dispatch(Call(name, JObj(fields))).value;
      match cap
      case Showtimes(title, location) =>
        (title == if "title" in fields then fields["title"] else JStr(""))
        && (location == if "location" in fields then fields["location"] else JStr(""))
      case Reviews(movieId) =>
        movieId == if "movie_id" in fields then fields["movie_id"] else JStr("")
      case BuyTicket(theater, movie, showtime) =>
        (theater == if "theater" in fields then fields["theater"] else JStr(""))
        && (movie == if "movie" in fields then fields["movie"] else JStr(""))
        && (showtime == if "showtime" in fields then fields["showtime"] else JStr(""))
      case _ => false
  {
  }

  /** Which capability a dispatched call invokes and with which values, in
      which order: the named fields of the arguments mapping, or `""` for
      each one missing. Listing the movies now playing takes no argument. */
  lemma CapabilityInvocation(call: Call, caps: Capabilities, show: Json -> string)
    requires IsKnownName(call.name)
    requires call.name != JStr(NowPlayingName) ==> call.arguments.JObj?
    ensures Dispatch(call).Ok?
    ensures var text := Run(caps, show, Dispatch(call).value);
      && (call.name == JStr(NowPlayingName) ==> text == caps.nowPlaying())
      && (call.name == JStr(ShowtimesName) ==>
            text == caps.showtimes(Arg(call.arguments.fields, "title"), Arg(call.arguments.fields, "location")))
      && (call.name == JStr(ReviewsName) ==>
            text == caps.reviews(Arg(call.arguments.fields, "movie_id")))
      && (call.name == JStr(BuyTicketName) ==>
            text == caps.buyTicket(Arg(call.arguments.fields, "theater"), Arg(call.arguments.fields, "movie"),
                                   Arg(call.arguments.fields, "showtime")))
  {
  }
}
