/** Content assembly of the forecast email: the view values ("locals") built
    for one subscriber at one place, the subject chosen by the weekday class of
    tomorrow, and the message envelope. */
module EmailFormat {
  import opened Wrappers
  import opened Temporal
  import opened Icons

  datatype Subscriber = Subscriber(email: string, lang: string, country: string)

  /** A place; its display name is resolved by an external lookup. */
  datatype Place = Place(id: string, timezone: string)

  /** A forecast record, passed through to the template unchanged. */
  datatype ForecastRecord = ForecastRecord(symbol: Symbol)

  /** A holiday record, passed through to the template unchanged. */
  datatype Holiday = Holiday(name: string)

  /** The `currentCulture` pair, taken from the subscriber. */
  datatype Culture = Culture(lang: string, country: string)

  /** The three locale keys a subject can be built from. */
  datatype TitleKey = EmailTitle | EmailTitleWeekend | EmailTitleWeekstart

  /** What the template renderer sees: the data properties of the locals. */
  datatype ViewValues = ViewValues(
    subscriber: Subscriber,
    place: Place,
    forecast: seq<ForecastRecord>,
    holidays: seq<Holiday>,
    countryLinks: map<string, string>,
    placeWeatherTitle: string,
    currentDate: ZonedDate,
    currentCulture: Culture,
    startDate: Option<ZonedDate>,
    isWeekend: bool,
    isWeekstart: bool,
    title: Option<string>)

  /** The collaborators the assembly calls but does not define:
      `S.format(key, lang, arg)`, `Place.getName(place, lang)`,
      `links.projectName(country)`, `links.country(country)`, the
      `email.pug` renderer, and the configured sender address. */
  datatype Collaborators = Collaborators(
    format: (string, string, string) -> string,
    placeName: (Place, string) -> string,
    projectName: string -> string,
    countryLinks: string -> map<string, string>,
    render: ViewValues -> string,
    fromEmail: string)

  /** The message handed to delivery. */
  datatype Envelope = Envelope(subject: string, html: string, to: string, from: string)

  /** The catalog name of a title key. */
  function KeyName(k: TitleKey): (name: string)
    ensures k == EmailTitle ==> name == "email_title"
    ensures k == EmailTitleWeekend ==> name == "email_title_weekend"
    ensures k == EmailTitleWeekstart ==> name == "email_title_weekstart"
  {
    match k
    case EmailTitle => "email_title"
    case EmailTitleWeekend => "email_title_weekend"
    case EmailTitleWeekstart => "email_title_weekstart"
  }

  /** The subject key: the weekend key whenever the start date is in the
      weekend, the week-start key only when it is not, and the default key
      otherwise. */
  function SelectTitleKey(isWeekend: bool, isWeekstart: bool): (k: TitleKey)
    ensures k == EmailTitleWeekend <==> isWeekend
    ensures k == EmailTitleWeekstart <==> !isWeekend && isWeekstart
    ensures k == EmailTitle <==> !isWeekend && !isWeekstart
  {
    if isWeekend then EmailTitleWeekend
    else if isWeekstart then EmailTitleWeekstart
    else EmailTitle
  }

  /** `util.format('"%s" <%s>', projectName, sender)`: the project name in
      double quotes, a space, and the sender address in angle brackets, both
      embedded verbatim. */
  function FromHeader(projectName: string, sender: string): (r: string)
    ensures |r| == |projectName| + |sender| + 5
    ensures r[0] == '"' && r[1..|projectName| + 1] == projectName
    ensures r[|projectName| + 1..|projectName| + 4] == "\" <"
    ensures r[|projectName| + 4..|r| - 1] == sender && r[|r| - 1] == '>'
  {
    "\"" + projectName + "\" <" + sender + ">"
  }

  /** The `locals` object: built once, then given its start date, its
      weekday flags and finally its title in place. */
  class Locals {
    const subscriber: Subscriber
    const place: Place
    const forecast: seq<ForecastRecord>
    const holidays: seq<Holiday>
    const countryLinks: map<string, string>
    const placeWeatherTitle: string
    const currentDate: ZonedDate
    const currentCulture: Culture
    var startDate: Option<ZonedDate>
    var isWeekend: bool
    var isWeekstart: bool
    var title: Option<string>

    /** The values the template receives. */
    function View(): (v: ViewValues)
      reads this
      ensures v.title == title && v.startDate == startDate
      ensures v.isWeekend == isWeekend && v.isWeekstart == isWeekstart
    {
      ViewValues(subscriber, place, forecast, holidays, countryLinks, placeWeatherTitle,
                 currentDate, currentCulture, startDate, isWeekend, isWeekstart, title)
    }

    /** The object literal: the inputs passed through, the culture taken from
        the subscriber, the place weather title, and `now` in the place's
        timezone as the current date. Start date, flags and title are not
        there yet (an absent flag reads as false). */
    constructor (subscriber: Subscriber, place: Place, forecast: seq<ForecastRecord>,
                 holidays: seq<Holiday>, now: ZonedDate, env: Collaborators)
      ensures this.subscriber == subscriber && this.place == place
      ensures this.forecast == forecast && this.holidays == holidays
      ensures currentCulture == Culture(subscriber.lang, subscriber.country)
      ensures countryLinks == env.countryLinks(subscriber.country)
      ensures placeWeatherTitle ==
        env.format("place_weather_title", subscriber.lang, env.placeName(place, subscriber.lang))
      ensures currentDate == now
      ensures startDate == None && !isWeekend && !isWeekstart && title == None
    {
      this.subscriber := subscriber;
      this.place := place;
      this.forecast := forecast;
      this.holidays := holidays;
      currentCulture := Culture(subscriber.lang, subscriber.country);
      countryLinks := env.countryLinks(subscriber.country);
      placeWeatherTitle :=
        env.format("place_weather_title", subscriber.lang, env.placeName(place, subscriber.lang));
      currentDate := now;
      startDate := None;
      isWeekend := false;
      isWeekstart := false;
      title := None;
    }

    /** The look-ahead: the start date is the day after the current date, and
        both flags are computed from the start date. */
    method AddLookAhead()
      modifies this
      ensures startDate == Some(AddOneDay(currentDate))
      ensures isWeekend == IsWeekend(AddOneDay(currentDate))
      ensures isWeekstart == IsWeekstart(AddOneDay(currentDate))
      ensures title == old(title)
    {
      startDate := Some(AddOneDay(currentDate));
      isWeekend := IsWeekend(startDate.value);
      isWeekstart := IsWeekstart(startDate.value);
    }

    /** `formatMessage`: resolve the title, store it in the locals, render the
        body from the locals and build the envelope. */
    method FormatMessage(env: Collaborators) returns (msg: Envelope)
      requires startDate.Some?
      modifies this`title
      ensures title == Some(msg.subject)
      ensures msg.subject ==
        env.format(KeyName(SelectTitleKey(isWeekend, isWeekstart)), currentCulture.lang,
                   env.placeName(place, currentCulture.lang))
      ensures msg.html == env.render(View())
      ensures msg.to == subscriber.email
      ensures msg.from == FromHeader(env.projectName(currentCulture.country), env.fromEmail)
    {
      var lang := currentCulture.lang;
      var placeName := env.placeName(place, lang);
      var title := env.format(KeyName(EmailTitle), lang, placeName);
      if isWeekend {
        title := env.format(KeyName(EmailTitleWeekend), lang, placeName);
      } else if isWeekstart {
        title := env.format(KeyName(EmailTitleWeekstart), lang, placeName);
      }
      this.title := Some(title);
      var html := env.render(View());
      msg := Envelope(title, html, subscriber.email,
                      FromHeader(env.projectName(currentCulture.country), env.fromEmail));
    }
  }

  /** The subject key of an email built on the day `current`: it is chosen by
      the weekday of the day after. */
  function SubjectKey(current: ZonedDate): (k: TitleKey)
    ensures k == EmailTitleWeekend <==> Weekday(current) == 4 || Weekday(current) == 5
    ensures k == EmailTitleWeekstart <==> Weekday(current) == 7
    ensures k == EmailTitle <==> Weekday(current) in {1, 2, 3, 6}
  {
    LookAheadFlags(current);
    SelectTitleKey(IsWeekend(AddOneDay(current)), IsWeekstart(AddOneDay(current)))
  }

  /** The locals as the renderer sees them when the email is built on `now`. */
  function RenderedView(subscriber: Subscriber, place: Place, forecast: seq<ForecastRecord>,
                        holidays: seq<Holiday>, now: ZonedDate, env: Collaborators): (v: ViewValues)
    ensures v.subscriber == subscriber && v.place == place
    ensures v.forecast == forecast && v.holidays == holidays
    ensures v.currentDate == now && v.currentCulture == Culture(subscriber.lang, subscriber.country)
    ensures v.startDate == Some(AddOneDay(now))
    ensures v.isWeekend == IsWeekend(AddOneDay(now)) && v.isWeekstart == IsWeekstart(AddOneDay(now))
    ensures !(v.isWeekend && v.isWeekstart)
    ensures v.title ==
      Some(env.format(KeyName(SubjectKey(now)), subscriber.lang, env.placeName(place, subscriber.lang)))
  {
    var lang := subscriber.lang;
    var start := AddOneDay(now);
    WeekendExcludesWeekstart(start);
    ViewValues(subscriber, place, forecast, holidays, env.countryLinks(subscriber.country),
               env.format("place_weather_title", lang, env.placeName(place, lang)),
               now, Culture(lang, subscriber.country), Some(start),
               IsWeekend(start), IsWeekstart(start),
               Some(env.format(KeyName(SubjectKey(now)), lang, env.placeName(place, lang))))
  }

  /** The exported function: build the locals for `now` (the current instant
      in the place's timezone), add the look-ahead, and format the message. */
  method BuildForecastEmail(subscriber: Subscriber, place: Place, forecast: seq<ForecastRecord>,
                            holidays: seq<Holiday>, now: ZonedDate, env: Collaborators)
    returns (msg: Envelope)
    ensures msg.subject ==
      env.format(KeyName(SubjectKey(now)), subscriber.lang, env.placeName(place, subscriber.lang))
    ensures msg.html == env.render(RenderedView(subscriber, place, forecast, holidays, now, env))
    ensures msg.to == subscriber.email
    ensures msg.from == FromHeader(env.projectName(subscriber.country), env.fromEmail)
  {
    var locals := new Locals(subscriber, place, forecast, holidays, now, env);
    locals.AddLookAhead();
    msg := locals.FormatMessage(env);
  }
}
