/**
 * Real-time query handling: deciding from a chat message which live lookup
 * it asks for (time, weather, stock, news, Wikipedia, exchange rate) and
 * with what argument, and rendering the lookup's answer as chat text. The
 * lookups themselves (clock, feeds, quotes, HTTP) are an opaque `fetch`.
 */
module RealtimeData {
  import opened Common
  import opened Text

  // ---------------------------------------------------------------------
  // Classification
  // ---------------------------------------------------------------------

  /** The `type` tag of a real-time result. */
  datatype QueryKind = DateTimeKind | WeatherKind | StockKind | NewsKind | WikipediaKind | ExchangeKind

  function TypeName(kind: QueryKind): string {
    match kind
    case DateTimeKind => "datetime"
    case WeatherKind => "weather"
    case StockKind => "stock"
    case NewsKind => "news"
    case WikipediaKind => "wikipedia"
    case ExchangeKind => "exchange"
  }

  /** The position of a kind in the order its keywords are tried. */
  function Rank(kind: QueryKind): nat {
    match kind
    case DateTimeKind => 0
    case WeatherKind => 1
    case StockKind => 2
    case NewsKind => 3
    case WikipediaKind => 4
    case ExchangeKind => 5
  }

  function Keywords(kind: QueryKind): seq<string> {
    match kind
    case DateTimeKind => ["time", "date", "now", "current"]
    case WeatherKind => ["weather", "temperature", "climate"]
    case StockKind => ["stock", "price", "shares"]
    case NewsKind => ["news", "latest", "headlines"]
    case WikipediaKind => ["wikipedia", "wiki", "what is", "who is"]
    case ExchangeKind => ["exchange", "currency", "convert"]
  }

  /** Some keyword of `kind` occurs as a substring of the lower-cased message. */
  predicate Mentions(messageLower: string, kind: QueryKind) {
    exists i | 0 <= i < |Keywords(kind)| :: Contains(messageLower, Keywords(kind)[i])
  }

  /** The provider call a message asks for, with the argument extracted from it. */
  datatype Request =
    | CurrentDateTime(timezone: string)
    | CurrentWeather(city: string)
    | StockPrice(symbol: string)
    | LatestNews(category: string)
    | WikipediaSummary(query: string)
    | ExchangeRate(fromCurrency: string, toCurrency: string)

  function KindOf(request: Request): QueryKind {
    match request
    case CurrentDateTime(_) => DateTimeKind
    case CurrentWeather(_) => WeatherKind
    case StockPrice(_) => StockKind
    case LatestNews(_) => NewsKind
    case WikipediaSummary(_) => WikipediaKind
    case ExchangeRate(_, _) => ExchangeKind
  }

  // --- time zone -------------------------------------------------------

  /** Locations recognised in a time query, in the order they are tried. */
  const TimezoneMapping: seq<(string, string)> := [
    ("utc", "UTC"),
    ("london", "Europe/London"),
    ("new york", "America/New_York"),
    ("los angeles", "America/Los_Angeles"),
    ("tokyo", "Asia/Tokyo"),
    ("sydney", "Australia/Sydney"),
    ("paris", "Europe/Paris"),
    ("berlin", "Europe/Berlin"),
    ("mumbai", "Asia/Kolkata"),
    ("dubai", "Asia/Dubai")
  ]

  const LocalTimezone := "local"

  function TimezoneFrom(messageLower: string, k: nat): string
    requires k <= |TimezoneMapping|
    decreases |TimezoneMapping| - k
  {
    if k == |TimezoneMapping| then LocalTimezone
    else if Contains(messageLower, TimezoneMapping[k].0) then TimezoneMapping[k].1
    else TimezoneFrom(messageLower, k + 1)
  }

  /** The time zone a time query asks for. */
  function Timezone(messageLower: string): string {
    TimezoneFrom(messageLower, 0)
  }

  /** No mapped zone is called "local". */
  lemma MappedZonesAreNotLocal()
    ensures forall k :: 0 <= k < |TimezoneMapping| ==> TimezoneMapping[k].1 != LocalTimezone
  {
    forall k | 0 <= k < |TimezoneMapping| ensures TimezoneMapping[k].1 != LocalTimezone {
      assert TimezoneMapping[k].1[0] != 'l';
    }
  }

  /** No mapped location from entry `i` on occurs in the message. */
  predicate NoLocationFrom(messageLower: string, i: nat) {
    forall k :: i <= k < |TimezoneMapping| ==> !Contains(messageLower, TimezoneMapping[k].0)
  }

  /** Entry `k` holds the first mapped location from entry `i` on that occurs in the message. */
  predicate FirstLocationAt(messageLower: string, i: nat, k: int) {
    && i <= k < |TimezoneMapping|
    && Contains(messageLower, TimezoneMapping[k].0)
    && forall j :: i <= j < k ==> !Contains(messageLower, TimezoneMapping[j].0)
  }

  lemma {:induction false} TimezoneFromIsFirstMatch(messageLower: string, i: nat)
    requires i <= |TimezoneMapping|
    decreases |TimezoneMapping| - i
    ensures TimezoneFrom(messageLower, i) == LocalTimezone <==> NoLocationFrom(messageLower, i)
    ensures forall k :: FirstLocationAt(messageLower, i, k) ==> TimezoneFrom(messageLower, i) == TimezoneMapping[k].1
  {
    if i == |TimezoneMapping| {
      assert NoLocationFrom(messageLower, i);
    } else if Contains(messageLower, TimezoneMapping[i].0) {
      MappedZonesAreNotLocal();
      assert !NoLocationFrom(messageLower, i);
      forall k | FirstLocationAt(messageLower, i, k)
        ensures TimezoneFrom(messageLower, i) == TimezoneMapping[k].1
      {
        assert k == i;
      }
    } else {
      TimezoneFromIsFirstMatch(messageLower, i + 1);
      assert NoLocationFrom(messageLower, i) <==> NoLocationFrom(messageLower, i + 1);
      forall k | FirstLocationAt(messageLower, i, k)
        ensures TimezoneFrom(messageLower, i) == TimezoneMapping[k].1
      {
        assert k != i;
        assert FirstLocationAt(messageLower, i + 1, k);
      }
    }
  }

  /**
   * The time zone is "local" exactly when no mapped location occurs in the
   * message; otherwise it is the zone of the first location, in mapping
   * order, that does.
   */
  lemma TimezoneIsFirstMatch(messageLower: string)
    ensures Timezone(messageLower) == LocalTimezone <==> NoLocationFrom(messageLower, 0)
    ensures forall k :: FirstLocationAt(messageLower, 0, k) ==> Timezone(messageLower) == TimezoneMapping[k].1
  {
    TimezoneFromIsFirstMatch(messageLower, 0);
  }

  /** The location loop of a time query. */
  method ExtractTimezone(messageLower: string) returns (timezone: string)
    ensures timezone == Timezone(messageLower)
  {
    timezone := LocalTimezone;
    var k := 0;
    while k < |TimezoneMapping|
      invariant 0 <= k <= |TimezoneMapping|
      invariant TimezoneFrom(messageLower, k) == Timezone(messageLower)
      invariant timezone == LocalTimezone
    {
      var (location, tz) := TimezoneMapping[k];
      if Contains(messageLower, location) {
        timezone := tz;
        break;
      }
      k := k + 1;
    }
  }

  // --- weather city ----------------------------------------------------

  const DefaultCity := "London"

  predicate IsPlacePreposition(word: string) {
    var w := Lower(word);
    w == "in" || w == "at" || w == "for"
  }

  function CityFrom(words: seq<string>, i: nat): string
    decreases |words| - i
  {
    if i >= |words| then DefaultCity
    else if IsPlacePreposition(words[i]) && i + 1 < |words| then words[i + 1]
    else CityFrom(words, i + 1)
  }

  /** The city a weather query asks about. */
  function City(message: string): string {
    CityFrom(Split(message), 0)
  }

  /** No word from position `i` on, the last word aside, is "in", "at" or "for". */
  predicate NoPrepositionFrom(words: seq<string>, i: nat) {
    forall k :: i <= k < |words| - 1 ==> !IsPlacePreposition(words[k])
  }

  /** Word `k` is the first "in", "at" or "for" from position `i` on that has a successor. */
  predicate FirstPrepositionAt(words: seq<string>, i: nat, k: int) {
    && i <= k < |words| - 1
    && IsPlacePreposition(words[k])
    && forall j :: i <= j < k ==> !IsPlacePreposition(words[j])
  }

  lemma {:induction false} CityFromIsFirstMatch(words: seq<string>, i: nat)
    decreases |words| - i
    ensures NoPrepositionFrom(words, i) ==> CityFrom(words, i) == DefaultCity
    ensures forall k :: FirstPrepositionAt(words, i, k) ==> CityFrom(words, i) == words[k + 1]
  {
    if i < |words| && !(IsPlacePreposition(words[i]) && i + 1 < |words|) {
      CityFromIsFirstMatch(words, i + 1);
      assert NoPrepositionFrom(words, i) ==> NoPrepositionFrom(words, i + 1);
      forall k | FirstPrepositionAt(words, i, k)
        ensures CityFrom(words, i) == words[k + 1]
      {
        assert k != i;
        assert FirstPrepositionAt(words, i + 1, k);
      }
    } else if i < |words| {
      assert !NoPrepositionFrom(words, i) by {
        assert IsPlacePreposition(words[i]);
      }
      forall k | FirstPrepositionAt(words, i, k)
        ensures CityFrom(words, i) == words[k + 1]
      {
        assert k == i;
      }
    }
  }

  /**
   * The city is the word, in its original casing, right after the first
   * "in", "at" or "for" (any casing) that is not the last word; "London"
   * when there is none.
   */
  lemma CityIsWordAfterFirstPreposition(message: string)
    ensures NoPrepositionFrom(Split(message), 0) ==> City(message) == DefaultCity
    ensures forall k :: FirstPrepositionAt(Split(message), 0, k) ==> City(message) == Split(message)[k + 1]
  {
    var words := Split(message);
    CityFromIsFirstMatch(words, 0);
    assert City(message) == CityFrom(words, 0);
  }

  /** The city loop of a weather query. */
  method ExtractCity(message: string) returns (city: string)
    ensures city == City(message)
  {
    var words := Split(message);
    city := DefaultCity;
    var i := 0;
    while i < |words|
      invariant 0 <= i <= |words|
      invariant CityFrom(words, i) == City(message)
      invariant city == DefaultCity
    {
      if IsPlacePreposition(words[i]) && i + 1 < |words| {
        city := words[i + 1];
        break;
      }
      i := i + 1;
    }
  }

  // --- stock symbol ----------------------------------------------------

  const DefaultSymbol := "AAPL"

  /** A word that may be a ticker: at most five letters. */
  predicate IsTickerLike(word: string) {
    |word| <= 5 && IsAlpha(word)
  }

  function SymbolFrom(words: seq<string>, i: nat): string
    decreases |words| - i
  {
    if i >= |words| then DefaultSymbol
    else if IsTickerLike(words[i]) then words[i]
    else SymbolFrom(words, i + 1)
  }

  /** The ticker a stock query asks about. */
  function Symbol(message: string): string {
    SymbolFrom(Split(Upper(message)), 0)
  }

  /** No word from position `i` on looks like a ticker. */
  predicate NoTickerFrom(words: seq<string>, i: nat) {
    forall k :: i <= k < |words| ==> !IsTickerLike(words[k])
  }

  /** Word `k` is the first ticker-like word from position `i` on. */
  predicate FirstTickerAt(words: seq<string>, i: nat, k: int) {
    && i <= k < |words|
    && IsTickerLike(words[k])
    && forall j :: i <= j < k ==> !IsTickerLike(words[j])
  }

  lemma {:induction false} SymbolFromIsFirstMatch(words: seq<string>, i: nat)
    decreases |words| - i
    ensures NoTickerFrom(words, i) ==> SymbolFrom(words, i) == DefaultSymbol
    ensures forall k :: FirstTickerAt(words, i, k) ==> SymbolFrom(words, i) == words[k]
    ensures IsTickerLike(SymbolFrom(words, i))
  {
    assert IsTickerLike(DefaultSymbol) by {
      assert IsLetter(DefaultSymbol[0]) && IsLetter(DefaultSymbol[1]);
      assert IsLetter(DefaultSymbol[2]) && IsLetter(DefaultSymbol[3]);
    }
    if i < |words| && !IsTickerLike(words[i]) {
      SymbolFromIsFirstMatch(words, i + 1);
      assert NoTickerFrom(words, i) ==> NoTickerFrom(words, i + 1);
      forall k | FirstTickerAt(words, i, k)
        ensures SymbolFrom(words, i) == words[k]
      {
        assert k != i;
        assert FirstTickerAt(words, i + 1, k);
      }
    } else if i < |words| {
      assert !NoTickerFrom(words, i);
      forall k | FirstTickerAt(words, i, k)
        ensures SymbolFrom(words, i) == words[k]
      {
        assert k == i;
      }
    }
  }

  /**
   * The symbol is the first word of the upper-cased message that has at most
   * five letters and nothing else, or "AAPL" when there is none; either way
   * it is one to five letters long.
   */
  lemma SymbolIsFirstShortAlphaWord(message: string)
    ensures NoTickerFrom(Split(Upper(message)), 0) ==> Symbol(message) == DefaultSymbol
    ensures forall k :: FirstTickerAt(Split(Upper(message)), 0, k) ==> Symbol(message) == Split(Upper(message))[k]
    ensures 1 <= |Symbol(message)| <= 5 && IsAlpha(Symbol(message))
  {
    var words := Split(Upper(message));
    SymbolFromIsFirstMatch(words, 0);
    assert Symbol(message) == SymbolFrom(words, 0);
  }

  /** The symbol loop of a stock query. */
  method ExtractSymbol(message: string) returns (symbol: string)
    ensures symbol == Symbol(message)
  {
    var words := Split(Upper(message));
    symbol := DefaultSymbol;
    var i := 0;
    while i < |words|
      invariant 0 <= i <= |words|
      invariant SymbolFrom(words, i) == Symbol(message)
      invariant symbol == DefaultSymbol
    {
      if |words[i]| <= 5 && IsAlpha(words[i]) {
        symbol := words[i];
        break;
      }
      i := i + 1;
    }
  }

  // --- news category ---------------------------------------------------

  /** "tech" if it occurs, else "science" if it occurs, else "general". */
  function NewsCategory(messageLower: string): (category: string)
    ensures category in {"tech", "science", "general"}
    ensures category == "tech" <==> Contains(messageLower, "tech")
    ensures category == "science" <==> !Contains(messageLower, "tech") && Contains(messageLower, "science")
  {
    if Contains(messageLower, "tech") then "tech"
    else if Contains(messageLower, "science") then "science"
    else "general"
  }

  // --- Wikipedia query -------------------------------------------------

  const WikipediaPhrases: seq<string> := ["what is", "who is", "tell me about"]

  /** The rest of `message` after the first occurrence of `phrase` in its lower-cased form, stripped. */
  function TextAfter(message: string, messageLower: string, phrase: string): string
    requires |messageLower| == |message|
  {
    var at := Find(messageLower, phrase);
    if at == -1 then message else Strip(message[at + |phrase|..])
  }

  /** The index of the first phrase, from `k` on, that occurs in `messageLower`; `|phrases|` if none does. */
  function FirstPhraseFrom(messageLower: string, phrases: seq<string>, k: nat): (r: nat)
    requires k <= |phrases|
    decreases |phrases| - k
    ensures k <= r <= |phrases|
  {
    if k == |phrases| then k
    else if Contains(messageLower, phrases[k]) then k
    else FirstPhraseFrom(messageLower, phrases, k + 1)
  }

  /** The search text of a Wikipedia query. */
  function WikipediaQuery(message: string): string {
    var lower := Lower(message);
    var k := FirstPhraseFrom(lower, WikipediaPhrases, 0);
    if k == |WikipediaPhrases| then message else TextAfter(message, lower, WikipediaPhrases[k])
  }

  lemma {:induction false} FirstPhraseFromIsFirstMatch(messageLower: string, phrases: seq<string>, i: nat)
    requires i <= |phrases|
    decreases |phrases| - i
    ensures FirstPhraseFrom(messageLower, phrases, i) == |phrases| <==>
            forall k :: i <= k < |phrases| ==> !Contains(messageLower, phrases[k])
    ensures forall k :: i <= k < |phrases| && Contains(messageLower, phrases[k]) &&
                        (forall j :: i <= j < k ==> !Contains(messageLower, phrases[j])) ==>
                        FirstPhraseFrom(messageLower, phrases, i) == k
  {
    if i < |phrases| {
      FirstPhraseFromIsFirstMatch(messageLower, phrases, i + 1);
    }
  }

  /**
   * With "what is", "who is", "tell me about" tried in that order, the query
   * is the stripped text after the first occurrence of the first phrase
   * found; the whole message when none is found.
   */
  lemma WikipediaQueryIsTextAfterFirstPhrase(message: string)
    ensures (forall k :: 0 <= k < |WikipediaPhrases| ==> !Contains(Lower(message), WikipediaPhrases[k])) ==>
            WikipediaQuery(message) == message
    ensures forall k :: 0 <= k < |WikipediaPhrases| && Contains(Lower(message), WikipediaPhrases[k]) &&
                        (forall j :: 0 <= j < k ==> !Contains(Lower(message), WikipediaPhrases[j])) ==>
                        WikipediaQuery(message) == TextAfter(message, Lower(message), WikipediaPhrases[k])
  {
    FirstPhraseFromIsFirstMatch(Lower(message), WikipediaPhrases, 0);
  }

  /** The phrase loop of a Wikipedia query. */
  method ExtractWikipediaQuery(message: string, messageLower: string) returns (query: string)
    requires messageLower == Lower(message)
    ensures query == WikipediaQuery(message)
  {
    query := message;
    var k := 0;
    while k < |WikipediaPhrases|
      invariant 0 <= k <= |WikipediaPhrases|
      invariant FirstPhraseFrom(messageLower, WikipediaPhrases, k) == FirstPhraseFrom(messageLower, WikipediaPhrases, 0)
      invariant query == message
    {
      var phrase := WikipediaPhrases[k];
      if Contains(messageLower, phrase) {
        query := TextAfter(message, messageLower, phrase);
        break;
      }
      k := k + 1;
    }
  }

  // --- dispatch --------------------------------------------------------

  /**
   * The kind a lower-cased message asks for. The kinds are tried in rank
   * order, so it is the first one whose keywords occur; none when no kind's do.
   */
  function FirstKind(messageLower: string): (r: Option<QueryKind>)
    ensures r.None? <==> forall kind :: !Mentions(messageLower, kind)
    ensures r.Some? ==> Mentions(messageLower, r.value)
    ensures r.Some? ==> forall kind :: Rank(kind) < Rank(r.value) ==> !Mentions(messageLower, kind)
  {
    if Mentions(messageLower, DateTimeKind) then Some(DateTimeKind)
    else if Mentions(messageLower, WeatherKind) then Some(WeatherKind)
    else if Mentions(messageLower, StockKind) then Some(StockKind)
    else if Mentions(messageLower, NewsKind) then Some(NewsKind)
    else if Mentions(messageLower, WikipediaKind) then Some(WikipediaKind)
    else if Mentions(messageLower, ExchangeKind) then Some(ExchangeKind)
    else None
  }

  /** The request of a given kind, with its argument extracted from the message. */
  function RequestFor(kind: QueryKind, userMessage: string): (q: Request)
    ensures KindOf(q) == kind
  {
    match kind
    case DateTimeKind => CurrentDateTime(Timezone(Lower(userMessage)))
    case WeatherKind => CurrentWeather(City(userMessage))
    case StockKind => StockPrice(Symbol(userMessage))
    case NewsKind => LatestNews(NewsCategory(Lower(userMessage)))
    case WikipediaKind => WikipediaSummary(WikipediaQuery(userMessage))
    case ExchangeKind => ExchangeRate("USD", "EUR")
  }

  /**
   * The lookup a message asks for: the first kind mentioned, in rank order,
   * with its argument; no match, no lookup.
   */
  function Classify(userMessage: string): (r: Option<Request>)
    ensures r.None? <==> forall kind :: !Mentions(Lower(userMessage), kind)
    ensures r.Some? ==> Mentions(Lower(userMessage), KindOf(r.value))
    ensures r.Some? ==> forall kind :: Rank(kind) < Rank(KindOf(r.value)) ==> !Mentions(Lower(userMessage), kind)
  {
    match FirstKind(Lower(userMessage))
    case None => None
    case Some(kind) => Some(RequestFor(kind, userMessage))
  }

  /** A time keyword decides the kind whatever else the message mentions. */
  lemma TimeKeywordWins(userMessage: string)
    requires Mentions(Lower(userMessage), DateTimeKind)
    ensures Classify(userMessage) == Some(CurrentDateTime(Timezone(Lower(userMessage))))
  {
  }

  // ---------------------------------------------------------------------
  // Provider answers and the result record
  // ---------------------------------------------------------------------

  datatype NewsItem = NewsItem(title: string, summary: string, link: string, published: string)

  /** The `data` dictionary of a result, one variant per shape the provider returns. */
  datatype Payload =
    | Failed(error: string)
    | Clock(dateTime: string, date: string, time: string, timezone: string,
            timestamp: string, dayName: string, monthName: string)
    | WeatherReport(city: string, temperature: string, condition: string,
                    humidity: string, windSpeed: string, note: string)
    | Quote(symbol: string, price: string, company: string, change: string, timestamp: string)
    | Headlines(category: string, count: nat, news: seq<NewsItem>, timestamp: string)
    | Summary(query: string, summary: string, url: string, timestamp: string)
    | Disambiguation(query: string, reason: Option<string>, suggestions: seq<string>)
    | Rate(fromCurrency: string, toCurrency: string, rate: string, timestamp: string)

  /** `'error' in data`. */
  predicate HasError(data: Payload) {
    data.Failed? || (data.Disambiguation? && data.reason.Some?)
  }

  function ErrorOf(data: Payload): string
    requires HasError(data)
  {
    if data.Failed? then data.error else data.reason.value
  }

  /** The payload shapes a lookup of each kind can answer with. */
  predicate Fits(kind: QueryKind, data: Payload) {
    HasError(data) ||
    match kind
    case DateTimeKind => data.Clock?
    case WeatherKind => data.WeatherReport?
    case StockKind => data.Quote?
    case NewsKind => data.Headlines?
    case WikipediaKind => data.Summary? || data.Disambiguation?
    case ExchangeKind => data.Rate?
  }

  datatype RealtimeResult = RealtimeResult(kind: QueryKind, data: Payload)

  /** What `process_realtime_query` returns, given the provider `fetch`. */
  function Answer(userMessage: string, fetch: Request -> Payload): Option<RealtimeResult> {
    match Classify(userMessage)
    case None => None
    case Some(request) => Some(RealtimeResult(KindOf(request), fetch(request)))
  }

  /** Classifies the message, extracts the argument, and asks the provider. */
  method ProcessRealtimeQuery(userMessage: string, fetch: Request -> Payload) returns (r: Option<RealtimeResult>)
    ensures r == Answer(userMessage, fetch)
  {
    var lower := Lower(userMessage);
    if Mentions(lower, DateTimeKind) {
      var timezone := ExtractTimezone(lower);
      return Some(RealtimeResult(DateTimeKind, fetch(CurrentDateTime(timezone))));
    }
    if Mentions(lower, WeatherKind) {
      var city := ExtractCity(userMessage);
      return Some(RealtimeResult(WeatherKind, fetch(CurrentWeather(city))));
    }
    if Mentions(lower, StockKind) {
      var symbol := ExtractSymbol(userMessage);
      return Some(RealtimeResult(StockKind, fetch(StockPrice(symbol))));
    }
    if Mentions(lower, NewsKind) {
      return Some(RealtimeResult(NewsKind, fetch(LatestNews(NewsCategory(lower)))));
    }
    if Mentions(lower, WikipediaKind) {
      var query := ExtractWikipediaQuery(userMessage, lower);
      return Some(RealtimeResult(WikipediaKind, fetch(WikipediaSummary(query))));
    }
    if Mentions(lower, ExchangeKind) {
      return Some(RealtimeResult(ExchangeKind, fetch(ExchangeRate("USD", "EUR"))));
    }
    return None;
  }

  // ---------------------------------------------------------------------
  // News feed entries
  // ---------------------------------------------------------------------

  const SummaryLimit := 200

  /** A summary over 200 characters is cut to its first 200 and marked with "...". */
  function TruncateSummary(summary: string): (r: string)
    ensures |summary| <= SummaryLimit ==> r == summary
    ensures |summary| > SummaryLimit ==> |r| == SummaryLimit + 3 && r[..SummaryLimit] == summary[..SummaryLimit] && r[SummaryLimit..] == "..."
    ensures |r| <= SummaryLimit + 3
  {
    if |summary| > SummaryLimit then summary[..SummaryLimit] + "..." else summary
  }

  datatype FeedEntry = FeedEntry(title: string, summary: string, link: string, published: Option<string>)

  function ToNewsItem(entry: FeedEntry): NewsItem {
    NewsItem(entry.title, TruncateSummary(entry.summary), entry.link, entry.published.GetOr("N/A"))
  }

  /** The item loop of `get_news`: the first `limit` entries, each with its summary truncated. */
  method CollectNews(entries: seq<FeedEntry>, limit: nat) returns (items: seq<NewsItem>)
    ensures |items| == Min(limit, |entries|)
    ensures forall k :: 0 <= k < |items| ==> items[k] == ToNewsItem(entries[k])
    ensures forall k :: 0 <= k < |items| ==> |items[k].summary| <= SummaryLimit + 3
  {
    var shown := entries[..Min(limit, |entries|)];
    items := [];
    for i := 0 to |shown|
      invariant |items| == i
      invariant forall k :: 0 <= k < i ==> items[k] == ToNewsItem(shown[k])
    {
      items := items + [ToNewsItem(shown[i])];
    }
  }

  // ---------------------------------------------------------------------
  // Rendering
  // ---------------------------------------------------------------------

  function ErrorLine(kind: QueryKind, error: string): string {
    "\U{274C} Error getting " + TypeName(kind) + ": " + error
  }

  function ClockText(data: Payload): string
    requires data.Clock?
  {
    "\U{1F550} **Current Time**: " + data.time + "\n"
    + "\U{1F4C5} **Date**: " + data.dayName + ", " + data.date + " (" + data.monthName + ")"
    + (if data.timezone != "" then "\n\U{1F30D} **Timezone**: " + data.timezone else "")
  }

  function WeatherText(data: Payload): string
    requires data.WeatherReport?
  {
    "\U{1F324}\U{FE0F} **Weather in " + data.city + "**: " + data.temperature + ", " + data.condition
    + "\n\U{1F4A7} Humidity: " + data.humidity + " | \U{1F4A8} Wind: " + data.windSpeed
  }

  function StockText(data: Payload): string
    requires data.Quote?
  {
    "\U{1F4C8} **" + data.company + " (" + data.symbol + ")**: " + data.price + " (" + data.change + ")"
  }

  /** At most this many news items and Wikipedia suggestions are shown. */
  const ShownLimit := 3

  function NewsHeader(category: string): string {
    "\U{1F4F0} **Latest " + Title(category) + " News**:\n"
  }

  function NewsLine(number: nat, item: NewsItem): string {
    DecimalString(number) + ". **" + item.title + "**\n   " + item.summary + "\n\n"
  }

  /** The lines for `items`, numbered from `first`. */
  function NewsLines(items: seq<NewsItem>, first: nat): string
    decreases |items|
  {
    if items == [] then "" else NewsLine(first, items[0]) + NewsLines(items[1..], first + 1)
  }

  function NewsText(category: string, news: seq<NewsItem>): string {
    NewsHeader(category) + NewsLines(news[..Min(ShownLimit, |news|)], 1)
  }

  lemma {:induction false} NewsLinesAppend(items: seq<NewsItem>, item: NewsItem, first: nat)
    decreases |items|
    ensures NewsLines(items + [item], first) == NewsLines(items, first) + NewsLine(first + |items|, item)
  {
    if items == [] {
      assert items + [item] == [item];
    } else {
      assert (items + [item])[1..] == items[1..] + [item];
      NewsLinesAppend(items[1..], item, first + 1);
    }
  }

  /** Only the first three items matter to the rendering. */
  lemma NewsIgnoresItemsBeyondThird(category: string, a: seq<NewsItem>, b: seq<NewsItem>)
    requires a[..Min(ShownLimit, |a|)] == b[..Min(ShownLimit, |b|)]
    ensures NewsText(category, a) == NewsText(category, b)
  {
  }

  /** The news loop: a header, then the first three items numbered 1, 2, 3. */
  method RenderNews(category: string, news: seq<NewsItem>) returns (text: string)
    ensures text == NewsText(category, news)
  {
    var header := NewsHeader(category);
    var lines := "";
    for i := 0 to Min(ShownLimit, |news|)
      invariant lines == NewsLines(news[..i], 1)
    {
      NewsLinesAppend(news[..i], news[i], 1);
      assert news[..i + 1] == news[..i] + [news[i]];
      lines := lines + NewsLine(i + 1, news[i]);
    }
    text := header + lines;
  }

  function WikipediaText(data: Payload): string
    requires data.Summary? || data.Disambiguation?
  {
    if data.Disambiguation? then
      "\U{2753} **Multiple results for '" + data.query + "'**. Did you mean: "
      + Join(", ", data.suggestions[..Min(ShownLimit, |data.suggestions|)]) + "?"
    else
      "\U{1F4DA} **Wikipedia**: " + data.summary + "\n\U{1F517} [Read more](" + data.url + ")"
  }

  function ExchangeText(data: Payload): string
    requires data.Rate?
  {
    "\U{1F4B1} **Exchange Rate**: 1 " + data.fromCurrency + " = " + data.rate + " " + data.toCurrency
  }

  /**
   * `format_realtime_data`: empty exactly when there is no result; an error
   * line whenever the payload carries an error, whatever its kind; otherwise
   * the kind's own rendering.
   */
  function FormatRealtimeData(result: Option<RealtimeResult>): (text: string)
    requires result.Some? ==> Fits(result.value.kind, result.value.data)
    ensures text == "" <==> result.None?
    ensures result.Some? && HasError(result.value.data) ==>
            text == ErrorLine(result.value.kind, ErrorOf(result.value.data))
  {
    if result.None? then ""
    else
      var kind, data := result.value.kind, result.value.data;
      if HasError(data) then ErrorLine(kind, ErrorOf(data))
      else
        match kind
        case DateTimeKind => ClockText(data)
        case WeatherKind => WeatherText(data)
        case StockKind => StockText(data)
        case NewsKind => NewsText(data.category, data.news)
        case WikipediaKind => WikipediaText(data)
        case ExchangeKind => ExchangeText(data)
  }

  /** Only the first three suggestions of an error-free disambiguation answer are shown. */
  lemma SuggestionsBeyondThirdIgnored(query: string, a: seq<string>, b: seq<string>)
    requires a[..Min(ShownLimit, |a|)] == b[..Min(ShownLimit, |b|)]
    ensures FormatRealtimeData(Some(RealtimeResult(WikipediaKind, Disambiguation(query, None, a))))
            == FormatRealtimeData(Some(RealtimeResult(WikipediaKind, Disambiguation(query, None, b))))
  {
  }

  /**
   * The provider's disambiguation answer carries an error next to its
   * suggestions, so it renders as the error line and the suggestions are
   * never shown.
   */
  lemma DisambiguationRendersAsError(query: string, error: string, suggestions: seq<string>)
    ensures FormatRealtimeData(Some(RealtimeResult(WikipediaKind, Disambiguation(query, Some(error), suggestions))))
            == ErrorLine(WikipediaKind, error)
  {
  }
}
