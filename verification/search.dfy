/** One press of the search button: the guards, the single request, and the
    outcome the page reports. */
module Search {
  import opened Wrappers
  import opened Json
  import opened Dates
  import opened Modes
  import opened Request
  import opened Normalize

  /** What the server answered: the HTTP status and the parsed body. */
  datatype Reply = Reply(status: int, body: Value)

  /** What the page ends up reporting. */
  datatype Outcome =
    | Idle                              // the button was not pressed
    | NoKeyword                         // "enter a keyword" warning
    | NoCredential                      // the service key is not configured
    | BadDateRange                      // not exactly two dates selected
    | HttpError(code: int, tip: bool)   // non-200 status; `tip` adds the pre-spec registration hint
    | NoResults                         // "no matching results" notice
    | Found(cards: seq<Card>)           // one card per item
    | Raised(shown: seq<Card>)          // an exception after the cards in `shown` were drawn

  /** The request sent (if any) and the outcome. */
  datatype Trace = Trace(sent: Option<Request>, outcome: Outcome)

  /** The part of `search_nara` after the request: status check, item
      extraction, and one card per item. */
  function Answer(caption: string, reply: Reply): (r: Outcome)
    ensures r.HttpError? || r.NoResults? || r.Found? || r.Raised?
    ensures r.HttpError? <==> reply.status != 200
    ensures reply.status == 200 && ItemsOf(reply.body).Raises? ==> r == Raised([])
    ensures r.HttpError? ==> r.code == reply.status && (r.tip <==> caption == PreSpecCaption)
    ensures r.NoResults? <==> reply.status == 200 && ItemsOf(reply.body).Returns? && !Truthy(ItemsOf(reply.body).value)
    ensures r.Found? ==>
      && ItemsOf(reply.body).Returns? && Truthy(ItemsOf(reply.body).value)
      && var items := ItemList(ItemsOf(reply.body).value);
         && |r.cards| == |items|
         && forall i :: 0 <= i < |items| ==> CardOf(ModeOf(caption), items[i]) == Returns(r.cards[i])
    ensures reply.status == 200 && ItemsOf(reply.body).Returns? && Truthy(ItemsOf(reply.body).value) ==>
      var items := ItemList(ItemsOf(reply.body).value);
      r.Found? <==> forall i :: 0 <= i < |items| ==> CardOf(ModeOf(caption), items[i]).Returns?
    ensures r.Raised? && ItemsOf(reply.body).Returns? ==>
      var items := ItemList(ItemsOf(reply.body).value);
      && |r.shown| < |items|
      && (forall i :: 0 <= i < |r.shown| ==> CardOf(ModeOf(caption), items[i]) == Returns(r.shown[i]))
      && CardOf(ModeOf(caption), items[|r.shown|]).Raises?
  {
    if reply.status != 200 then HttpError(reply.status, caption == PreSpecCaption)
    else
      match ItemsOf(reply.body)
      case Raises => Raised([])
      case Returns(items) =>
        if !Truthy(items) then NoResults
        else
          var rendered := Render(ModeOf(caption), ItemList(items));
          if rendered.complete then Found(rendered.cards) else Raised(rendered.cards)
  }

  /** `search_nara()`: the credential is checked first, then the date
      selection; only then is the one request sent. */
  function SearchNara(caption: string, keyword: string, serviceKey: Option<string>, dates: seq<Date>,
                      unquote: string -> string, server: Request -> Reply): (r: Trace)
    requires forall i :: 0 <= i < |dates| ==> Valid(dates[i])
    ensures serviceKey.None? ==> r == Trace(None, NoCredential)
    ensures serviceKey.Some? && |dates| != 2 ==> r == Trace(None, BadDateRange)
    ensures r.sent.Some? <==> serviceKey.Some? && |dates| == 2
    ensures r.sent.Some? ==>
      && r.sent.value == Build(ModeOf(caption), keyword, serviceKey.value, dates[0], dates[1], unquote)
      && r.outcome == Answer(caption, server(r.sent.value))
  {
    if serviceKey.None? then Trace(None, NoCredential)
    else if |dates| != 2 then Trace(None, BadDateRange)
    else
      var request := Build(ModeOf(caption), keyword, serviceKey.value, dates[0], dates[1], unquote);
      Trace(Some(request), Answer(caption, server(request)))
  }

  /** The page's run logic: nothing happens until the button is pressed, and
      an empty keyword stops the search before `search_nara` is called. */
  function Run(pressed: bool, caption: string, keyword: string, serviceKey: Option<string>, dates: seq<Date>,
               unquote: string -> string, server: Request -> Reply): (r: Trace)
    requires forall i :: 0 <= i < |dates| ==> Valid(dates[i])
    ensures !pressed ==> r == Trace(None, Idle)
    ensures pressed && keyword == "" ==> r == Trace(None, NoKeyword)
    ensures pressed && keyword != "" && serviceKey.None? ==> r == Trace(None, NoCredential)
    ensures pressed && keyword != "" && serviceKey.Some? && |dates| != 2 ==> r == Trace(None, BadDateRange)
    ensures r.sent.Some? <==> pressed && keyword != "" && serviceKey.Some? && |dates| == 2
    ensures pressed && keyword != "" ==> r == SearchNara(caption, keyword, serviceKey, dates, unquote, server)
  {
    if !pressed then Trace(None, Idle)
    else if keyword == "" then Trace(None, NoKeyword)
    else SearchNara(caption, keyword, serviceKey, dates, unquote, server)
  }

  /** A reply envelope whose `response.body.items` is `items`. */
  function Envelope(items: Value): Value {
    Obj(map["response" := Obj(map["body" := Obj(map["items" := items])])])
  }

  /** The upstream sends a bare object instead of a one-element list when one
      notice matches; the page treats both shapes alike. */
  lemma BareItemIsSingletonList(caption: string, item: Value)
    requires Truthy(item) && !item.List?
    ensures Answer(caption, Reply(200, Envelope(item))) == Answer(caption, Reply(200, Envelope(List([item]))))
  {
  }

  /** With no items anywhere in a dict reply, the outcome is "no results" and
      no card is drawn, whichever levels of the envelope are missing. */
  lemma MissingItemsMeanNoResults(caption: string, data: map<string, Value>)
    requires "response" in data ==> data["response"] == Obj(map[])
    ensures Answer(caption, Reply(200, Obj(data))) == NoResults
  {
  }

  /** The item of the worked example below. */
  function ExampleItem(): Value {
    Obj(map["bidNtceNm" := Str("Design Services RFP"),
            "dminsttNm" := Str("City Office"),
            "bidClseDt" := Str("202404051800")])
  }

  /** The card of the worked example below. */
  function ExampleCard(): Card {
    Card(Str("Design Services RFP"), Str("City Office"), Str("2024-04-05 18:00"), Str("#"), "마감일")
  }

  /** The example's closing time, rendered. */
  lemma ExampleStamp()
    ensures FormatStamp("202404051800") == "2024-04-05 18:00"
  {
  }

  /** The example item's card. */
  lemma ExampleCardOf()
    ensures CardOf(Bid, ExampleItem()) == Returns(ExampleCard())
  {
    ExampleStamp();
    var fields := ExampleItem().fields;
    assert Field(fields, DateKey(Bid), NoDate) == Str("202404051800");
    assert Field(fields, LinkKey(Bid), NoLink) == Str("#");
  }

  /** A worked bid reply with one bare item: the closing time is reformatted,
      the missing link becomes the placeholder, and no detail button is shown. */
  lemma OneBidNotice()
    ensures Answer(BidCaption, Reply(200, Envelope(ExampleItem()))) == Found([ExampleCard()])
    ensures !ShowsDetail(ExampleCard())
  {
    var item := ExampleItem();
    ExampleCardOf();
    assert ItemsOf(Envelope(item)) == Returns(item);
    assert Truthy(item) && ItemList(item) == [item];
    assert Render(Bid, [item]) == Rendered([ExampleCard()], true);
  }
}
