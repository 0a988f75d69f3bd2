/** The HTTP request one search sends: endpoint and query parameters. */
module Request {
  import opened Wrappers
  import opened Dates
  import opened Modes

  datatype Request = Request(url: string, params: map<string, string>)

  /** The fixed parameters sent with every search. */
  const FixedParams: map<string, string> :=
    map["numOfRows" := "30", "pageNo" := "1", "inqryDiv" := "1", "type" := "json"]

  /** The request for `keyword` over the dates `start`..`end` in mode `mode`.
      `unquote` stands for the percent-decoding applied to the stored service key. */
  function Build(mode: Mode, keyword: string, serviceKey: string, start: Date, end: Date,
                 unquote: string -> string): (r: Request)
    requires Valid(start) && Valid(end)
    ensures mode == Bid ==> r.url == BidUrl && "bidNtceNm" in r.params && r.params["bidNtceNm"] == keyword
    ensures mode == PreSpec ==> r.url == PreSpecUrl && "bfSpecNm" in r.params && r.params["bfSpecNm"] == keyword
    ensures r.params.Keys ==
      {"serviceKey", "numOfRows", "pageNo", "inqryDiv", "inqryBgnDt", "inqryEndDt", NameKey(mode), "type"}
    ensures r.params["serviceKey"] == unquote(serviceKey)
    ensures r.params["numOfRows"] == "30" && r.params["pageNo"] == "1"
    ensures r.params["inqryDiv"] == "1" && r.params["type"] == "json"
    ensures var b := r.params["inqryBgnDt"];
      |b| == 12 && AllDigits(b[..8]) && FromCompact(b[..8]) == start && b[8..] == "0000"
    ensures var e := r.params["inqryEndDt"];
      |e| == 12 && AllDigits(e[..8]) && FromCompact(e[..8]) == end && e[8..] == "2359"
  {
    var bgn, fin := Stamp(start, "0000"), Stamp(end, "2359");
    Request(UrlOf(mode), FixedParams + map[
      "serviceKey" := unquote(serviceKey),
      "inqryBgnDt" := bgn,
      "inqryEndDt" := fin,
      NameKey(mode) := keyword])
  }

  /** What a request says about the search it was built for. */
  datatype Query = Query(mode: Mode, keyword: string, decodedKey: string, start: Date, end: Date)

  function ModeOfUrl(url: string): Option<Mode> {
    if url == BidUrl then Some(Bid)
    else if url == PreSpecUrl then Some(PreSpec)
    else None
  }

  /** The date a 12-digit stamp starts with, if it is one. */
  function StampDate(stamp: string): Option<Date> {
    if |stamp| == 12 && AllDigits(stamp) then Some(FromCompact(stamp[..8])) else None
  }

  /** Reads the search back out of a request: the mode from the endpoint, the
      keyword from that mode's name parameter, the dates from the stamps. */
  function Recover(r: Request): Option<Query> {
    match ModeOfUrl(r.url)
    case None => None
    case Some(mode) =>
      if NameKey(mode) in r.params && "serviceKey" in r.params
         && "inqryBgnDt" in r.params && "inqryEndDt" in r.params
      then
        match (StampDate(r.params["inqryBgnDt"]), StampDate(r.params["inqryEndDt"]))
        case (Some(s), Some(e)) => Some(Query(mode, r.params[NameKey(mode)], r.params["serviceKey"], s, e))
        case _ => None
      else None
  }

  /** A built request loses nothing: mode, keyword, decoded key and both dates
      can be read back from it, so different searches send different requests. */
  lemma RecoverBuild(mode: Mode, keyword: string, serviceKey: string, start: Date, end: Date,
                     unquote: string -> string)
    requires Valid(start) && Valid(end)
    ensures Recover(Build(mode, keyword, serviceKey, start, end, unquote))
            == Some(Query(mode, keyword, unquote(serviceKey), start, end))
  {
  }
}
