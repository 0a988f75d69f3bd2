/** The two kinds of notice the user can search, and everything about the
    upstream service that depends on the kind: endpoint, field names and the
    caption of the date shown on each card. */
module Modes {

  /** Bid notices (입찰공고) or pre-specification notices (사전규격). */
  datatype Mode = Bid | PreSpec

  /** The radio button captions. */
  const BidCaption: string := "입찰공고"
  const PreSpecCaption: string := "사전규격"

  /** Only the bid caption selects bid notices; every other caption selects
      pre-specification notices. */
  function ModeOf(caption: string): (m: Mode)
    ensures m == Bid <==> caption == BidCaption
  {
    if caption == BidCaption then Bid else PreSpec
  }

  const BidUrl: string := "https://apis.data.go.kr/1230000/BidPublicInfoService02/getBidPblancListInfoServcPPSSrch"
  const PreSpecUrl: string := "https://apis.data.go.kr/1230000/BfSpecInfoService01/getBfSpecListInfoServcPPSSrch"

  function UrlOf(m: Mode): string {
    match m
    case Bid => BidUrl
    case PreSpec => PreSpecUrl
  }

  /** The notice-name field: the query parameter that carries the keyword,
      and the item field that carries the title. */
  function NameKey(m: Mode): string {
    match m
    case Bid => "bidNtceNm"
    case PreSpec => "bfSpecNm"
  }

  /** The item field carrying the closing date (bids) or registration date (pre-specs). */
  function DateKey(m: Mode): string {
    match m
    case Bid => "bidClseDt"
    case PreSpec => "bfSpecRegDt"
  }

  /** The item field carrying the detail page address. */
  function LinkKey(m: Mode): string {
    match m
    case Bid => "bidNtceDtlUrl"
    case PreSpec => "bfSpecDtlUrl"
  }

  /** The item field carrying the demanding institution; the same in both modes. */
  const OrgKey: string := "dminsttNm"

  /** The caption printed before the date on a card. */
  function DateCaption(m: Mode): string {
    match m
    case Bid => "마감일"
    case PreSpec => "등록일"
  }

  /** The item fields a card of mode `m` is built from. */
  function ItemKeys(m: Mode): set<string> {
    {NameKey(m), OrgKey, DateKey(m), LinkKey(m)}
  }
}
