/** Turning a successful reply into result cards: finding the item list,
    mapping each item's mode-specific fields onto one card shape, and
    reformatting compact timestamps. */
module Normalize {
  import opened Wrappers
  import opened Json
  import opened Modes

  /** One result card: the values shown on screen.  Fields are copied from the
      item as they are, so they may hold any JSON value. */
  datatype Card = Card(title: Value, org: Value, date: Value, link: Value, dateCaption: string)

  /** Placeholders for fields an item lacks. */
  const NoTitle: string := "제목 없음"
  const NoOrg: string := "기관명 없음"
  const NoDate: string := "-"
  const NoLink: string := "#"

  /** Where the `i`-th character of a 12-character stamp lands in its 16-character rendering. */
  function Slot(i: int): int {
    if i < 4 then i else i + (i - 2) / 2
  }

  /** `YYYYMMDDHHMM` rendered as `YYYY-MM-DD HH:MM`; a string of any other
      length is returned as it is. */
  function FormatStamp(s: string): (r: string)
    ensures |s| != 12 ==> r == s
    ensures |s| == 12 ==> |r| == 16
    ensures |s| == 12 ==> forall i :: 0 <= i < 12 ==> r[Slot(i)] == s[i]
    ensures |s| == 12 ==> r[4] == '-' && r[7] == '-' && r[10] == ' ' && r[13] == ':'
  {
    if |s| == 12 then s[..4] + "-" + s[4..6] + "-" + s[6..8] + " " + s[8..10] + ":" + s[10..12]
    else s
  }

  /** A rendering keeps every character of the stamp in its original order. */
  lemma SlotsIncrease(i: int, j: int)
    requires 0 <= i < j < 12
    ensures 0 <= Slot(i) < Slot(j) < 16
  {
  }

  /** Dropping the four separators of a rendered stamp. */
  function Unformat(r: string): string
    requires |r| == 16
  {
    r[..4] + r[5..7] + r[8..10] + r[11..13] + r[14..16]
  }

  /** Rendering is undone by dropping the separators. */
  lemma UnformatFormat(s: string)
    requires |s| == 12
    ensures Unformat(FormatStamp(s)) == s
  {
  }

  /** The date reformatting step: a truthy value of length 12 is cut into
      year, month, day, hour and minute and joined with separators.  `len` of a number or boolean raises TypeError; slicing a
      12-key dict raises too; a 12-element list is not modelled (kept as is). */
  function FormatDate(v: Value): (r: Raising<Value>)
    ensures v.Str? && |v.s| == 12 ==> r == Returns(Str(FormatStamp(v.s)))
    ensures v.Str? && |v.s| != 12 ==> r == Returns(v)
    ensures r.Raises? <==> Truthy(v) && (v.Num? || v.Bool? || (v.Obj? && |v.fields| == 12))
    ensures r.Returns? && r.value != v ==> v.Str? && |v.s| == 12
  {
    match v
    case Null => Returns(v)
    case Bool(b) => if b then Raises else Returns(v)
    case Num(n) => if n != 0 then Raises else Returns(v)
    case Str(s) => Returns(Str(FormatStamp(s)))
    case List(_) => Returns(v)
    case Obj(m) => if |m| == 12 then Raises else Returns(v)
  }

  /** The value a dict item holds under `key`, or the string `fallback` when
      the key is missing. */
  function Field(item: map<string, Value>, key: string, fallback: string): (v: Value)
    ensures key in item ==> v == item[key]
    ensures key !in item ==> v == Str(fallback)
  {
    Get(Obj(item), key, Str(fallback)).value
  }

  /** The card for one item in mode `mode`.  Items that are not dicts raise
      on the first `get`. */
  function CardOf(mode: Mode, item: Value): (r: Raising<Card>)
    ensures r.Returns? <==> item.Obj? && FormatDate(Field(item.fields, DateKey(mode), NoDate)).Returns?
    ensures r.Returns? ==> r.value.dateCaption == DateCaption(mode)
    ensures r.Returns? ==> r.value.title == Field(item.fields, NameKey(mode), NoTitle)
    ensures r.Returns? ==> r.value.org == Field(item.fields, OrgKey, NoOrg)
    ensures r.Returns? ==> r.value.link == Field(item.fields, LinkKey(mode), NoLink)
    ensures r.Returns? ==> Returns(r.value.date) == FormatDate(Field(item.fields, DateKey(mode), NoDate))
  {
    match item
    case Obj(m) =>
      var title := Field(m, NameKey(mode), NoTitle);
      var org := Field(m, OrgKey, NoOrg);
      var link := Field(m, LinkKey(mode), NoLink);
      (match FormatDate(Field(m, DateKey(mode), NoDate))
       case Returns(date) => Returns(Card(title, org, date, link, DateCaption(mode)))
       case Raises => Raises)
    case _ => Raises
  }

  /** Whether the card gets a detail button (otherwise "no link" is shown). */
  function ShowsDetail(c: Card): (shown: bool)
    ensures shown <==> !(c.link.Str? && c.link.s == NoLink)
  {
    c.link != Str(NoLink)
  }

  /** An item gets a detail button exactly when it has the mode's link field
      and that field is not the `#` placeholder. */
  lemma DetailExactlyWhenLinked(mode: Mode, item: map<string, Value>)
    requires CardOf(mode, Obj(item)).Returns?
    ensures ShowsDetail(CardOf(mode, Obj(item)).value)
            <==> LinkKey(mode) in item && item[LinkKey(mode)] != Str(NoLink)
  {
  }

  /** Fields outside the four a mode reads have no influence on its cards. */
  lemma CardIgnoresOtherFields(mode: Mode, item: map<string, Value>, key: string, v: Value)
    requires key !in ItemKeys(mode)
    ensures CardOf(mode, Obj(item[key := v])) == CardOf(mode, Obj(item))
  {
  }

  /** Both modes read the organisation from the same field and fall back to
      the same placeholders; only the date caption is always mode-specific. */
  lemma ModesShareDefaults(m: map<string, Value>)
    requires ItemKeys(Bid) * m.Keys == {} && ItemKeys(PreSpec) * m.Keys == {}
    ensures CardOf(Bid, Obj(m)) == Returns(Card(Str(NoTitle), Str(NoOrg), Str(NoDate), Str(NoLink), "마감일"))
    ensures CardOf(PreSpec, Obj(m)) == Returns(Card(Str(NoTitle), Str(NoOrg), Str(NoDate), Str(NoLink), "등록일"))
  {
    forall k | k in ItemKeys(Bid) + ItemKeys(PreSpec)
      ensures k !in m
    {
      assert k !in ItemKeys(Bid) * m.Keys && k !in ItemKeys(PreSpec) * m.Keys;
    }
  }

  /** The item collection, looked up through the `response` and `body` levels
      of the reply: a missing level counts as an empty dict and a missing
      item collection as `None`; a level that is
      present but not a dict raises. */
  function ItemsOf(data: Value): (r: Raising<Value>)
    ensures r.Returns? <==>
      && data.Obj?
      && ("response" in data.fields ==>
            && data.fields["response"].Obj?
            && ("body" in data.fields["response"].fields ==> data.fields["response"].fields["body"].Obj?))
    ensures r.Returns? ==>
      r.value == (if "response" in data.fields && "body" in data.fields["response"].fields
                     && "items" in data.fields["response"].fields["body"].fields
                  then data.fields["response"].fields["body"].fields["items"]
                  else Null)
  {
    match Get(data, "response", Obj(map[]))
    case Raises => Raises
    case Returns(response) =>
      match Get(response, "body", Obj(map[]))
      case Raises => Raises
      case Returns(body) => Get(body, "items", Null)
  }

  /** The items to draw, given a truthy item collection: a list as it is,
      any other value as a one-element list. */
  function ItemList(items: Value): (r: seq<Value>)
    requires Truthy(items)
    ensures |r| >= 1
    ensures items.List? ==> r == items.elems
    ensures !items.List? ==> r == [items]
  {
    if items.List? then items.elems else [items]
  }

  /** The cards shown for a list of items.  The loop stops at the first item
      whose card raises; `complete` tells whether it got through the list. */
  datatype Rendered = Rendered(cards: seq<Card>, complete: bool)

  /** The loop over the items, building one card per item, in order. */
  function Render(mode: Mode, items: seq<Value>): (r: Rendered)
    ensures |r.cards| <= |items|
    ensures forall i :: 0 <= i < |r.cards| ==> CardOf(mode, items[i]) == Returns(r.cards[i])
    ensures r.complete <==> |r.cards| == |items|
    ensures !r.complete ==> CardOf(mode, items[|r.cards|]).Raises?
    decreases |items|
  {
    if items == [] then Rendered([], true)
    else
      match CardOf(mode, items[0])
      case Raises => Rendered([], false)
      case Returns(c) =>
        var rest := Render(mode, items[1..]);
        Rendered([c] + rest.cards, rest.complete)
  }

  /** The list is rendered completely exactly when every item yields a card. */
  lemma RenderCompleteIff(mode: Mode, items: seq<Value>)
    ensures Render(mode, items).complete <==> forall i :: 0 <= i < |items| ==> CardOf(mode, items[i]).Returns?
  {
  }
}
