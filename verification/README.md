# 나라장터 search page — verified model of its decision logic

`app.py` is a Streamlit page that searches the Korean public procurement
service (나라장터) for service contracts.  The user picks a kind of notice
(입찰공고, bid notices, or 사전규격, pre-specification notices), a keyword and
a start/end date; the page sends one GET request to the data.go.kr endpoint
for that kind and draws one card per returned item.

This project models, as pure Dafny functions, the decisions the page takes
around that request:

- `Search.Run` / `Search.SearchNara`: the guards.  No keyword stops the search
  first, a missing service key second, a date selection that is not exactly
  two dates third; only then is the single request sent.
- `Request.Build`: the endpoint and the query parameters.  These are the fixed
  paging and format flags, the stamps `YYYYMMDD0000` and `YYYYMMDD2359`, the
  percent-decoded key and the keyword under the mode's name parameter.
- `Search.Answer`: the reply handling.  A non-200 status is reported as an
  error.  Otherwise `response.body.items` is looked up with defaults for
  missing levels.  Falsy items mean "no results".  A bare object is wrapped
  into a one-element list.  Each item becomes a card
  (`Normalize.CardOf`): its fields are read by mode-specific names with
  literal defaults, and a 12-character date is rendered as `YYYY-MM-DD HH:MM`.
- `Normalize.ShowsDetail`: the detail button, shown unless the link is `#`.

The modules are `Wrappers` (option and "may raise" results), `Json` (the
parsed reply and Python truthiness / `dict.get`), `Dates` (dates and compact
stamps), `Modes` (everything that depends on the kind of notice), `Request`,
`Normalize` and `Search`.

The model contains only what app.py does.  app.py has exactly one URL per
mode, with no list of fallback endpoints.  It never inspects `resultCode`.  It has no 8-character date
format and no chain of alternative title fields.  It does not check that
the start date precedes the end date.  None of these appear in the model.

Python exceptions raised by an unexpected reply shape are modelled.  Examples
are `.get` on something that is not a dict, `len` of a number, and slicing a
dict.  They all land in the page's catch-all handler, and the outcome
`Raised(shown)` records the cards drawn before the exception.

## Model

| member | source | states |
|---|---|---|
| `Json.Truthy` | app.py:95 | Python truthiness: a value is falsy exactly when it is `None`, `False`, `0`, the empty string, the empty list or the empty dict (used for `items` and for the date field at line 117) |
| `Json.Get` | app.py:93 | `dict.get` returns the stored value or the default, and raises exactly when the receiver is not a dict |
| `Dates.Pad` | app.py:61-62 | a zero-padded number has exactly the requested width and consists of decimal digits only |
| `Dates.ValueOfPad` | app.py:61-62 | reading a zero-padded number back yields the number (proved by induction on the width) |
| `Dates.Compact` | app.py:61-62 | `strftime("%Y%m%d")` gives eight digits that read back as the same year, month and day |
| `Dates.Stamp` | app.py:61-62 | a date followed by a four-character time of day is 12 characters: eight digits that read back as the date, then the time |
| `Modes.ModeOf` | app.py:65-72 | bid mode is chosen exactly when the caption is 입찰공고; any other caption means pre-specification mode |
| `Request.Build` | app.py:58-84 | bid mode targets BidPublicInfoService02 with the keyword under `bidNtceNm`, other modes BfSpecInfoService01 under `bfSpecNm`; the parameter set is exactly the eight keys; the key is passed through `unquote` once; the fixed values are `30`, `1`, `1`, `json`; the begin stamp is the start date's `YYYYMMDD` followed by `0000` and the end stamp the end date's followed by `2359`, both 12 digits |
| `Request.RecoverBuild` | app.py:58-84 | mode, keyword, decoded key and both dates can all be read back from the built request, so distinct searches send distinct requests |
| `Normalize.FormatStamp` | app.py:118 | a 12-character stamp becomes 16 characters with `-`, `-`, ` `, `:` at positions 4, 7, 10, 13 and every stamp character at its slot; any other length is returned unchanged |
| `Normalize.SlotsIncrease` | app.py:118 | the slots are strictly increasing, so the rendering keeps the stamp's characters in order |
| `Normalize.UnformatFormat` | app.py:117-118 | removing the four separators from a rendered stamp gives back the stamp |
| `Normalize.FormatDate` | app.py:117-118 | only a 12-character string is reformatted; other strings, `None` and the `-` default are unchanged; `len` of a non-zero number or `True`, or slicing a 12-key dict, raises |
| `Normalize.Field` | app.py:104-113 | a present key is copied through unchanged, whatever its value; a missing key gives the literal default |
| `Normalize.CardOf` | app.py:103-118 | title, organisation, date and link come from the mode's field names (`dminsttNm` for the organisation in both modes) with defaults `제목 없음`, `기관명 없음`, `-`, `#`; the caption is 마감일 or 등록일; a card exists exactly when the item is a dict and its date does not raise |
| `Normalize.ShowsDetail` | app.py:127 | the detail button is shown exactly unless the link is the string `#`; a link of any other JSON type is never equal to `#` |
| `Normalize.DetailExactlyWhenLinked` | app.py:127-130 | the detail button appears exactly when the item has the mode's link field and it is not `#` |
| `Normalize.CardIgnoresOtherFields` | app.py:103-114 | changing any field other than the four the mode reads leaves the card unchanged |
| `Normalize.ModesShareDefaults` | app.py:104-114 | an item with none of the read fields yields the four placeholders in both modes, differing only in the date caption |
| `Normalize.ItemsOf` | app.py:93 | items is found at `response.body.items`; a missing level yields `None`; the lookup raises exactly when the reply or a present level is not a dict |
| `Normalize.ItemList` | app.py:95-96 | a list of items is kept as is; any other truthy value becomes a one-element list |
| `Normalize.Render` | app.py:101-118 | cards are produced in input order with card `i` built from item `i`; the list is complete exactly when its length equals the number of items; otherwise the next item raised |
| `Normalize.RenderCompleteIff` | app.py:101 | rendering completes exactly when every item yields a card |
| `Search.Answer` | app.py:91-136 | the outcome is always an HTTP error, no results, found or raised; non-200 is an HTTP error carrying the status, with the pre-spec hint exactly for the 사전규격 caption, and no items are examined; a lookup that raises gives `Raised([])`; falsy items mean no results; otherwise the outcome is found exactly when every item yields a card, with one card per item in order and the count equal to the number of items, and else raised after the cards of the items before the first failing one |
| `Search.SearchNara` | app.py:45-84 | a missing key is reported before the dates are looked at, and a selection of other than two dates is reported next; neither sends a request; otherwise exactly the built request is sent and its reply decides the outcome |
| `Search.Run` | app.py:142-146 | nothing happens without a button press; an empty keyword is reported before `search_nara` runs; a pressed search with a keyword has exactly `search_nara`'s trace; a request is sent exactly when keyword, key and two dates are all present |
| `Search.BareItemIsSingletonList` | app.py:95-96 | a reply whose items is one bare object has the same outcome as one whose items is a one-element list holding it |
| `Search.MissingItemsMeanNoResults` | app.py:93-95 | a dict reply missing `response`, or with an empty `response`, produces "no results" |
| `Search.OneBidNotice` | app.py:91-130 | a bid reply with one bare item yields one card with the closing time rendered as `2024-04-05 18:00`, the `#` link placeholder and no detail button |

## Left out

- Page setup, widgets, spinner, expanders, columns and message rendering (app.py:1-42, 87, 98, 121-139) are not modelled.  They are display side effects; only the reported outcome is modelled.
- Reading the key from `st.secrets` (app.py:47-48) is an `Option<string>` input: the secret store is external.
- `requests.get`, its 15-second timeout and `response.json()` (app.py:89-92) are the `server` parameter, returning a status and a parsed `Json.Value`.  Network failures, timeouts and unparsable bodies are not modelled.
- `urllib.parse.unquote` (app.py:76) is the `unquote` parameter, an uninterpreted function.  Percent-decoding as in section 2.1 of RFC 3986 is not modelled.
- `datetime.now()` and the seven-day default range (app.py:34-39) are not modelled because they depend on the clock.  Dates arrive as already-chosen year/month/day values.
- JSON floating-point numbers are not a separate case: a float is truthy when non-zero, `len` raises on it, it has no `.get`, and it is never equal to `'#'`, exactly as for `Num`, which stands for both.
- The order of query parameters in the URL is not modelled: `Request.Build` returns a map.
- Python strings are modelled as sequences of Unicode scalar values; lone surrogates are not modelled.
- `Normalize.FormatDate`: a date field holding a 12-element list is returned unchanged.  Python would render the slices' list representations into a string, and Python's `repr` is not modelled.
- `Dates.Compact`: years below 1000 are padded to four digits.  glibc's `strftime("%Y")` does not pad them, but the date picker only offers years near the current one.
- `Search.Answer`: when items are processed and an exception is raised, the "found N items" banner drawn before the cards is not part of the outcome.
