# Housing forecast data tools, in Dafny

This project models the data tools of the housing-forecast proof of concept
(`forecaster/forecast.py`). The file serves three tools to an agent runtime:

- `population_by_state_and_district`
- `household_income_by_state_and_district`
- `household_and_living_quarters_by_state`

Each tool does the same five things:

1. Lower-case its arguments and percent-encode them with `urllib.parse.quote`.
2. Build a query URL for the Malaysian open-data catalogue (`api.data.gov.my`).
3. Fetch it through `api_request`, which turns every error into the failure
   marker `{ok: False, message, url}`.
4. If the result is empty, answer "No data found for state='…'".
5. Otherwise render each record through a triple-quoted f-string, and join
   the blocks with `"\n---\n"`.

The model has seven modules. The network is a parameter: a tool method takes
`fetch: string -> Exchange`, the service's answer to a URL.

- `Wrappers`: the `Option` datatype for results that may be absent.
- `Text`: `str.lower` (ASCII), `sep.join` and its layout, and `str.split`
  on one character. Split is the inverse the URL reader uses.
- `Utf8`: `str.encode('utf-8')` and its decoder.
- `UrlParse`: `quote` with the default `safe='/'`, per sections 2.1 and 2.3
  of RFC 3986, and a strict inverse of it that the URL reader applies.
- `Fetch`:
  - the three URLs;
  - `api_request` over an `Exchange`: a response with a status and a body,
    a connection error, or another error;
  - a reader of the query string, used to state that each URL names its
    dataset and carries its filters, lower-cased.
- `Render`:
  - how `for x in data` iterates a result: the records, or the three keys
    of the failure marker;
  - the `if not data` test;
  - each f-string as a template of literal text and key lookups, with
    Python's KeyError and TypeError as outcomes;
  - the rendering loop, as a method with a `while` loop.
- `Tools`:
  - the three tools, as methods;
  - the specification function `Respond` that they are proved against;
  - the properties of the text they return or the exception they raise.

## Model

| member | source | states |
|---|---|---|
| Text.Lower | forecaster/forecast.py:71-72 | The result has the input's length. No ASCII capital is left. Each capital moves up by 32 code points, to its small letter. Every other character is unchanged. |
| Text.LowerIdempotent | forecaster/forecast.py:71 | Lower-casing an already lower-cased argument changes nothing. |
| Text.Join | forecaster/forecast.py:92 | `sep.join(parts)`: the parts in order with one separator between neighbours. Meaning stated by JoinAt, JoinLength and JoinEnds. |
| Text.JoinAt | forecaster/forecast.py:92 | In `sep.join(parts)`, part i sits at offset `Offset(i)`, the earlier parts each followed by one separator. Exactly one separator follows every part but the last. |
| Text.JoinEnds | forecaster/forecast.py:92 | A join begins with its first part and ends with its last. |
| Text.SplitJoin | forecaster/forecast.py:74 | Splitting a join on a character that no part contains gives back the parts. |
| Utf8.Encode | forecaster/forecast.py:71-72 | The UTF-8 encoding that `quote` applies first. It is at least as long as the string, and exactly as long only for ASCII (EncodeAscii, EncodeLengthAscii). Meaning stated by DecodeEncode. |
| Utf8.DecodeEncode | forecaster/forecast.py:71-72 | Decoding the UTF-8 encoding of a string gives the string back. |
| UrlParse.QuoteBytes | forecaster/forecast.py:71-72 | The output is all safe characters and `%XX` triples with upper-case hex. Its length is the input's plus two for every byte that is not unreserved or `/`, so every safe byte stays one character. It is exactly as long as the input only when every byte is safe. |
| UrlParse.QuoteBytesAppend | forecaster/forecast.py:71-72 | The quoter works byte by byte: quoting a concatenation gives the concatenation of the quotings. |
| UrlParse.QuoteBytesOne | forecaster/forecast.py:71-72 | A safe byte is quoted as itself; any other byte as `%` and its two upper-case hex digits. |
| UrlParse.Quote | forecaster/forecast.py:71-72 | Quoting a string (UTF-8, then the byte quoter) gives a well-formed percent-encoded string. |
| UrlParse.EncodedAlphabet | forecaster/forecast.py:74 | An encoded value holds only safe characters and `%`. So it has no `&`, `@`, `=`, space, `?` or `#` that could break the query. |
| UrlParse.UnquoteQuote | forecaster/forecast.py:71-72 | Decoding a quoted string with the model's strict inverse `Unquote` gives the string back: quoting loses nothing. |
| UrlParse.QuoteIdentity | forecaster/forecast.py:141 | `quote(s) == s` exactly when every character of s is unreserved or `/`. |
| Fetch.ApiRequest | forecaster/forecast.py:16-57 | The parsed rows come back unchanged exactly when the response is 2xx with a JSON array. Any other status, a connection error or any other error gives the failure marker, with the fixed message `FailureMessage` (line 55) and the requested URL. |
| Fetch.PopulationUrl | forecaster/forecast.py:74 | The population query URL, built on `BaseUrl`. Meaning stated by PopulationUrlRoundTrip. |
| Fetch.IncomeUrl | forecaster/forecast.py:109 | The income query URL. Meaning stated by IncomeUrlRoundTrip. |
| Fetch.HouseholdsUrl | forecaster/forecast.py:143 | The households query URL, with a state filter only. Meaning stated by HouseholdsUrlRoundTrip. |
| Fetch.ParseFilterParam | forecaster/forecast.py:74 | `icontains=<quote(lower v)>@<field>` has no `&` and reads back as the field and `lower(v)`. |
| Fetch.ParseQuery | forecaster/forecast.py:74 | Base URL, `?`, `id=<dataset>` and `&`-separated filter parameters read back as that dataset and those filters, in order. |
| Fetch.PopulationUrlRoundTrip | forecaster/forecast.py:71-74 | The population URL names `population_district` and filters state, then district, by their lower-cased values. |
| Fetch.IncomeUrlRoundTrip | forecaster/forecast.py:106-109 | The income URL names `hies_district` and filters state, then district, by their lower-cased values. |
| Fetch.HouseholdsUrlRoundTrip | forecaster/forecast.py:141-143 | The households URL names `hh_profile_state` and filters by the lower-cased state only. |
| Render.Iterate | forecaster/forecast.py:82 | What `for x in data` visits: the records in order, or the failure dict's three keys `ok`, `message`, `url`. Meaning stated by TruthyIffNotEmpty and FailureRaisesTypeError. |
| Render.Truthy | forecaster/forecast.py:78 | The negation of `not data`: true when there is something to iterate. Meaning stated by TruthyIffNotEmpty. |
| Render.Subscript | forecaster/forecast.py:84 | `x['k']`: the value for a record that has the key, KeyError for one that lacks it, TypeError for a key string. Meaning stated by Format and FormatRowErr. |
| Render.TruthyIffNotEmpty | forecaster/forecast.py:78 | `not data` holds exactly for the empty array. The failure marker is true. |
| Render.Format | forecaster/forecast.py:83-89 | A record renders exactly when it has every key the template reads. A key string (the failure marker's) raises TypeError at the first lookup. |
| Render.FormatRowErr | forecaster/forecast.py:117-125 | A record that fails raises KeyError for the first key, in template order, that it lacks. |
| Render.Blocks | forecaster/forecast.py:81-90 | The specification of the loop: the blocks of all items, or the first exception. Meaning stated by BlocksOk, BlocksErr and BlocksErrPrefix. |
| Render.RenderItems | forecaster/forecast.py:81-90 | The loop gives the blocks of all items, or the exception of the first item that fails (`Blocks`). |
| Render.BlocksOk | forecaster/forecast.py:82-90 | When every item renders, there is one block per item, in item order. |
| Render.BlocksErr | forecaster/forecast.py:82-90 | When the loop fails, the exception comes from the first failing item, and every earlier item rendered. |
| Render.TemplatesFramed | forecaster/forecast.py:83-89 | Each of the three templates (`PopulationTemplate`, `IncomeTemplate`, `HouseholdsTemplate`, the f-strings as literal text and key lookups) opens with a line break and eight spaces, closes with them, and reads at least one key. |
| Render.FormatFramed | forecaster/forecast.py:83-89 | For any framed template (the population, income and households f-strings alike, by TemplatesFramed), every rendered block starts and ends with a line break and eight spaces. |
| Render.PopulationBlock | forecaster/forecast.py:83-89 | `PopulationTemplate` renders a record verbatim: a population block is the Date, Sex, Age, Ethnicity and Population lines verbatim, values in place. |
| Render.IncomeBlock | forecaster/forecast.py:117-125 | `IncomeTemplate` renders a record verbatim: an income block is "district, state", then Date, the three RM amounts, Gini, and Poverty Rate with `%`, verbatim. |
| Render.HouseholdsBlock | forecaster/forecast.py:151-156 | `HouseholdsTemplate` renders a record verbatim: a households block is State, Date, then Households and Living Quarters with no colon, verbatim. |
| Tools.NoDataMessage | forecaster/forecast.py:78-79 | The sentence quotes the state, and the district when given, exactly as the caller passed them, not lower-cased. |
| Tools.Respond | forecaster/forecast.py:78-92 | The specification of a tool's answer: the no-data sentence when the result is false, else the joined blocks or the loop's exception. Meaning stated by NoDataIffEmptyArray, RecordsJoined, RenderedTextFramed, RequestFailureRaises and MissingKeyRaises. |
| Tools.Answer | forecaster/forecast.py:78-92 | The shared tail of the tools computes `Respond`: the no-data sentence for a false result, else the joined blocks or the loop's exception. |
| Tools.PopulationByStateAndDistrict | forecaster/forecast.py:60-92 | The tool answers `Respond` for the population template, its no-data sentence and `api_request` of the population URL. |
| Tools.HouseholdIncomeByStateAndDistrict | forecaster/forecast.py:95-128 | The tool answers `Respond` for the income template, its no-data sentence and `api_request` of the income URL. |
| Tools.HouseholdAndLivingQuartersByState | forecaster/forecast.py:131-159 | The tool answers `Respond` for the households template, the state-only sentence and `api_request` of the households URL. |
| Tools.RecordsJoined | forecaster/forecast.py:115-128 | N ≥ 1 complete records are answered with their N blocks in record order, joined by `"\n---\n"`. |
| Tools.RenderedTextFramed | forecaster/forecast.py:149-159 | Any rendered answer starts and ends with a line break and eight spaces. It never begins or ends with the separator. |
| Tools.SingleRecord | forecaster/forecast.py:92 | One record is answered with its block alone, with no separator. |
| Tools.IncomeSingleRecord | forecaster/forecast.py:115-128 | One complete income record is answered with its verbatim income block. |
| Tools.NoDataIffEmptyArray | forecaster/forecast.py:78-79 | For the bodies the model has (JSON arrays of records), "No data found" is returned exactly when the service answered 2xx with an empty array. |
| Tools.ToolNoDataIffEmptyArray | forecaster/forecast.py:146-147 | The same equivalence, for array bodies, for each of the three tools, with its own template and no-data sentence. |
| Tools.FailureRaisesTypeError | forecaster/forecast.py:82-84 | Iterating the failure marker reaches the key `"ok"`, and its first lookup raises TypeError. |
| Tools.RequestFailureRaises | forecaster/forecast.py:36-57 | Every failed request ends the tool with TypeError instead of a text answer. |
| Tools.MissingKeyRaises | forecaster/forecast.py:116-126 | If some record lacks a key, the tool raises KeyError for the first such key of the first such record. Every earlier record was complete. |
| Tools.RecordsRaiseOnlyKeyError | forecaster/forecast.py:150-156 | A list of records can only raise KeyError, never TypeError. |
| Tools.RespondChecked | forecaster/forecast.py:53-57 | The corrected answer: the failure dict is recognised by its shape and its message returned as text; records are answered as by `Respond`. Meaning stated by CheckedReportsFailures. |
| Tools.CheckedReportsFailures | forecaster/forecast.py:78-84 | When the failure marker that `api_request` returns is recognised by its shape before the `if not data` test and the loop, a failed request answers its message. No tool raises TypeError, and "No data found" means exactly a 2xx empty array. |

## Left out

- HTTP itself is left out: the client, TLS with verification off, the headers, the 30 s timeout and redirect following. The model takes the outcome of one GET as an `Exchange` value.
- All `print` and `traceback` logging is left out, because it has no effect on results.
- The FastMCP server, `async`/`await`, tool registration and `mcp.run` are left out.
- The households tool's Python function at line 132 reuses the name `household_income_by_state_and_district`. Registration happens when the decorator runs, so both tools are still served. The model names the method after the registered tool.
- `app.py` (the UI and agent orchestration) and `utils/prompts.py` (the prompt text) are not part of this model.
- Text.Lower: it models `str.lower` for ASCII only, and leaves non-ASCII characters unchanged. Python also lower-cases other scripts, and some characters map to more than one.
- Fetch.ApiRequest: a 2xx body that is valid JSON but not an array of flat objects (`null`, an object, a string, a number, a boolean) is not modelled. In the source, `if not data` also answers "No data found" for a falsy one of these (`null`, `{}`, `""`, `0`, `false`), and a non-empty object would be iterated by its keys; the model claims nothing for such bodies. The model does follow `raise_for_status` in httpx, which fails every status outside 200–299. It does not treat only statuses ≥ 400 as failures.
- Render.Format: a record's values are modelled as the text that `str()` gives them. Formatting JSON numbers (for example `0.35` or `5000`) is outside the model.
- Utf8.DecodeEncode: strings with lone surrogates cannot occur, because a Dafny `char` is a Unicode scalar value. `encode` would raise for them.

## Findings

| source | as written | input that shows it | evidently intended | confidence | as-written member | corrected member |
|---|---|---|---|---|---|---|
| forecaster/forecast.py:53-57 | `api_request` returns a three-key dict on failure. Each tool tests it with `if not data`, which passes, so the loop evaluates `x['date']` on the key `"ok"` and raises TypeError. | Any failed request, e.g. a 503 response or a refused connection, for `population_by_state_and_district("Johor", "Muar")` | The failure is told apart by its shape and reported as text (its message). "No data found" is kept for an empty array. | high; not executed | Tools.FailureRaisesTypeError | Tools.RespondChecked |

The tool methods keep the behaviour as written. `Tools.RespondChecked` is the
corrected answer, and `Tools.CheckedReportsFailures` proves its properties.
