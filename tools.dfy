/**
 * The three tools of forecaster/forecast.py: build the query URL, call
 * `api_request`, answer "No data found" when the result is false, and
 * otherwise join the rendered blocks with a `---` line.
 */
module Tools {
  import opened Wrappers
  import opened Text
  import opened Fetch
  import opened Render

  /** What a tool call ends in: the text it returns, or the exception it raises. */
  datatype Reply = Returned(text: string) | Raised(error: Exception)

  /** What `"\n---\n".join(items)` puts between two blocks. */
  const Separator := "\n---\n"

  const NoDataHead := "No data found for state='"

  /** The answer for a false result, with the caller's strings as given (not lower-cased). */
  function NoDataMessage(state: string, district: Option<string>): (r: string)
    ensures |NoDataHead| + |state| < |r| && r[..|NoDataHead|] == NoDataHead
    ensures r[|NoDataHead|..|NoDataHead| + |state|] == state
    ensures district.Some? ==>
      |district.value| + 1 < |r| && r[|r| - |district.value| - 1..|r| - 1] == district.value
    ensures r[|r| - 1] == '\''
  {
    match district
    case Some(d) => NoDataHead + state + "', district='" + d + "'"
    case None => NoDataHead + state + "'"
  }

  /** What a tool does with the result of `api_request`. */
  function Respond(t: Template, noData: string, data: FetchResult): Reply
  {
    if !Truthy(data) then Returned(noData)
    else match Blocks(t, Iterate(data))
      case Err(e) => Raised(e)
      case Ok(items) => Returned(Join(items, Separator))
  }

  /** The part the three tools share once the data is in. */
  method Answer(t: Template, noData: string, data: FetchResult) returns (reply: Reply)
    ensures reply == Respond(t, noData, data)
  {
    if !Truthy(data) {
      return Returned(noData);
    }
    var items := RenderItems(t, Iterate(data));
    match items {
      case Err(e) => reply := Raised(e);
      case Ok(blocks) => reply := Returned(Join(blocks, Separator));
    }
  }

  /** `population_by_state_and_district(state, district)`; `fetch` is the network's answer to a URL. */
  method PopulationByStateAndDistrict(state: string, district: string, fetch: string -> Exchange)
    returns (reply: Reply)
    ensures reply == Respond(PopulationTemplate, NoDataMessage(state, Some(district)),
                             ApiRequest(PopulationUrl(state, district), fetch(PopulationUrl(state, district))))
  {
    var url := PopulationUrl(state, district);
    var data := ApiRequest(url, fetch(url));
    reply := Answer(PopulationTemplate, NoDataMessage(state, Some(district)), data);
  }

  /** The tool registered as `household_income_by_state_and_district`. */
  method HouseholdIncomeByStateAndDistrict(state: string, district: string, fetch: string -> Exchange)
    returns (reply: Reply)
    ensures reply == Respond(IncomeTemplate, NoDataMessage(state, Some(district)),
                             ApiRequest(IncomeUrl(state, district), fetch(IncomeUrl(state, district))))
  {
    var url := IncomeUrl(state, district);
    var data := ApiRequest(url, fetch(url));
    reply := Answer(IncomeTemplate, NoDataMessage(state, Some(district)), data);
  }

  /** The tool registered as `household_and_living_quarters_by_state`. */
  method HouseholdAndLivingQuartersByState(state: string, fetch: string -> Exchange)
    returns (reply: Reply)
    ensures reply == Respond(HouseholdsTemplate, NoDataMessage(state, None),
                             ApiRequest(HouseholdsUrl(state), fetch(HouseholdsUrl(state))))
  {
    var url := HouseholdsUrl(state);
    var data := ApiRequest(url, fetch(url));
    reply := Answer(HouseholdsTemplate, NoDataMessage(state, None), data);
  }

  /** The records a result holds all have the keys the template looks up. */
  predicate Complete(t: Template, rows: seq<Record>)
  {
    forall i, k :: 0 <= i < |rows| && k in Fields(t) ==> k in rows[i]
  }

  /** The blocks of complete records, one per record, in order. */
  function RenderedRows(t: Template, rows: seq<Record>): (blocks: seq<string>)
    requires Complete(t, rows)
    ensures |blocks| == |rows|
    ensures forall i :: 0 <= i < |rows| ==> Format(t, Row(rows[i])) == Ok(blocks[i])
  {
    seq(|rows|, i requires 0 <= i < |rows| => Format(t, Row(rows[i])).value)
  }

  /**
   * N >= 1 complete records give the N blocks in record order joined by
   * `"\n---\n"`: block i at `Offset(blocks, Separator, i)`, one separator
   * after every block but the last.
   */
  lemma RecordsJoined(t: Template, noData: string, rows: seq<Record>)
    requires |rows| >= 1 && Complete(t, rows)
    ensures Respond(t, noData, Records(rows)) == Returned(Join(RenderedRows(t, rows), Separator))
  {
    var data := Iterate(Records(rows));
    forall i | 0 <= i < |data| ensures Format(t, data[i]).Ok? {
      assert data[i] == Row(rows[i]);
    }
    BlocksOk(t, data);
    var blocks := Blocks(t, data).value;
    assert blocks == RenderedRows(t, rows);
  }

  /** Opens and closes with a line break and eight spaces; neither begins nor ends with the separator. */
  predicate FramedOutput(text: string)
  {
    && |Indent| <= |text| && text[..|Indent|] == Indent && text[|text| - |Indent|..] == Indent
    && |Separator| <= |text| && text[..|Separator|] != Separator && text[|text| - |Separator|..] != Separator
  }

  /** A text that opens with a block's head and closes with a block's tail starts and ends with `Indent`, never with `Separator`. */
  lemma FramedText(text: string, first: string, last: string)
    requires |first| <= |text| && text[..|first|] == first && Indent <= first
    requires |last| <= |text| && text[|text| - |last|..] == last
    requires |Indent| <= |last| && last[|last| - |Indent|..] == Indent
    ensures FramedOutput(text)
  {
    assert text[..|Indent|] == first[..|Indent|];
    assert text[|text| - |Indent|..] == last[|last| - |Indent|..];
    assert text[1] == Indent[1] == ' ';
    assert text[..|Separator|][1] == text[1];
    assert text[|text| - 2] == Indent[|Indent| - 2] == ' ';
    assert text[|text| - |Separator|..][|Separator| - 2] == text[|text| - 2];
  }

  /**
   * Whatever rendered text a tool returns opens and closes with a block's
   * indentation, so no separator leads or trails it.
   */
  lemma RenderedTextFramed(t: Template, noData: string, data: FetchResult)
    requires Framed(t) && data != Records([])
    requires Respond(t, noData, data).Returned?
    ensures FramedOutput(Respond(t, noData, data).text)
  {
    TruthyIffNotEmpty(data);
    JoinedBlocksFramed(t, Iterate(data));
  }

  /** The joined blocks of one or more items that all format. */
  lemma JoinedBlocksFramed(t: Template, items: seq<Item>)
    requires Framed(t) && |items| > 0 && Blocks(t, items).Ok?
    ensures FramedOutput(Join(Blocks(t, items).value, Separator))
  {
    FirstLastFramed(t, items);
    JoinFramed(Blocks(t, items).value);
  }

  /** The first block opens, and the last block closes, with `Indent`. */
  lemma FirstLastFramed(t: Template, items: seq<Item>)
    requires Framed(t) && |items| > 0 && Blocks(t, items).Ok?
    ensures var blocks := Blocks(t, items).value;
      && |blocks| == |items| && Indent <= blocks[0]
      && |Indent| <= |blocks[|blocks| - 1]| && blocks[|blocks| - 1][|blocks[|blocks| - 1]| - |Indent|..] == Indent
  {
    FirstLastBlocks(t, items);
    FormatFramed(t, items[0]);
    FormatFramed(t, items[|items| - 1]);
  }

  /** Blocks that open and close with `Indent` join into a framed text. */
  lemma JoinFramed(blocks: seq<string>)
    requires |blocks| > 0 && Indent <= blocks[0]
    requires |Indent| <= |blocks[|blocks| - 1]| && blocks[|blocks| - 1][|blocks[|blocks| - 1]| - |Indent|..] == Indent
    ensures FramedOutput(Join(blocks, Separator))
  {
    JoinEnds(blocks, Separator);
    FramedText(Join(blocks, Separator), blocks[0], blocks[|blocks| - 1]);
  }

  lemma FirstLastBlocks(t: Template, items: seq<Item>)
    requires |items| > 0 && Blocks(t, items).Ok?
    ensures |Blocks(t, items).value| == |items|
    ensures Format(t, items[0]) == Ok(Blocks(t, items).value[0])
    ensures Format(t, items[|items| - 1]) == Ok(Blocks(t, items).value[|items| - 1])
  {
    BlocksOkInverse(t, items);
    BlocksOk(t, items);
  }

  /** An empty array is the only result that is answered with the "No data found" sentence. */
  lemma NoDataOnlyForEmpty(t: Template, noData: string, data: FetchResult)
    requires Framed(t) && |Fields(t)| > 0
    requires |noData| > 0 && noData[0] != '\n'
    ensures Respond(t, noData, data) == Returned(noData) <==> data == Records([])
  {
    TruthyIffNotEmpty(data);
    if data != Records([]) && Blocks(t, Iterate(data)).Ok? {
      var items := Iterate(data);
      var blocks := Blocks(t, items).value;
      BlocksOkInverse(t, items);
      BlocksOk(t, items);
      JoinEnds(blocks, Separator);
      FormatFramed(t, items[0]);
      assert Join(blocks, Separator)[0] == blocks[0][0] == '\n';
    }
  }

  /**
   * A tool answers "No data found" exactly when the service answered with
   * a success status and an empty array; never for a failed request.
   */
  lemma NoDataIffEmptyArray(t: Template, noData: string, url: string, exchange: Exchange)
    requires Framed(t) && |Fields(t)| > 0
    requires |noData| > 0 && noData[0] != '\n'
    ensures Respond(t, noData, ApiRequest(url, exchange)) == Returned(noData)
        <==> exchange.Response? && IsSuccess(exchange.status) && exchange.body == JsonArray([])
  {
    NoDataOnlyForEmpty(t, noData, ApiRequest(url, exchange));
  }

  /** The same, for the three tools with their own blocks and "No data found" sentences. */
  lemma ToolNoDataIffEmptyArray(t: Template, state: string, district: Option<string>, url: string,
                                exchange: Exchange)
    requires t == PopulationTemplate || t == IncomeTemplate || t == HouseholdsTemplate
    ensures var noData := NoDataMessage(state, district);
      (Respond(t, noData, ApiRequest(url, exchange)) == Returned(noData)
       <==> exchange.Response? && IsSuccess(exchange.status) && exchange.body == JsonArray([]))
  {
    TemplatesFramed();
    var noData := NoDataMessage(state, district);
    assert noData[0] == NoDataHead[0];
    NoDataIffEmptyArray(t, noData, url, exchange);
  }

  /**
   * The failure marker is a non-empty dict, so it is never answered with
   * "No data found": the loop visits its first key, the string "ok", and
   * `"ok"['date']` raises TypeError.
   */
  lemma FailureRaisesTypeError(t: Template, noData: string, message: string, url: string)
    requires |Fields(t)| > 0
    ensures Respond(t, noData, Failure(message, url)) == Raised(TypeError)
  {
    var items := Iterate(Failure(message, url));
    assert items[..1] == [Key("ok")];
    assert Blocks(t, items[..1]) == Err(TypeError);
    BlocksErrPrefix(t, items, 1, TypeError);
  }

  /** Every failed request (status, connection or other error) makes the tool raise TypeError. */
  lemma RequestFailureRaises(t: Template, noData: string, url: string, exchange: Exchange)
    requires |Fields(t)| > 0
    requires !(exchange.Response? && IsSuccess(exchange.status) && exchange.body.JsonArray?)
    ensures Respond(t, noData, ApiRequest(url, exchange)) == Raised(TypeError)
  {
    FailureRaisesTypeError(t, noData, FailureMessage, url);
  }

  /**
   * A record lacking a key the template reads makes the tool raise KeyError
   * for the first such key of the first such record; nothing is returned.
   */
  lemma MissingKeyRaises(t: Template, noData: string, rows: seq<Record>)
    requires !Complete(t, rows)
    ensures exists r, j ::
              && 0 <= r < |rows| && Complete(t, rows[..r])
              && 0 <= j < |Fields(t)| && Fields(t)[j] !in rows[r]
              && (forall i :: 0 <= i < j ==> Fields(t)[i] in rows[r])
              && Respond(t, noData, Records(rows)) == Raised(KeyError(Fields(t)[j]))
  {
    var data := Iterate(Records(rows));
    if Blocks(t, data).Ok? {
      BlocksOkInverse(t, data);
      forall i, k | 0 <= i < |rows| && k in Fields(t) ensures k in rows[i] {
        assert data[i] == Row(rows[i]);
      }
      assert false;
    }
    BlocksErr(t, data);
    var r :|
      && 0 <= r < |data|
      && (forall i :: 0 <= i < r ==> Format(t, data[i]).Ok?)
      && Format(t, data[r]) == Err(Blocks(t, data).error);
    assert data[r] == Row(rows[r]);
    FormatRowErr(t, rows[r]);
    forall i, k | 0 <= i < r && k in Fields(t) ensures k in rows[..r][i] {
      assert data[i] == Row(rows[i]);
    }
  }

  /** One complete income record is answered with its block alone, no separator. */
  lemma IncomeSingleRecord(noData: string, m: Record)
    requires "district" in m && "state" in m && "date" in m && "income_mean" in m && "income_median" in m
    requires "expenditure_mean" in m && "gini" in m && "poverty" in m
    ensures Respond(IncomeTemplate, noData, Records([m])) == Returned(
      "\n        " + m["district"] + ", " + m["state"]
      + "\n        Date: " + m["date"]
      + "\n        Mean Income: RM " + m["income_mean"]
      + "\n        Median Income: RM " + m["income_median"]
      + "\n        Mean Expenditure: RM " + m["expenditure_mean"]
      + "\n        Gini Coefficient: " + m["gini"]
      + "\n        Poverty Rate: " + m["poverty"]
      + "%\n        ")
  {
    IncomeBlock(m);
    SingleRecord(IncomeTemplate, noData, m);
  }

  /** One record that formats is answered with its block alone. */
  lemma SingleRecord(t: Template, noData: string, m: Record)
    requires Format(t, Row(m)).Ok?
    ensures Respond(t, noData, Records([m])) == Returned(Format(t, Row(m)).value)
  {
    var data := Iterate(Records([m]));
    var b := Format(t, Row(m)).value;
    assert data == [Row(m)];
    assert data[..|data| - 1] == [];
    assert Blocks(t, data[..|data| - 1]) == Ok([]);
    assert data[|data| - 1] == Row(m);
    assert Blocks(t, data) == Ok([] + [b]);
    assert Join([b], Separator) == b;
  }

  /** A list of records can raise only KeyError: no record is a string. */
  lemma RecordsRaiseOnlyKeyError(t: Template, rows: seq<Record>)
    requires Blocks(t, Iterate(Records(rows))).Err?
    ensures Blocks(t, Iterate(Records(rows))).error.KeyError?
  {
    var data := Iterate(Records(rows));
    BlocksErr(t, data);
    var k :|
      && 0 <= k < |data|
      && (forall i :: 0 <= i < k ==> Format(t, data[i]).Ok?)
      && Format(t, data[k]) == Err(Blocks(t, data).error);
    assert data[k] == Row(rows[k]);
    FormatRowErr(t, rows[k]);
  }

  /**
   * The answer the tools evidently intend: the failure marker is told apart
   * by its shape and its message is returned as text; a list of records is
   * answered as before.
   */
  function RespondChecked(t: Template, noData: string, data: FetchResult): Reply
  {
    match data
    case Failure(message, _) => Returned(message)
    case Records(_) => Respond(t, noData, data)
  }

  /**
   * With the shape check, a failed request is reported as the failure
   * message, a tool never raises TypeError, and "No data found" means
   * exactly a successful empty array.
   */
  lemma CheckedReportsFailures(t: Template, noData: string, url: string, exchange: Exchange)
    requires Framed(t) && |Fields(t)| > 0
    requires |noData| > 0 && noData[0] != '\n' && noData != FailureMessage
    ensures var reply := RespondChecked(t, noData, ApiRequest(url, exchange));
      && (!(exchange.Response? && IsSuccess(exchange.status) && exchange.body.JsonArray?)
          ==> reply == Returned(FailureMessage))
      && reply != Raised(TypeError)
      && (reply == Returned(noData)
          <==> exchange.Response? && IsSuccess(exchange.status) && exchange.body == JsonArray([]))
  {
    var data := ApiRequest(url, exchange);
    if data.Records? {
      if Truthy(data) && Blocks(t, Iterate(data)).Err? {
        RecordsRaiseOnlyKeyError(t, data.rows);
      }
      NoDataOnlyForEmpty(t, noData, data);
    }
  }
}
