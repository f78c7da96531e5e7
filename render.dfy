/**
 * The rendering loop shared by the three tools of forecaster/forecast.py:
 * `for x in data:` formats each `x` through the tool's triple-quoted
 * f-string and appends the block to `items`.
 */
module Render {
  import opened Fetch

  /** The Python exceptions the loop can raise. */
  datatype Exception =
    | KeyError(key: string)  // `x['k']` on a record without key `k`
    | TypeError              // `x['k']` on a string `x`

  datatype Result<T> = Ok(value: T) | Err(error: Exception)

  /** What `for x in data` binds `x` to: a record of the array, or a key of the failure dict. */
  datatype Item = Row(fields: Record) | Key(name: string)

  /** The failure dict's keys, in the order iteration visits them. */
  const FailureKeys: seq<string> := ["ok", "message", "url"]

  /** The values `for x in data` visits, in order. */
  function Iterate(data: FetchResult): seq<Item>
  {
    match data
    case Records(rows) => seq(|rows|, i requires 0 <= i < |rows| => Row(rows[i]))
    case Failure(_, _) => seq(|FailureKeys|, i requires 0 <= i < |FailureKeys| => Key(FailureKeys[i]))
  }

  /** `not data` fails: a list or a dict is true when it has something to iterate. */
  predicate Truthy(data: FetchResult) { |Iterate(data)| != 0 }

  /** Only the empty array is false; the failure marker, with its three keys, is true. */
  lemma TruthyIffNotEmpty(data: FetchResult)
    ensures !Truthy(data) <==> data == Records([])
  {
    if data.Records? && |data.rows| == 0 {
      assert data.rows == [];
    }
  }

  /** `x[key]`. */
  function Subscript(x: Item, key: string): Result<string>
  {
    match x
    case Row(m) => if key in m then Ok(m[key]) else Err(KeyError(key))
    case Key(_) => Err(TypeError)
  }

  /** A piece of an f-string: literal text, or a replacement field `{ x['key'] }`. */
  datatype Segment = Lit(text: string) | Field(key: string)

  type Template = seq<Segment>

  /** A line break and the eight spaces of indentation the triple-quoted literals carry. */
  const Indent := "\n        "

  /** The block of `population_by_state_and_district`. */
  const PopulationTemplate: Template := [
    Lit("\n        Date: "), Field("date"),
    Lit("\n        Sex: "), Field("sex"),
    Lit("\n        Age: "), Field("age"),
    Lit("\n        Ethnicity: "), Field("ethnicity"),
    Lit("\n        Population: "), Field("population"),
    Lit("\n        ")]

  /** The block of `household_income_by_state_and_district`. */
  const IncomeTemplate: Template := [
    Lit("\n        "), Field("district"), Lit(", "), Field("state"),
    Lit("\n        Date: "), Field("date"),
    Lit("\n        Mean Income: RM "), Field("income_mean"),
    Lit("\n        Median Income: RM "), Field("income_median"),
    Lit("\n        Mean Expenditure: RM "), Field("expenditure_mean"),
    Lit("\n        Gini Coefficient: "), Field("gini"),
    Lit("\n        Poverty Rate: "), Field("poverty"),
    Lit("%\n        ")]

  /** The block of `household_and_living_quarters_by_state`. */
  const HouseholdsTemplate: Template := [
    Lit("\n        State: "), Field("state"),
    Lit("\n        Date: "), Field("date"),
    Lit("\n        Households "), Field("households"),
    Lit("\n        Living Quarters "), Field("living_quarters"),
    Lit("\n        ")]

  /** The keys a template looks up, in order. */
  function Fields(t: Template): seq<string>
  {
    if |t| == 0 then []
    else match t[0]
      case Lit(_) => Fields(t[1..])
      case Field(k) => [k] + Fields(t[1..])
  }

  /** The record has every key the template looks up. */
  predicate HasFields(t: Template, m: Record)
  {
    forall k :: k in Fields(t) ==> k in m
  }

  /**
   * Evaluates an f-string: its fields left to right, the first failing lookup
   * being what it raises. A record formats exactly when it has every key the
   * template looks up; a string never gets past the first field.
   */
  function Format(t: Template, x: Item): (r: Result<string>)
    ensures x.Row? ==> (r.Ok? <==> HasFields(t, x.fields))
    ensures x.Key? && |Fields(t)| > 0 ==> r == Err(TypeError)
  {
    if |t| == 0 then Ok("")
    else match t[0]
      case Lit(s) =>
        (match Format(t[1..], x)
         case Err(e) => Err(e)
         case Ok(rest) => Ok(s + rest))
      case Field(k) =>
        match Subscript(x, k)
        case Err(e) => Err(e)
        case Ok(v) =>
          match Format(t[1..], x)
          case Err(e) => Err(e)
          case Ok(rest) => Ok(v + rest)
  }

  /** The blocks of `items` in order, or the exception of the first item that fails. */
  function Blocks(t: Template, data: seq<Item>): Result<seq<string>>
  {
    if |data| == 0 then Ok([])
    else match Blocks(t, data[..|data| - 1])
      case Err(e) => Err(e)
      case Ok(items) =>
        match Format(t, data[|data| - 1])
        case Err(e) => Err(e)
        case Ok(item) => Ok(items + [item])
  }

  /**
   * The loop of each tool: `items = []; for x in data: items.append(<block of x>)`,
   * where an exception leaves the loop at once.
   */
  method RenderItems(t: Template, data: seq<Item>) returns (r: Result<seq<string>>)
    ensures r == Blocks(t, data)
  {
    var items: seq<string> := [];
    var i := 0;
    while i < |data|
      invariant 0 <= i <= |data|
      invariant Blocks(t, data[..i]) == Ok(items)
    {
      assert data[..i + 1][..i] == data[..i];
      match Format(t, data[i]) {
        case Err(e) =>
          assert Blocks(t, data[..i + 1]) == Err(e);
          BlocksErrPrefix(t, data, i + 1, e);
          return Err(e);
        case Ok(item) =>
          items := items + [item];
      }
      i := i + 1;
    }
    assert data[..i] == data;
    r := Ok(items);
  }

  /** Once a prefix of the data fails, the whole loop fails with the same exception. */
  lemma {:induction false} BlocksErrPrefix(t: Template, data: seq<Item>, n: nat, e: Exception)
    requires n <= |data|
    requires Blocks(t, data[..n]) == Err(e)
    ensures Blocks(t, data) == Err(e)
    decreases |data| - n
  {
    if n < |data| {
      assert data[..n + 1][..n] == data[..n];
      BlocksErrPrefix(t, data, n + 1, e);
    } else {
      assert data[..n] == data;
    }
  }

  /** A record without some key raises KeyError for the first key of the template it lacks. */
  lemma {:induction false} FormatRowErr(t: Template, m: Record)
    requires Format(t, Row(m)).Err?
    ensures exists j ::
              && 0 <= j < |Fields(t)| && Fields(t)[j] !in m
              && (forall i :: 0 <= i < j ==> Fields(t)[i] in m)
              && Format(t, Row(m)).error == KeyError(Fields(t)[j])
  {
    var rest := t[1..];
    match t[0]
    case Lit(_) =>
      FormatRowErr(rest, m);
      assert Fields(t) == Fields(rest);
      assert Format(t, Row(m)).error == Format(rest, Row(m)).error;
    case Field(k) =>
      if k in m {
        FormatRowErr(rest, m);
        var j :|
          && 0 <= j < |Fields(rest)| && Fields(rest)[j] !in m
          && (forall i :: 0 <= i < j ==> Fields(rest)[i] in m)
          && Format(rest, Row(m)).error == KeyError(Fields(rest)[j]);
        assert Fields(t)[j + 1] == Fields(rest)[j];
        forall i | 0 <= i < j + 1 ensures Fields(t)[i] in m {
          if i > 0 { assert Fields(t)[i] == Fields(rest)[i - 1]; }
        }
      } else {
        assert Fields(t)[0] == k;
      }
  }

  /** When every item formats, the loop yields one block per item, in order. */
  lemma {:induction false} BlocksOk(t: Template, data: seq<Item>)
    requires forall i :: 0 <= i < |data| ==> Format(t, data[i]).Ok?
    ensures Blocks(t, data).Ok?
    ensures |Blocks(t, data).value| == |data|
    ensures forall i :: 0 <= i < |data| ==> Blocks(t, data).value[i] == Format(t, data[i]).value
  {
    if |data| > 0 {
      var init := data[..|data| - 1];
      BlocksOk(t, init);
    }
  }

  /** When some item fails, the loop raises the exception of the first item that does. */
  lemma {:induction false} BlocksErr(t: Template, data: seq<Item>)
    requires Blocks(t, data).Err?
    ensures exists k ::
              && 0 <= k < |data|
              && (forall i :: 0 <= i < k ==> Format(t, data[i]).Ok?)
              && Format(t, data[k]) == Err(Blocks(t, data).error)
  {
    var n := |data|;
    var init := data[..n - 1];
    if Blocks(t, init).Err? {
      BlocksErr(t, init);
      var k :|
        && 0 <= k < |init|
        && (forall i :: 0 <= i < k ==> Format(t, init[i]).Ok?)
        && Format(t, init[k]) == Err(Blocks(t, init).error);
      assert forall i :: 0 <= i <= k ==> init[i] == data[i];
    } else {
      BlocksOkInverse(t, init);
      assert forall i :: 0 <= i < n - 1 ==> init[i] == data[i];
    }
  }

  /** A loop that completes has formatted every item. */
  lemma {:induction false} BlocksOkInverse(t: Template, data: seq<Item>)
    requires Blocks(t, data).Ok?
    ensures forall i :: 0 <= i < |data| ==> Format(t, data[i]).Ok?
  {
    if |data| > 0 {
      var init := data[..|data| - 1];
      BlocksOkInverse(t, init);
      assert forall i :: 0 <= i < |data| - 1 ==> init[i] == data[i];
    }
  }

  /** One literal and the field after it, formatted from a record that has the field. */
  lemma FormatStep(t: Template, m: Record)
    requires |t| >= 2 && t[0].Lit? && t[1].Field? && t[1].key in m
    requires Format(t[2..], Row(m)).Ok?
    ensures Format(t, Row(m)) == Ok(t[0].text + m[t[1].key] + Format(t[2..], Row(m)).value)
  {
    var rest := t[1..];
    assert rest[1..] == t[2..];
    var tail := Format(t[2..], Row(m)).value;
    FormatFieldHead(rest, m);
    FormatLitHead(t, m);
    Assoc(t[0].text, m[t[1].key], tail);
  }

  lemma Assoc(a: string, b: string, c: string)
    ensures a + (b + c) == a + b + c
  {
  }

  lemma FormatLitHead(t: Template, m: Record)
    requires |t| >= 1 && t[0].Lit? && Format(t[1..], Row(m)).Ok?
    ensures Format(t, Row(m)) == Ok(t[0].text + Format(t[1..], Row(m)).value)
  {
  }

  lemma FormatFieldHead(t: Template, m: Record)
    requires |t| >= 1 && t[0].Field? && t[0].key in m && Format(t[1..], Row(m)).Ok?
    ensures Format(t, Row(m)) == Ok(m[t[0].key] + Format(t[1..], Row(m)).value)
  {
  }

  /** A template that opens with the indentation line break and closes with it. */
  predicate Framed(t: Template)
  {
    && |t| > 0
    && t[0].Lit? && Indent <= t[0].text
    && t[|t| - 1].Lit? && |Indent| <= |t[|t| - 1].text|
    && t[|t| - 1].text[|t[|t| - 1].text| - |Indent|..] == Indent
  }

  /** The three blocks open and close with a line break and eight spaces, and each looks something up. */
  lemma TemplatesFramed()
    ensures Framed(PopulationTemplate) && |Fields(PopulationTemplate)| > 0
    ensures Framed(IncomeTemplate) && |Fields(IncomeTemplate)| > 0
    ensures Framed(HouseholdsTemplate) && |Fields(HouseholdsTemplate)| > 0
  {
  }

  /** Every block of a framed template begins and ends with the indentation. */
  lemma FormatFramed(t: Template, x: Item)
    requires Framed(t) && Format(t, x).Ok?
    ensures Indent <= Format(t, x).value
    ensures |Indent| <= |Format(t, x).value|
    ensures Format(t, x).value[|Format(t, x).value| - |Indent|..] == Indent
  {
    FormatEndsWith(t, x);
  }

  lemma {:induction false} FormatEndsWith(t: Template, x: Item)
    requires |t| > 0 && t[|t| - 1].Lit? && Format(t, x).Ok?
    ensures |t[|t| - 1].text| <= |Format(t, x).value|
    ensures Format(t, x).value[|Format(t, x).value| - |t[|t| - 1].text|..] == t[|t| - 1].text
  {
    if |t| == 1 {
      assert t[1..] == [];
    } else {
      var rest := t[1..];
      assert rest[|rest| - 1] == t[|t| - 1];
      FormatEndsWith(rest, x);
    }
  }

  /** The closing literal of a template. */
  lemma FormatLast(t: Template, m: Record)
    requires |t| > 0 && t[|t| - 1].Lit?
    ensures Format(t[|t| - 1..], Row(m)) == Ok(t[|t| - 1].text)
  {
    var last := t[|t| - 1..];
    assert last[1..] == [];
    assert t[|t| - 1].text + "" == t[|t| - 1].text;
  }

  /** A population block: Date, Sex, Age, Ethnicity and Population, one per indented line. */
  lemma PopulationBlock(m: Record)
    requires "date" in m && "sex" in m && "age" in m && "ethnicity" in m && "population" in m
    ensures Format(PopulationTemplate, Row(m)) == Ok(
      "\n        Date: " + m["date"]
      + "\n        Sex: " + m["sex"]
      + "\n        Age: " + m["age"]
      + "\n        Ethnicity: " + m["ethnicity"]
      + "\n        Population: " + m["population"]
      + "\n        ")
  {
    var t := PopulationTemplate;
    FormatLast(t, m);
    FormatStep(t[8..], m);
    assert t[8..][2..] == t[10..];
    FormatStep(t[6..], m);
    assert t[6..][2..] == t[8..];
    FormatStep(t[4..], m);
    assert t[4..][2..] == t[6..];
    FormatStep(t[2..], m);
    assert t[2..][2..] == t[4..];
    FormatStep(t, m);
    Regroup5("\n        Date: ", m["date"], "\n        Sex: ", m["sex"], "\n        Age: ", m["age"],
      "\n        Ethnicity: ", m["ethnicity"], "\n        Population: ", m["population"], "\n        ");
  }

  /** An income block: "district, state", then Date, the three amounts in RM, Gini, and Poverty Rate in percent. */
  lemma IncomeBlock(m: Record)
    requires "district" in m && "state" in m && "date" in m && "income_mean" in m && "income_median" in m
    requires "expenditure_mean" in m && "gini" in m && "poverty" in m
    ensures Format(IncomeTemplate, Row(m)) == Ok(
      "\n        " + m["district"] + ", " + m["state"]
      + "\n        Date: " + m["date"]
      + "\n        Mean Income: RM " + m["income_mean"]
      + "\n        Median Income: RM " + m["income_median"]
      + "\n        Mean Expenditure: RM " + m["expenditure_mean"]
      + "\n        Gini Coefficient: " + m["gini"]
      + "\n        Poverty Rate: " + m["poverty"]
      + "%\n        ")
  {
    var t := IncomeTemplate;
    IncomeBlockTail(m);
    FormatStep(t[6..], m);
    assert t[6..][2..] == t[8..];
    FormatStep(t[4..], m);
    assert t[4..][2..] == t[6..];
    FormatStep(t[2..], m);
    assert t[2..][2..] == t[4..];
    FormatStep(t, m);
    var tail := Format(t[8..], Row(m)).value;
    Regroup4("\n        ", m["district"], ", ", m["state"], "\n        Date: ", m["date"],
      "\n        Mean Income: RM ", m["income_mean"], tail);
    Regroup9("\n        " + m["district"] + ", " + m["state"] + "\n        Date: " + m["date"]
      + "\n        Mean Income: RM " + m["income_mean"],
      "\n        Median Income: RM ", m["income_median"], "\n        Mean Expenditure: RM ", m["expenditure_mean"],
      "\n        Gini Coefficient: ", m["gini"], "\n        Poverty Rate: ", m["poverty"], "%\n        ");
  }

  /** The last four lines of an income block. */
  lemma IncomeBlockTail(m: Record)
    requires "income_median" in m && "expenditure_mean" in m && "gini" in m && "poverty" in m
    ensures Format(IncomeTemplate[8..], Row(m)) == Ok(
      "\n        Median Income: RM " + m["income_median"]
      + "\n        Mean Expenditure: RM " + m["expenditure_mean"]
      + "\n        Gini Coefficient: " + m["gini"]
      + "\n        Poverty Rate: " + m["poverty"]
      + "%\n        ")
  {
    var t := IncomeTemplate[8..];
    FormatLast(t, m);
    FormatStep(t[6..], m);
    assert t[6..][2..] == t[8..];
    FormatStep(t[4..], m);
    assert t[4..][2..] == t[6..];
    FormatStep(t[2..], m);
    assert t[2..][2..] == t[4..];
    FormatStep(t, m);
    Regroup4("\n        Median Income: RM ", m["income_median"], "\n        Mean Expenditure: RM ", m["expenditure_mean"],
      "\n        Gini Coefficient: ", m["gini"], "\n        Poverty Rate: ", m["poverty"], "%\n        ");
  }

  /** A households block: State, Date, then Households and Living Quarters, the last two without a colon. */
  lemma HouseholdsBlock(m: Record)
    requires "state" in m && "date" in m && "households" in m && "living_quarters" in m
    ensures Format(HouseholdsTemplate, Row(m)) == Ok(
      "\n        State: " + m["state"]
      + "\n        Date: " + m["date"]
      + "\n        Households " + m["households"]
      + "\n        Living Quarters " + m["living_quarters"]
      + "\n        ")
  {
    var t := HouseholdsTemplate;
    FormatLast(t, m);
    FormatStep(t[6..], m);
    assert t[6..][2..] == t[8..];
    FormatStep(t[4..], m);
    assert t[4..][2..] == t[6..];
    FormatStep(t[2..], m);
    assert t[2..][2..] == t[4..];
    FormatStep(t, m);
    Regroup4("\n        State: ", m["state"], "\n        Date: ", m["date"], "\n        Households ", m["households"],
      "\n        Living Quarters ", m["living_quarters"], "\n        ");
  }

  // Regrouping a right-nested concatenation, as Format builds it, into reading
  // order. These identities (and Assoc above) are separate lemmas over plain
  // strings because, stated inside the block lemmas, the template and record
  // terms there make the same step exceed the verifier's resource budget.

  lemma Regroup4(a0: string, b0: string, a1: string, b1: string, a2: string, b2: string, a3: string, b3: string,
                 c: string)
    ensures a0 + b0 + (a1 + b1 + (a2 + b2 + (a3 + b3 + c)))
         == a0 + b0 + a1 + b1 + a2 + b2 + a3 + b3 + c
  {
  }

  lemma Regroup5(a0: string, b0: string, a1: string, b1: string, a2: string, b2: string, a3: string, b3: string,
                 a4: string, b4: string, c: string)
    ensures a0 + b0 + (a1 + b1 + (a2 + b2 + (a3 + b3 + (a4 + b4 + c))))
         == a0 + b0 + a1 + b1 + a2 + b2 + a3 + b3 + a4 + b4 + c
  {
  }

  lemma Regroup9(x: string, a0: string, b0: string, a1: string, b1: string, a2: string, b2: string,
                 a3: string, b3: string, c: string)
    ensures x + (a0 + b0 + a1 + b1 + a2 + b2 + a3 + b3 + c)
         == x + a0 + b0 + a1 + b1 + a2 + b2 + a3 + b3 + c
  {
  }
}
