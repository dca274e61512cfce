/** `check_response`: four ordered, short-circuiting shape checks on the
    decoded API answer. Each raised exception becomes a result variant that
    keeps the exception's fixed text. */
module ResponseValidator {
  import opened PyValues

  const DictExpected := "Не тот тип данных. Должен быть \"dict\""
  const ListExpected := "Не тот тип данных. Должен быть \"list\""
  const NoHomeworkData := "Нет данных о домашке."

  /** `Ok` when no check raised; `TypeErr` for a `TypeError`; `NoData` for the
      project's missing-key exception, the benign "nothing under review" case. */
  datatype Checked = Ok | TypeErr(detail: string) | NoData(detail: string)

  /** `response.get('homeworks')` */
  function Homeworks(response: Json): Json
    requires response.JObject?
  {
    Get(response.fields, "homeworks")
  }

  /** What the code that follows the checks relies on: a dict whose
      `homeworks` is a non-empty list with a dict at its head. */
  predicate WellShaped(response: Json)
  {
    response.JObject? && Homeworks(response).JList? &&
    |Homeworks(response).items| > 0 && Homeworks(response).items[0].JObject?
  }

  function CheckResponse(response: Json): (r: Checked)
    // success means exactly that the answer has the shape the caller indexes into
    ensures r == Ok <==> WellShaped(response)
    // a non-dict is a type error whatever it holds
    ensures !response.JObject? ==> r == TypeErr(DictExpected)
    // on a dict, a missing or falsy `homeworks` is the no-data error and only that
    ensures response.JObject? ==> (r.NoData? <==> !Truthy(Homeworks(response)))
    ensures r.NoData? ==> r.detail == NoHomeworkData
    // a truthy `homeworks` that is not a list is the list type error
    ensures r == TypeErr(ListExpected) <==>
      response.JObject? && Truthy(Homeworks(response)) && !Homeworks(response).JList?
    ensures r.TypeErr? ==> r.detail == DictExpected || r.detail == ListExpected
  {
    if !response.JObject? then TypeErr(DictExpected)
    else if !Truthy(Homeworks(response)) then NoData(NoHomeworkData)
    else if !Homeworks(response).JList? then TypeErr(ListExpected)
    else if !Homeworks(response).items[0].JObject? then TypeErr(DictExpected)
    else Ok
  }

  /** `response.get('homeworks')[0]`, the record the loop hands to the formatter. */
  function FirstHomework(response: Json): map<string, Json>
    requires CheckResponse(response) == Ok
  {
    Homeworks(response).items[0].fields
  }

  /** Only the head of the homework list is inspected: replacing every later
      element leaves both the verdict and the extracted record unchanged. */
  lemma OnlyFirstHomeworkInspected(fields: map<string, Json>, head: Json, rest1: seq<Json>, rest2: seq<Json>)
    ensures var a := JObject(fields["homeworks" := JList([head] + rest1)]);
      var b := JObject(fields["homeworks" := JList([head] + rest2)]);
      CheckResponse(a) == CheckResponse(b) &&
      (CheckResponse(a) == Ok ==> FirstHomework(a) == FirstHomework(b) == head.fields)
  {
  }
}
