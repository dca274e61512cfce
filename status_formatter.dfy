/** `parse_status` and the verdict table: turns the head homework record into
    the notification text, or fails with the exception Python would raise. */
module StatusFormatter {
  import opened PyValues

  const Approved := "approved"
  const Reviewing := "reviewing"
  const Rejected := "rejected"

  /** `HOMEWORK_VERDICTS`: the closed table of status codes and their verdicts. */
  const HomeworkVerdicts: map<string, string> := map[
    Approved := "Работа проверена: ревьюеру всё понравилось. Ура!",
    Reviewing := "Работа взята на проверку ревьюером.",
    Rejected := "Работа проверена: у ревьюера есть замечания."
  ]

  const StatusLead := "Изменился статус проверки работы \""
  const VerdictLead := "\". "
  const NoNameDetail := "Нет ключа \"homework_name\"."
  const UnexpectedStatusDetail := "Неожиданный статус домашней работы"

  /** `KeyError` from either check; `Unhashable` is the `TypeError` Python
      raises when the `in` test meets a list or dict status. */
  datatype FormatError = KeyErr(detail: string) | Unhashable(typeName: string)

  datatype Formatted = Message(text: string) | Failed(error: FormatError)

  /** The notification template: the name first, then the verdict. */
  function StatusText(name: string, verdict: string): string
  {
    StatusLead + name + VerdictLead + verdict
  }

  function ParseStatus(homework: map<string, Json>): (r: Formatted)
    // the name is checked first: a falsy or missing name fails whatever the status
    ensures !Truthy(Get(homework, "homework_name")) ==> r == Failed(KeyErr(NoNameDetail))
    // success iff the name is truthy and the status is a key of the table
    ensures r.Message? <==>
      Truthy(Get(homework, "homework_name")) &&
      Get(homework, "status").JStr? && Get(homework, "status").s in HomeworkVerdicts
    // the text names the work and then gives the table's verdict for its status
    ensures r.Message? ==>
      r.text == StatusText(PyStr(Get(homework, "homework_name")), HomeworkVerdicts[Get(homework, "status").s])
    // an unknown hashable status is the key error; a list or dict status is a type error
    ensures r.Failed? && Truthy(Get(homework, "homework_name")) ==>
      match Get(homework, "status")
      case JList(_) => r.error == Unhashable("list")
      case JObject(_) => r.error == Unhashable("dict")
      case _ => r.error == KeyErr(UnexpectedStatusDetail)
  {
    var name := Get(homework, "homework_name");
    var status := Get(homework, "status");
    if !Truthy(name) then Failed(KeyErr(NoNameDetail))
    else
      match status
      case JList(_) => Failed(Unhashable("list"))
      case JObject(_) => Failed(Unhashable("dict"))
      case JStr(code) =>
        if code in HomeworkVerdicts then Message(StatusText(PyStr(name), HomeworkVerdicts[code]))
        else Failed(KeyErr(UnexpectedStatusDetail))
      case _ => Failed(KeyErr(UnexpectedStatusDetail))
  }

  /** The part of a notification after the name, for a known status. */
  function Ending(status: string): string
    requires status in HomeworkVerdicts
  {
    VerdictLead + HomeworkVerdicts[status]
  }

  /** Splits `text` as a notification for `status`, if it is one. */
  function SplitAs(text: string, status: string): (r: Option<(string, string)>)
    requires status in HomeworkVerdicts
    ensures r.Some? ==> r.value.1 == status && text == StatusText(r.value.0, HomeworkVerdicts[status])
  {
    var tail := Ending(status);
    if |text| >= |StatusLead| + |tail| && text[..|StatusLead|] == StatusLead && text[|text| - |tail|..] == tail
    then
      var name := text[|StatusLead|..|text| - |tail|];
      assert text == text[..|StatusLead|] + name + text[|text| - |tail|..];
      Some((name, status))
    else None
  }

  /** Reads a notification back into the rendered name and the status code. */
  function ReadStatusText(text: string): (r: Option<(string, string)>)
    ensures r.Some? ==>
      r.value.1 in HomeworkVerdicts && text == StatusText(r.value.0, HomeworkVerdicts[r.value.1])
  {
    if SplitAs(text, Approved).Some? then SplitAs(text, Approved)
    else if SplitAs(text, Reviewing).Some? then SplitAs(text, Reviewing)
    else SplitAs(text, Rejected)
  }

  /** Two different statuses end their texts differently within the last two
      characters, so no ending is a suffix of another. */
  lemma EndingsDiffer(s1: string, s2: string)
    requires s1 in HomeworkVerdicts && s2 in HomeworkVerdicts && s1 != s2
    ensures var e1 := Ending(s1); var e2 := Ending(s2);
      e1[|e1| - 1] != e2[|e2| - 1] || e1[|e1| - 2] != e2[|e2| - 2]
  {
  }

  /** Two suffixes of one text agree in the text's last two characters. */
  lemma LastTwoOfSuffixes(text: string, e: string, o: string)
    requires 2 <= |e| <= |text| && 2 <= |o| <= |text|
    requires text[|text| - |e|..] == e && text[|text| - |o|..] == o
    ensures e[|e| - 1] == o[|o| - 1] && e[|e| - 2] == o[|o| - 2]
  {
    assert e[|e| - 1] == text[|text| - 1] == o[|o| - 1];
    assert e[|e| - 2] == text[|text| - 2] == o[|o| - 2];
  }

  /** A text built for one status never splits as a text for another. */
  lemma SplitAsOther(name: string, status: string, other: string)
    requires status in HomeworkVerdicts && other in HomeworkVerdicts && status != other
    ensures SplitAs(StatusText(name, HomeworkVerdicts[status]), other) == None
  {
    var text := StatusText(name, HomeworkVerdicts[status]);
    var e, o := Ending(status), Ending(other);
    assert text == (StatusLead + name) + e;
    assert text[|text| - |e|..] == e;
    if SplitAs(text, other).Some? {
      EndingsDiffer(status, other);
      LastTwoOfSuffixes(text, e, o);
      assert false;
    }
  }

  /** A text built for `status` splits as a text for `status`, with its name. */
  lemma SplitAsOwn(name: string, status: string)
    requires status in HomeworkVerdicts
    ensures SplitAs(StatusText(name, HomeworkVerdicts[status]), status) == Some((name, status))
  {
    var text := StatusText(name, HomeworkVerdicts[status]);
    var tail := Ending(status);
    assert text == StatusLead + name + tail;
    assert text[..|StatusLead|] == StatusLead;
    assert text[|text| - |tail|..] == tail;
    assert text[|StatusLead|..|text| - |tail|] == name;
  }

  /** Reading a notification back gives the name and status it was built
      from: the template loses nothing. */
  lemma ReadStatusTextRoundTrip(name: string, status: string)
    requires status in HomeworkVerdicts
    ensures ReadStatusText(StatusText(name, HomeworkVerdicts[status])) == Some((name, status))
  {
    var text := StatusText(name, HomeworkVerdicts[status]);
    SplitAsOwn(name, status);
    if status == Approved {
      assert ReadStatusText(text) == SplitAs(text, Approved);
    } else if status == Reviewing {
      SplitAsOther(name, status, Approved);
      assert SplitAs(text, Approved) == None;
      assert ReadStatusText(text) == SplitAs(text, Reviewing);
    } else {
      SplitAsOther(name, status, Approved);
      SplitAsOther(name, status, Reviewing);
      assert SplitAs(text, Approved) == None && SplitAs(text, Reviewing) == None;
      assert ReadStatusText(text) == SplitAs(text, Rejected);
    }
  }

  /** Equal notifications come from records with the same rendered name and
      the same status, so comparing texts compares (name, status) pairs. */
  lemma SameTextSameHomework(h1: map<string, Json>, h2: map<string, Json>)
    requires ParseStatus(h1).Message? && ParseStatus(h2).Message?
    ensures ParseStatus(h1) == ParseStatus(h2) <==>
      PyStr(Get(h1, "homework_name")) == PyStr(Get(h2, "homework_name")) &&
      Get(h1, "status") == Get(h2, "status")
  {
    var n1, n2 := PyStr(Get(h1, "homework_name")), PyStr(Get(h2, "homework_name"));
    var s1, s2 := Get(h1, "status").s, Get(h2, "status").s;
    ReadStatusTextRoundTrip(n1, s1);
    ReadStatusTextRoundTrip(n2, s2);
  }
}
