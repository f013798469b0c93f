// taskSchema and the single-field validateField helper (src/utils/validationSchemas.ts).
// The same schema text appears in src/hooks/useTaskForm.ts and
// src/components/dashboard/CreateTaskForm.tsx; this module is the one definition
// all three use.

module ValidationSchemas {
  import opened Types

  /** The four keys of taskSchema's shape, in declaration order. */
  datatype Field = NameField | DescriptionField | StatusField | DueDateField

  /** The property name of a field, as the form's inputs carry it. */
  function Key(f: Field): string
  {
    match f
    case NameField => "name"
    case DescriptionField => "description"
    case StatusField => "status"
    case DueDateField => "due_date"
  }

  /** `schema.shape[name]`: the field a property name selects, if any. */
  function FieldNamed(key: string): (r: Option<Field>)
    ensures r.Some? ==> Key(r.value) == key
    ensures r.None? ==> forall f: Field :: Key(f) != key
  {
    if key == "name" then Some(NameField)
    else if key == "description" then Some(DescriptionField)
    else if key == "status" then Some(StatusField)
    else if key == "due_date" then Some(DueDateField)
    else None
  }

  lemma {:induction false} FieldKeyRoundTrip(f: Field)
    ensures FieldNamed(Key(f)) == Some(f)
  {
    match f
    case NameField =>
    case DescriptionField =>
      assert Key(f) != "name";
    case StatusField =>
      assert Key(f) != "name" && Key(f) != "description";
    case DueDateField =>
      assert Key(f) != "name" && Key(f) != "description" && Key(f) != "status";
  }

  /** TaskFormData: every value is the string an input produced, status included. */
  datatype TaskFormData = TaskFormData(name: string, description: string, status: string, due_date: string)

  const InitialForm := TaskFormData("", "", "TODO", "")

  function Get(d: TaskFormData, f: Field): string
  {
    match f
    case NameField => d.name
    case DescriptionField => d.description
    case StatusField => d.status
    case DueDateField => d.due_date
  }

  /** The form copied with one field replaced: only the named field changes. */
  function WithField(d: TaskFormData, f: Field, v: string): (r: TaskFormData)
    ensures Get(r, f) == v
    ensures forall g: Field :: g != f ==> Get(r, g) == Get(d, g)
  {
    match f
    case NameField => d.(name := v)
    case DescriptionField => d.(description := v)
    case StatusField => d.(status := v)
    case DueDateField => d.(due_date := v)
  }

  /**
   * Whether `new Date(val)` yields a valid time: the JavaScript engine's date
   * parser, left as a parameter. Every such parser rejects the empty string.
   */
  type DateParser = p: string -> bool | !p("") witness (s: string) => false

  const NameTooShort := "Task name must be at least 3 characters"
  const NameTooLong := "Task name cannot exceed 100 characters"
  const DescriptionTooShort := "Description must be at least 5 characters"
  const DescriptionTooLong := "Description cannot exceed 500 characters"
  const DueDateRequired := "Due date is required"
  const InvalidDateFormat := "Invalid date format"
  const InvalidInput := "Invalid input"

  /** zod's default message for a value outside `z.enum([...])`. */
  function InvalidEnumMessage(received: string): (r: string)
    ensures r != ""
    ensures |r| >= |received| + 2 && r[|r| - |received| - 2..] == "'" + received + "'"
  {
    "Invalid enum value. Expected 'TODO' | 'IN_PROGRESS' | 'DONE', received '" + received + "'"
  }

  /** The field's rule, stated on its own: what the schema is meant to accept. */
  predicate Accepts(f: Field, v: string, parsesDate: DateParser)
  {
    match f
    case NameField => 3 <= |v| <= 100
    case DescriptionField => 5 <= |v| <= 500
    case StatusField => v == "TODO" || v == "IN_PROGRESS" || v == "DONE"
    case DueDateField => |v| > 0 && parsesDate(v)
  }

  /** Every field of the form is accepted by its rule. */
  predicate FormAccepted(d: TaskFormData, parsesDate: DateParser)
  {
    forall f: Field :: Accepts(f, Get(d, f), parsesDate)
  }

  /** A string rule with a minimum and a maximum length: both checks run, minimum first. */
  function LengthIssues(v: string, lo: nat, hi: nat, tooShort: string, tooLong: string): seq<string>
  {
    (if |v| < lo then [tooShort] else []) + (if |v| > hi then [tooLong] else [])
  }

  /**
   * The messages zod reports for one field's value, in the order it reports
   * them. The two refinements on due_date are not fatal, so both run.
   */
  function FieldIssues(f: Field, v: string, parsesDate: DateParser): (r: seq<string>)
    ensures r == [] <==> Accepts(f, v, parsesDate)
    ensures forall i :: 0 <= i < |r| ==> r[i] != ""
    ensures f == NameField && |v| < 3 ==> r == [NameTooShort]
    ensures f == NameField && |v| > 100 ==> r == [NameTooLong]
    ensures f == DescriptionField && |v| < 5 ==> r == [DescriptionTooShort]
    ensures f == DescriptionField && |v| > 500 ==> r == [DescriptionTooLong]
    ensures f == StatusField && !Accepts(f, v, parsesDate) ==> r == [InvalidEnumMessage(v)]
    ensures f == DueDateField && v == "" ==> r == [DueDateRequired, InvalidDateFormat]
    ensures f == DueDateField && v != "" && !parsesDate(v) ==> r == [InvalidDateFormat]
  {
    match f
    case NameField => LengthIssues(v, 3, 100, NameTooShort, NameTooLong)
    case DescriptionField => LengthIssues(v, 5, 500, DescriptionTooShort, DescriptionTooLong)
    case StatusField =>
      if StatusNamed(v).Some? then [] else [InvalidEnumMessage(v)]
    case DueDateField =>
      (if |v| > 0 then [] else [DueDateRequired]) + (if parsesDate(v) then [] else [InvalidDateFormat])
  }

  /** A ZodError entry: the first element of its path and its message. */
  datatype Issue = Issue(path: string, message: string)

  /** Each message of one field, tagged with the field's key. */
  function Tagged(f: Field, messages: seq<string>): (r: seq<Issue>)
    ensures |r| == |messages|
    ensures forall i :: 0 <= i < |r| ==> r[i] == Issue(Key(f), messages[i])
  {
    if messages == [] then [] else [Issue(Key(f), messages[0])] + Tagged(f, messages[1..])
  }

  /** The issues of parsing a one-field object against that field's rule alone. */
  function FieldParseIssues(f: Field, v: string, parsesDate: DateParser): (r: seq<Issue>)
    ensures r == [] <==> Accepts(f, v, parsesDate)
    ensures AllWellFormed(r)
  {
    FieldKeyRoundTrip(f);
    Tagged(f, FieldIssues(f, v, parsesDate))
  }

  /** Every issue names a field of the schema and carries a message. */
  predicate WellFormed(i: Issue)
  {
    i.message != "" && FieldNamed(i.path).Some?
  }

  predicate AllWellFormed(issues: seq<Issue>)
  {
    forall i :: 0 <= i < |issues| ==> WellFormed(issues[i])
  }

  lemma ConcatWellFormed(a: seq<Issue>, b: seq<Issue>)
    requires AllWellFormed(a) && AllWellFormed(b)
    ensures AllWellFormed(a + b)
  {
  }

  /** The issues of `taskSchema.parse(d)`: the fields in shape order. */
  function FormIssues(d: TaskFormData, parsesDate: DateParser): (r: seq<Issue>)
    ensures r == [] <==> FormAccepted(d, parsesDate)
    ensures AllWellFormed(r)
  {
    var a := FieldParseIssues(NameField, d.name, parsesDate);
    var b := FieldParseIssues(DescriptionField, d.description, parsesDate);
    var c := FieldParseIssues(StatusField, d.status, parsesDate);
    var e := FieldParseIssues(DueDateField, d.due_date, parsesDate);
    assert (forall f: Field :: Accepts(f, Get(d, f), parsesDate)) <==> a == [] && b == [] && c == [] && e == [] by {
      if a == [] && b == [] && c == [] && e == [] {
        assert Accepts(NameField, d.name, parsesDate) && Accepts(DescriptionField, d.description, parsesDate);
        assert Accepts(StatusField, d.status, parsesDate) && Accepts(DueDateField, d.due_date, parsesDate);
        forall f: Field ensures Accepts(f, Get(d, f), parsesDate) {
          assert f.NameField? || f.DescriptionField? || f.StatusField? || f.DueDateField?;
        }
      }
      if forall f: Field :: Accepts(f, Get(d, f), parsesDate) {
        assert Accepts(NameField, Get(d, NameField), parsesDate);
        assert Accepts(DescriptionField, Get(d, DescriptionField), parsesDate);
        assert Accepts(StatusField, Get(d, StatusField), parsesDate);
        assert Accepts(DueDateField, Get(d, DueDateField), parsesDate);
      }
    }
    ConcatWellFormed(a, b);
    ConcatWellFormed(a + b, c);
    ConcatWellFormed(a + b + c, e);
    a + b + c + e
  }

  /** The messages of the issues whose path is `key`, in order. */
  function IssuesAt(issues: seq<Issue>, key: string): seq<string>
  {
    if issues == [] then []
    else (if issues[0].path == key then [issues[0].message] else []) + IssuesAt(issues[1..], key)
  }

  lemma {:induction false} IssuesAtAppend(a: seq<Issue>, b: seq<Issue>, key: string)
    ensures IssuesAt(a + b, key) == IssuesAt(a, key) + IssuesAt(b, key)
  {
    if a != [] {
      assert (a + b)[1..] == a[1..] + b;
      IssuesAtAppend(a[1..], b, key);
    } else {
      assert a + b == b;
    }
  }

  lemma {:induction false} IssuesAtTagged(f: Field, messages: seq<string>, key: string)
    ensures IssuesAt(Tagged(f, messages), key) == if Key(f) == key then messages else []
  {
    if messages != [] {
      IssuesAtTagged(f, messages[1..], key);
    }
  }

  /** Whole-form parsing reports, for each field, exactly that field's own issues. */
  lemma FormIssuesAtField(d: TaskFormData, parsesDate: DateParser, f: Field)
    ensures IssuesAt(FormIssues(d, parsesDate), Key(f)) == FieldIssues(f, Get(d, f), parsesDate)
  {
    var k := Key(f);
    var a := FieldParseIssues(NameField, d.name, parsesDate);
    var b := FieldParseIssues(DescriptionField, d.description, parsesDate);
    var c := FieldParseIssues(StatusField, d.status, parsesDate);
    var e := FieldParseIssues(DueDateField, d.due_date, parsesDate);
    assert FormIssues(d, parsesDate) == a + b + c + e;
    IssuesAtAppend(a + b + c, e, k);
    IssuesAtAppend(a + b, c, k);
    IssuesAtAppend(a, b, k);
    IssuesAtTagged(NameField, FieldIssues(NameField, d.name, parsesDate), k);
    IssuesAtTagged(DescriptionField, FieldIssues(DescriptionField, d.description, parsesDate), k);
    IssuesAtTagged(StatusField, FieldIssues(StatusField, d.status, parsesDate), k);
    IssuesAtTagged(DueDateField, FieldIssues(DueDateField, d.due_date, parsesDate), k);
    assert Get(d, f) == match f
      case NameField => d.name
      case DescriptionField => d.description
      case StatusField => d.status
      case DueDateField => d.due_date;
  }

  /** The message of the first issue whose path is `key`, if any. */
  function Find(issues: seq<Issue>, key: string): (r: Option<string>)
    ensures r.None? <==> forall i :: 0 <= i < |issues| ==> issues[i].path != key
    ensures r.Some? ==> exists i :: 0 <= i < |issues| && issues[i].path == key && issues[i].message == r.value
                                   && forall j :: 0 <= j < i ==> issues[j].path != key
  {
    if issues == [] then None
    else if issues[0].path == key then Some(issues[0].message)
    else
      var r := Find(issues[1..], key);
      assert forall i :: 1 <= i < |issues| ==> issues[i] == issues[1..][i - 1];
      r
  }

  /** `find` yields the first of the messages reported at `key`. */
  lemma {:induction false} FindIsFirst(issues: seq<Issue>, key: string)
    ensures Find(issues, key) == if IssuesAt(issues, key) == [] then None else Some(IssuesAt(issues, key)[0])
  {
    if issues != [] && issues[0].path != key {
      FindIsFirst(issues[1..], key);
    }
  }

  /**
   * The message a loop that overwrites `errors[path] = message` for each issue
   * in turn leaves at `key`: the message of the last issue at `key`.
   */
  function LastIssueFor(issues: seq<Issue>, key: string): (r: Option<string>)
    ensures r.None? <==> forall i :: 0 <= i < |issues| ==> issues[i].path != key
    ensures r.Some? ==> exists i :: 0 <= i < |issues| && issues[i].path == key && issues[i].message == r.value
                                   && forall j :: i < j < |issues| ==> issues[j].path != key
  {
    if issues == [] then None
    else if issues[|issues| - 1].path == key then Some(issues[|issues| - 1].message)
    else
      var init := issues[..|issues| - 1];
      var r := LastIssueFor(init, key);
      assert forall i :: 0 <= i < |init| ==> issues[i] == init[i];
      assert r.Some? ==> exists i :: 0 <= i < |issues| && issues[i].path == key && issues[i].message == r.value
                                     && forall j :: i < j < |issues| ==> issues[j].path != key by {
        if r.Some? {
          var i :| 0 <= i < |init| && init[i].path == key && init[i].message == r.value
                   && forall j :: i < j < |init| ==> init[j].path != key;
          assert forall j :: i < j < |issues| ==> issues[j].path != key;
        }
      }
      r
  }

  /** The overwriting loop keeps the last of the messages reported at `key`. */
  lemma {:induction false} LastIssueForIsLast(issues: seq<Issue>, key: string)
    ensures var ms := IssuesAt(issues, key);
            LastIssueFor(issues, key) == if ms == [] then None else Some(ms[|ms| - 1])
  {
    if issues != [] {
      var init, last := issues[..|issues| - 1], issues[|issues| - 1];
      assert issues == init + [last];
      IssuesAtAppend(init, [last], key);
      assert IssuesAt([last], key) == if last.path == key then [last.message] else [];
      LastIssueForIsLast(init, key);
    }
  }

  /** What `taskSchema.parse` returns: the validated task, or the ZodError's issues. */
  datatype Parsed = Valid(task: NewTask) | Invalid(issues: seq<Issue>)

  /** The body POSTed to create a task; status is now one of the enum's values. */
  datatype NewTask = NewTask(name: string, description: string, status: Status, due_date: string)

  /** `taskSchema.parse(d)`. */
  function ParseTask(d: TaskFormData, parsesDate: DateParser): (r: Parsed)
    ensures r.Valid? <==> FormAccepted(d, parsesDate)
    ensures r.Valid? ==> && r.task.name == d.name && r.task.description == d.description
                         && StatusKey(r.task.status) == d.status && r.task.due_date == d.due_date
    ensures r.Invalid? ==> r.issues != [] && r.issues == FormIssues(d, parsesDate)
  {
    var issues := FormIssues(d, parsesDate);
    if issues == [] then
      assert Accepts(StatusField, d.status, parsesDate);
      Valid(NewTask(d.name, d.description, StatusNamed(d.status).value, d.due_date))
    else
      Invalid(issues)
  }

  /**
   * validateField(taskSchema, name, value): "" when the named field accepts the
   * value, else the first issue's message; "Invalid input" when the name selects
   * no field (the parse then throws a TypeError, not a ZodError).
   */
  function ValidateField(key: string, value: string, parsesDate: DateParser): (r: string)
    ensures r == "" <==> FieldNamed(key).Some? && Accepts(FieldNamed(key).value, value, parsesDate)
    ensures FieldNamed(key).None? ==> r == InvalidInput
    ensures forall f: Field :: Key(f) == key && !Accepts(f, value, parsesDate) ==>
              r == FieldIssues(f, value, parsesDate)[0]
  {
    match FieldNamed(key)
    case None => InvalidInput
    case Some(f) =>
      var issues := FieldParseIssues(f, value, parsesDate);
      if issues == [] then ""
      else
        IssuesAtTagged(f, FieldIssues(f, value, parsesDate), key);
        FindIsFirst(issues, key);
        match Find(issues, key)
        case Some(m) => m
        case None => InvalidInput
  }

  /** An empty due date shows "Due date is required" while typing ... */
  lemma EmptyDueDateLiveMessage(parsesDate: DateParser)
    ensures ValidateField("due_date", "", parsesDate) == DueDateRequired
  {
    assert FieldNamed("due_date") == Some(DueDateField);
  }

  /** ... but "Invalid date format" after a whole-form submit, where the last issue wins. */
  lemma EmptyDueDateSubmitMessage(d: TaskFormData, parsesDate: DateParser)
    requires d.due_date == ""
    ensures LastIssueFor(FormIssues(d, parsesDate), "due_date") == Some(InvalidDateFormat)
  {
    FormIssuesAtField(d, parsesDate, DueDateField);
    LastIssueForIsLast(FormIssues(d, parsesDate), "due_date");
  }
}
