// The useTaskForm hook (src/hooks/useTaskForm.ts): the form values, the
// field -> message error map and the submitting flag, and how change, submit
// and reset move them.

module UseTaskForm {
  import opened Types
  import opened ValidationSchemas

  /**
   * The error map after live-validating `key` with `value`: the entry becomes
   * "" on success or the first issue's message on failure. When the name
   * selects no field the parse throws a TypeError, which the hook ignores.
   */
  function LiveErrors(errors: map<string, string>, key: string, value: string, parsesDate: DateParser)
    : (r: map<string, string>)
    ensures forall k :: k != key ==> (k in r <==> k in errors) && (k in errors ==> r[k] == errors[k])
    ensures FieldNamed(key).None? ==> r == errors
    ensures FieldNamed(key).Some? ==> key in r && (r[key] == "" <==> Accepts(FieldNamed(key).value, value, parsesDate))
  {
    match FieldNamed(key)
    case None => errors
    case Some(f) =>
      var issues := FieldParseIssues(f, value, parsesDate);
      if issues == [] then errors[key := ""]
      else
        IssuesAtTagged(f, FieldIssues(f, value, parsesDate), key);
        FindIsFirst(issues, key);
        match Find(issues, key)
        case Some(m) => errors[key := m]
        case None => errors
  }

  /** The hook's copy of validateField writes what the shared helper returns. */
  lemma LiveErrorsAgreesWithHelper(errors: map<string, string>, key: string, value: string, parsesDate: DateParser)
    requires FieldNamed(key).Some?
    ensures LiveErrors(errors, key, value, parsesDate)[key] == ValidateField(key, value, parsesDate)
  {
    var f := FieldNamed(key).value;
    IssuesAtTagged(f, FieldIssues(f, value, parsesDate), key);
    FindIsFirst(FieldParseIssues(f, value, parsesDate), key);
  }

  /**
   * `errors` is the map the overwriting loop builds from `issues`: a key for
   * every path reported, holding the last message reported there.
   */
  ghost predicate ErrorsFrom(errors: map<string, string>, issues: seq<Issue>)
  {
    forall k :: (k in errors <==> LastIssueFor(issues, k).Some?)
                && (k in errors ==> LastIssueFor(issues, k) == Some(errors[k]))
  }

  /** At most one map is built from a list of issues. */
  lemma ErrorsFromUnique(m1: map<string, string>, m2: map<string, string>, issues: seq<Issue>)
    requires ErrorsFrom(m1, issues) && ErrorsFrom(m2, issues)
    ensures m1 == m2
  {
    assert m1.Keys == m2.Keys;
    forall k | k in m1 ensures m1[k] == m2[k] {
      assert LastIssueFor(issues, k) == Some(m1[k]) == Some(m2[k]);
    }
  }

  /** The overwriting loop: each issue in turn writes its message at its path, so a later issue replaces an earlier one. */
  method CollectErrors(issues: seq<Issue>) returns (errors: map<string, string>)
    ensures ErrorsFrom(errors, issues)
  {
    errors := map[];
    var i := 0;
    while i < |issues|
      invariant 0 <= i <= |issues|
      invariant ErrorsFrom(errors, issues[..i])
    {
      assert issues[..i + 1][..i] == issues[..i];
      errors := errors[issues[i].path := issues[i].message];
      i := i + 1;
    }
    assert issues[..i] == issues;
  }

  /** A map built from a failed whole-form parse holds a non-empty message. */
  lemma {:induction false} RejectedFormHasMessage(errors: map<string, string>, issues: seq<Issue>)
    requires issues != [] && AllWellFormed(issues) && ErrorsFrom(errors, issues)
    ensures exists k :: k in errors && errors[k] != ""
  {
    var last := issues[|issues| - 1];
    assert LastIssueFor(issues, last.path) == Some(last.message);
    assert WellFormed(last);
    assert last.path in errors && errors[last.path] != "";
  }

  /** The useTaskForm hook's state. */
  class TaskForm {
    var formData: TaskFormData
    var errors: map<string, string>
    var isSubmitting: bool
    /** `new Date(val)`'s verdict, as the schema's refinement sees it. */
    const parsesDate: DateParser

    constructor (parsesDate: DateParser)
      ensures formData == InitialForm && errors == map[] && !isSubmitting
      ensures this.parsesDate == parsesDate
    {
      formData := InitialForm;
      errors := map[];
      isSubmitting := false;
      this.parsesDate := parsesDate;
    }

    /** validateField: reports success, and records its verdict in `errors`. */
    method ValidateField(key: string, value: string) returns (ok: bool)
      modifies this`errors
      ensures ok <==> FieldNamed(key).Some? && Accepts(FieldNamed(key).value, value, parsesDate)
      ensures errors == LiveErrors(old(errors), key, value, parsesDate)
    {
      errors := LiveErrors(errors, key, value, parsesDate);
      ok := FieldNamed(key).Some? && FieldParseIssues(FieldNamed(key).value, value, parsesDate) == [];
    }

    /** handleChange: store the input's value under its name, then live-validate it. */
    method HandleChange(f: Field, value: string)
      modifies this`formData, this`errors
      ensures formData == WithField(old(formData), f, value)
      ensures errors == LiveErrors(old(errors), Key(f), value, parsesDate)
    {
      formData := WithField(formData, f, value);
      var _ := ValidateField(Key(f), value);
    }

    /**
     * handleSubmit up to the request: set the flag, parse the whole form; on a
     * ZodError replace `errors` and clear the flag without sending anything,
     * otherwise return the body to POST with the flag still set.
     */
    method BeginSubmit() returns (request: Option<NewTask>)
      modifies this`errors, this`isSubmitting
      ensures request.Some? <==> FormAccepted(formData, parsesDate)
      ensures request.Some? ==> Valid(request.value) == ParseTask(formData, parsesDate)
      ensures request.Some? ==> isSubmitting && errors == old(errors)
      ensures request.None? ==> !isSubmitting && ErrorsFrom(errors, FormIssues(formData, parsesDate))
    {
      isSubmitting := true;
      var parsed := ParseTask(formData, parsesDate);
      match parsed
      case Valid(task) =>
        request := Some(task);
      case Invalid(issues) =>
        errors := CollectErrors(issues);
        isSubmitting := false;
        request := None;
    }

    /**
     * handleSubmit after the response: an ok response resets the form and asks
     * for onSuccess; a 401 or any other failure is only logged. The flag is
     * cleared whatever happened.
     */
    method CompleteSubmit(response: Response<()>) returns (onSuccess: bool)
      modifies this`formData, this`errors, this`isSubmitting
      ensures !isSubmitting
      ensures onSuccess <==> response.Ok?
      ensures response.Ok? ==> formData == InitialForm && errors == map[]
      ensures !response.Ok? ==> formData == old(formData) && errors == old(errors)
    {
      onSuccess := false;
      if response.Ok? {
        ResetForm();
        onSuccess := true;
      }
      isSubmitting := false;
    }

    /** resetForm: the initial values and no errors; the flag is left alone. */
    method ResetForm()
      modifies this`formData, this`errors
      ensures formData == InitialForm && errors == map[]
    {
      formData := InitialForm;
      errors := map[];
    }
  }
}
