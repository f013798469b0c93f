// The CreateTaskForm modal (src/components/dashboard/CreateTaskForm.tsx): its
// own copy of the schema and of the hook's validate/change/submit logic, the
// callbacks it fires on success, and the rule that disables its submit button.

module CreateTaskForm {
  import opened Types
  import opened ValidationSchemas
  import opened UseTaskForm

  /**
   * The submit button is disabled while a submit is in flight or while some
   * field's error entry holds a message; cleared entries hold "" and do not
   * disable it.
   */
  function SubmitDisabled(isSubmitting: bool, errors: map<string, string>): (r: bool)
    ensures r <==> isSubmitting || exists k :: k in errors && errors[k] != ""
  {
    var some := exists v :: v in errors.Values && v != "";
    assert some ==> exists k :: k in errors && errors[k] != "";
    assert (exists k :: k in errors && errors[k] != "") ==> some by {
      if k :| k in errors && errors[k] != "" {
        assert errors[k] in errors.Values;
      }
    }
    isSubmitting || some
  }

  /** After a submit the schema rejected, the button stays disabled until the errors are fixed. */
  lemma RejectedSubmitDisables(d: TaskFormData, parsesDate: DateParser, errors: map<string, string>)
    requires !FormAccepted(d, parsesDate)
    requires ErrorsFrom(errors, FormIssues(d, parsesDate))
    ensures SubmitDisabled(false, errors)
  {
    RejectedFormHasMessage(errors, FormIssues(d, parsesDate));
  }

  /** The props the modal calls back, in the order it calls them. */
  datatype Callback = OnClose | OnTaskCreated

  /** The CreateTaskForm component's state. */
  class CreateTaskForm {
    var formData: TaskFormData
    var errors: map<string, string>
    var isSubmitting: bool
    const parsesDate: DateParser

    constructor (parsesDate: DateParser)
      ensures formData == InitialForm && errors == map[] && !isSubmitting
      ensures this.parsesDate == parsesDate
    {
      formData := InitialForm;
      errors := map[];
      isSubmitting := false;
      this.parsesDate := parsesDate;
    }

    /** The component's validateField: same verdict and same effect as the hook's. */
    method ValidateField(key: string, value: string) returns (ok: bool)
      modifies this`errors
      ensures ok <==> FieldNamed(key).Some? && Accepts(FieldNamed(key).value, value, parsesDate)
      ensures errors == LiveErrors(old(errors), key, value, parsesDate)
    {
      errors := LiveErrors(errors, key, value, parsesDate);
      ok := FieldNamed(key).Some? && FieldParseIssues(FieldNamed(key).value, value, parsesDate) == [];
    }

    /** handleChange: copy the form with the named field replaced, then live-validate that field. */
    method HandleChange(f: Field, value: string)
      modifies this`formData, this`errors
      ensures formData == WithField(old(formData), f, value)
      ensures errors == LiveErrors(old(errors), Key(f), value, parsesDate)
    {
      formData := WithField(formData, f, value);
      var _ := ValidateField(Key(f), value);
    }

    /**
     * handleSubmit up to the request: on a ZodError the error map is rebuilt by
     * the overwriting loop and nothing is sent; otherwise the body is returned
     * and the flag stays set while the request is in flight.
     */
    method BeginSubmit() returns (request: Option<NewTask>)
      modifies this`errors, this`isSubmitting
      ensures request.Some? <==> FormAccepted(formData, parsesDate)
      ensures request.Some? ==> Valid(request.value) == ParseTask(formData, parsesDate)
      ensures request.Some? ==> isSubmitting && errors == old(errors)
      ensures request.None? ==> !isSubmitting && ErrorsFrom(errors, FormIssues(formData, parsesDate))
    {
      isSubmitting := true;
      var parsed := ParseTask(formData, parsesDate);
      match parsed
      case Valid(task) =>
        request := Some(task);
      case Invalid(issues) =>
        errors := CollectErrors(issues);
        isSubmitting := false;
        request := None;
    }

    /**
     * handleSubmit after the response: on ok, empty the form and the errors,
     * then call onClose and onTaskCreated; a 401 or another failure changes
     * nothing but the flag, which is cleared on every path.
     */
    method CompleteSubmit(response: Response<()>) returns (calls: seq<Callback>)
      modifies this`formData, this`errors, this`isSubmitting
      ensures !isSubmitting
      ensures calls == if response.Ok? then [OnClose, OnTaskCreated] else []
      ensures response.Ok? ==> formData == InitialForm && errors == map[]
      ensures !response.Ok? ==> formData == old(formData) && errors == old(errors)
    {
      calls := [];
      if response.Ok? {
        formData := InitialForm;
        errors := map[];
        calls := [OnClose, OnTaskCreated];
      }
      isSubmitting := false;
    }
  }
}
