// The shapes shared by the task board's hooks, forms and stores (src/types/index.ts).

module Types {

  /** `T | null` and optional fields. */
  datatype Option<+T> = None | Some(value: T)

  /** ITask's status union, the three board columns. */
  datatype Status = Todo | InProgress | Done

  /** The string the API and the form use for a status. */
  function StatusKey(s: Status): string
  {
    match s
    case Todo => "TODO"
    case InProgress => "IN_PROGRESS"
    case Done => "DONE"
  }

  /** The status a string names, if it names one; the inverse of StatusKey. */
  function StatusNamed(key: string): (r: Option<Status>)
    ensures r.Some? ==> StatusKey(r.value) == key
    ensures r.None? ==> forall s: Status :: StatusKey(s) != key
  {
    if key == "TODO" then Some(Todo)
    else if key == "IN_PROGRESS" then Some(InProgress)
    else if key == "DONE" then Some(Done)
    else None
  }

  lemma StatusKeyRoundTrip(s: Status)
    ensures StatusNamed(StatusKey(s)) == Some(s)
  {
    match s
    case Todo =>
    case InProgress =>
      assert StatusKey(s) != "TODO";
    case Done =>
      assert StatusKey(s) != "TODO" && StatusKey(s) != "IN_PROGRESS";
  }

  datatype User = User(name: string, email: string)

  /** ITask: the id is assigned by the server, the owner is optional. */
  datatype Task = Task(
    id: Option<int>,
    name: string,
    description: string,
    status: Status,
    due_date: string,
    user: Option<User>)

  /**
   * How a request to the task API ended, as the hooks tell the cases apart:
   * `response.ok` with the decoded body, a 401, or anything else (another
   * status code, or a thrown error such as a network failure).
   */
  datatype Response<T> = Ok(data: T) | Unauthorized | Failed
}
