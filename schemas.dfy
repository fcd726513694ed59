/**
 * The form validation schemas (src/lib/schemas.ts), as functions from the form's fields to
 * the list of issues a parse reports. An object schema checks every field in declaration
 * order and collects one issue per failing field; a refinement on the whole object runs
 * after the field checks, also when they failed, because the fields are all strings.
 * Whether a string is an email address is decided by a predicate passed in.
 */
module Schemas {
  import opened Options
  import opened TodosApi
  import opened TodoFilters

  /** What went wrong with a field: a schema-supplied message or a built-in check. */
  datatype Problem =
    | Message(text: string)
    | Required
    | InvalidEnum(received: string)
    | TooSmall(minimum: int)
    | TooBig(maximum: int)

  /** One validation issue: the field it is reported on and what went wrong. */
  datatype Issue = Issue(path: string, problem: Problem)

  /** The outcome of parsing: the parsed value, or a non-empty list of issues. */
  datatype Parsed<T> = Valid(value: T) | Invalid(issues: seq<Issue>)

  const InvalidEmail := "Invalid email address"
  const ShortPassword := "Password must be at least 6 characters"
  const ShortName := "Name must be at least 2 characters"
  const PasswordsDiffer := "Passwords don't match"
  const TitleRequired := "Title is required"

  const Statuses: seq<string> := ["todo", "in_progress", "done"]
  const Priorities: seq<string> := ["low", "medium", "high"]
  const SortKeys: seq<string> := ["createdAt", "dueDate", "priority"]
  const SortOrders: seq<string> := ["asc", "desc"]

  /** The issue list of one check: empty when it passes, one issue when it fails. */
  function Check(ok: bool, path: string, problem: Problem): (issues: seq<Issue>)
    ensures issues == [] <==> ok
    ensures !ok ==> issues == [Issue(path, problem)]
  {
    if ok then [] else [Issue(path, problem)]
  }

  /** An optional enum field: absent, or one of the listed values. */
  predicate OneOf(o: Option<string>, options: seq<string>) {
    o.None? || o.value in options
  }

  function EnumCheck(path: string, o: Option<string>, options: seq<string>): (issues: seq<Issue>)
    ensures issues == [] <==> OneOf(o, options)
    ensures !OneOf(o, options) ==> issues == [Issue(path, InvalidEnum(o.value))]
  {
    if OneOf(o, options) then [] else [Issue(path, InvalidEnum(o.value))]
  }

  /** `loginSchema`: a valid email and a password of at least 6 characters. */
  function LoginIssues(email: string, password: string, isEmail: string -> bool): (issues: seq<Issue>)
    ensures issues == [] <==> isEmail(email) && |password| >= 6
    ensures Issue("email", Message(InvalidEmail)) in issues <==> !isEmail(email)
    ensures Issue("password", Message(ShortPassword)) in issues <==> |password| < 6
    ensures |issues| <= 2
  {
    Check(isEmail(email), "email", Message(InvalidEmail))
    + Check(|password| >= 6, "password", Message(ShortPassword))
  }

  /**
   * `registerSchema`: name of at least 2 characters, a valid email, a password of at least
   * 6 characters, and a confirmation equal to the password, reported on "confirmPassword"
   * after every field issue.
   */
  function RegisterIssues(name: string, email: string, password: string, confirmPassword: string,
                          isEmail: string -> bool): (issues: seq<Issue>)
    ensures issues == [] <==> |name| >= 2 && isEmail(email) && |password| >= 6 && password == confirmPassword
    ensures Issue("name", Message(ShortName)) in issues <==> |name| < 2
    ensures Issue("email", Message(InvalidEmail)) in issues <==> !isEmail(email)
    ensures Issue("password", Message(ShortPassword)) in issues <==> |password| < 6
    ensures Issue("confirmPassword", Message(PasswordsDiffer)) in issues <==> password != confirmPassword
    ensures password != confirmPassword ==> issues[|issues| - 1] == Issue("confirmPassword", Message(PasswordsDiffer))
  {
    Check(|name| >= 2, "name", Message(ShortName))
    + Check(isEmail(email), "email", Message(InvalidEmail))
    + Check(|password| >= 6, "password", Message(ShortPassword))
    + Check(password == confirmPassword, "confirmPassword", Message(PasswordsDiffer))
  }

  /** The fields of the todo form, each of which may be missing from the input. */
  datatype TodoFields = TodoFields(
    title: Option<string>,
    description: Option<string>,
    status: Option<string>,
    priority: Option<string>,
    tags: Option<seq<string>>,
    dueDate: Option<string>)

  /** The title check of `todoSchema`: present, and at least one character long. */
  function TitleCheck(title: Option<string>): (issues: seq<Issue>)
    ensures issues == [] <==> title.Some? && |title.value| >= 1
    ensures title.Some? && title.value == "" ==> issues == [Issue("title", Message(TitleRequired))]
  {
    if title.None? then [Issue("title", Required)]
    else Check(|title.value| >= 1, "title", Message(TitleRequired))
  }

  /**
   * `todoSchema`: a non-empty title, a status among todo/in_progress/done that defaults to
   * "todo", and an optional priority among low/medium/high. The parsed value is the request
   * the form submits, with the status filled in.
   */
  function TodoParsed(f: TodoFields): (r: Parsed<CreateTodoRequest>)
    ensures r.Valid? <==> f.title.Some? && f.title.value != "" && OneOf(f.status, Statuses)
                          && OneOf(f.priority, Priorities)
    ensures r.Valid? ==> r.value == CreateTodoRequest(f.title.value, f.description,
                                                      Some(f.status.GetOr("todo")), f.priority,
                                                      f.tags, f.dueDate)
    ensures r.Invalid? ==> |r.issues| > 0
    ensures r.Invalid? && f.title == Some("") ==> r.issues[0] == Issue("title", Message(TitleRequired))
  {
    var issues := TitleCheck(f.title) + EnumCheck("status", f.status, Statuses)
                  + EnumCheck("priority", f.priority, Priorities);
    if issues == [] then
      Valid(CreateTodoRequest(f.title.value, f.description, Some(f.status.GetOr("todo")), f.priority,
                              f.tags, f.dueDate))
    else Invalid(issues)
  }

  /**
   * `todoUpdateSchema`, the partial todo schema: every field may be missing, present fields
   * are checked as in `todoSchema`, and a missing status stays missing.
   */
  function TodoUpdateParsed(f: TodoFields): (r: Parsed<TodoFields>)
    ensures r.Valid? <==> (f.title.None? || f.title.value != "") && OneOf(f.status, Statuses)
                          && OneOf(f.priority, Priorities)
    ensures r.Valid? ==> r.value == f
    ensures r.Invalid? ==> |r.issues| > 0
  {
    var issues := (if f.title.None? then [] else TitleCheck(f.title))
                  + EnumCheck("status", f.status, Statuses)
                  + EnumCheck("priority", f.priority, Priorities);
    if issues == [] then Valid(f) else Invalid(issues)
  }

  /**
   * The partial schema accepts everything the full one accepts, and more: a form without a
   * title. What it yields differs from the full schema's only in the status default.
   */
  lemma UpdateAcceptsMore(f: TodoFields)
    ensures TodoParsed(f).Valid? ==> TodoUpdateParsed(f).Valid?
    ensures f.title.None? && OneOf(f.status, Statuses) && OneOf(f.priority, Priorities)
            ==> TodoParsed(f).Invalid? && TodoUpdateParsed(f).Valid?
    ensures TodoUpdateParsed(f).Valid? && f.status.None? ==> TodoUpdateParsed(f).value.status.None?
  {
  }

  /** The input of `todoFiltersSchema`: every field optional. */
  datatype FiltersFields = FiltersFields(
    status: Option<string>,
    search: Option<string>,
    sortBy: Option<string>,
    sortOrder: Option<string>,
    page: Option<int>,
    limit: Option<int>)

  /**
   * `todoFiltersSchema`: enums for status, sortBy and sortOrder, any search text, page at
   * least 1, limit between 1 and 100.
   */
  function FiltersIssues(f: FiltersFields): (issues: seq<Issue>)
    ensures issues == [] <==> OneOf(f.status, Statuses) && OneOf(f.sortBy, SortKeys)
                              && OneOf(f.sortOrder, SortOrders)
                              && (f.page.None? || f.page.value >= 1)
                              && (f.limit.None? || 1 <= f.limit.value <= 100)
    ensures f.sortBy == Some("order") ==> Issue("sortBy", InvalidEnum("order")) in issues
  {
    EnumCheck("status", f.status, Statuses)
    + EnumCheck("sortBy", f.sortBy, SortKeys)
    + EnumCheck("sortOrder", f.sortOrder, SortOrders)
    + (if f.page.None? then [] else Check(f.page.value >= 1, "page", TooSmall(1)))
    + (if f.limit.None? then [] else Check(f.limit.value >= 1, "limit", TooSmall(1))
                                     + Check(f.limit.value <= 100, "limit", TooBig(100)))
  }

  /** The filter record the list page keeps, with every field present. */
  function FieldsOf(f: Filters): (r: FiltersFields)
    ensures r.page == Some(f.page) && r.limit == Some(f.limit) && r.status == Some(f.status)
    ensures r.search == Some(f.search) && r.sortBy == Some(f.sortBy) && r.sortOrder == Some(f.sortOrder)
  {
    FiltersFields(Some(f.status), Some(f.search), Some(f.sortBy), Some(f.sortOrder), Some(f.page), Some(f.limit))
  }

  /**
   * The schema does not describe the filters the page actually uses: the reset record, with
   * its empty status and its sort key "order", fails it on both fields.
   */
  lemma ResetFiltersRejected()
    ensures FiltersIssues(FieldsOf(ResetFilters))
            == [Issue("status", InvalidEnum("")), Issue("sortBy", InvalidEnum("order"))]
  {
    assert "" !in Statuses;
    assert "order" !in SortKeys;
    assert "asc" in SortOrders;
  }

  /** An empty login form reports both issues, email first. */
  lemma EmptyLoginForm(isEmail: string -> bool)
    requires !isEmail("")
    ensures LoginIssues("", "", isEmail)
            == [Issue("email", Message(InvalidEmail)), Issue("password", Message(ShortPassword))]
  {
  }

  /**
   * An empty registration form reports name, email and password but not the confirmation,
   * since two empty passwords match; a well-formed form whose passwords differ reports only
   * the mismatch.
   */
  lemma RegisterForms(isEmail: string -> bool, email: string)
    requires !isEmail("") && isEmail(email)
    ensures RegisterIssues("", "", "", "", isEmail)
            == [Issue("name", Message(ShortName)), Issue("email", Message(InvalidEmail)),
                Issue("password", Message(ShortPassword))]
    ensures RegisterIssues("John Doe", email, "password123", "different123", isEmail)
            == [Issue("confirmPassword", Message(PasswordsDiffer))]
  {
  }
}
