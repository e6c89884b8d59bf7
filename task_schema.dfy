/** The request schemas of the task routes, as rule data for the
    validator, and what each of them accepts. */
module TaskSchema {
  import opened JsValues
  import opened Patterns
  import opened Validator

  const Priorities := ["low", "medium", "high"]

  const TitleRule := Rule("string", Some(1), Some(100), None, None, None, None, [])
  const DescriptionRule := Rule("string", None, Some(500), None, None, None, None, [])
  const CompletedRule := TypeRule("boolean")
  const CategoryRule := Rule("string", None, Some(50), None, None, None, None, [])
  const DueDateRule := Rule("string", None, None, None, None, Some(IsoDatePattern), Some("Due date must be a valid ISO date string"), [])
  const PriorityRule := Rule("string", None, None, None, None, None, None, Priorities)
  const TaskIdRule := Rule("string", None, None, None, None, Some(ObjectIdPattern), Some("Task ID must be a valid MongoDB ObjectId"), [])

  const TaskBodyProperties := [("title", TitleRule), ("description", DescriptionRule), ("completed", CompletedRule),
                               ("category", CategoryRule), ("dueDate", DueDateRule), ("priority", PriorityRule)]

  const CreateTaskBody := ObjectSchema(["title"], TaskBodyProperties)
  const UpdateTaskBody := ObjectSchema([], TaskBodyProperties)
  const TaskIdParams := ObjectSchema(["id"], [("id", TaskIdRule)])

  const QueryCompletedRule := Rule("string", None, None, None, None, None, None, ["true", "false"])
  const QueryCategoryRule := TypeRule("string")
  const QueryPriorityRule := Rule("string", None, None, None, None, None, None, Priorities)
  const SortRule := Rule("string", None, None, None, None, None, None,
                         ["createdAt", "-createdAt", "dueDate", "-dueDate", "title", "-title"])
  const PageRule := Rule("string", None, None, None, None, Some(DigitsPattern), Some("Page must be a positive integer"), [])
  const LimitRule := Rule("string", None, None, None, None, Some(DigitsPattern), Some("Limit must be a positive integer"), [])

  const GetTasksQuery := ObjectSchema([], [("completed", QueryCompletedRule), ("category", QueryCategoryRule),
                                           ("priority", QueryPriorityRule), ("sort", SortRule),
                                           ("page", PageRule), ("limit", LimitRule)])

  const CreateTaskSchema := Schema(Some(CreateTaskBody), None, None)
  const UpdateTaskSchema := Schema(Some(UpdateTaskBody), None, Some(TaskIdParams))
  const GetTaskSchema := Schema(None, None, Some(TaskIdParams))
  const DeleteTaskSchema := Schema(None, None, Some(TaskIdParams))
  const GetTasksSchema := Schema(None, Some(GetTasksQuery), None)

  /** A string field, when present. */
  predicate OptionalString(data: map<string, Value>, f: string) {
    Absent(data, f) || Get(data, f).Str?
  }

  /** The optional task fields: description up to 500 characters, a
      boolean completed flag, category up to 50 characters, an ISO date and
      any string as priority. */
  predicate OptionalTaskFields(body: map<string, Value>) {
    (Absent(body, "description") || StringWithin(body, "description", 0, 500)) &&
    (Absent(body, "completed") || Get(body, "completed").Bool?) &&
    (Absent(body, "category") || StringWithin(body, "category", 0, 50)) &&
    (Absent(body, "dueDate") || StringMatching(body, "dueDate", IsoDatePattern)) &&
    OptionalString(body, "priority")
  }

  lemma TitlePasses(body: map<string, Value>)
    ensures FieldPasses(body, "title", TitleRule) <==> Absent(body, "title") || StringWithin(body, "title", 1, 100)
  {
    StringRuleVerdict("title", TitleRule, Get(body, "title"));
  }

  lemma OptionalFieldsPass(body: map<string, Value>)
    ensures FieldPasses(body, "description", DescriptionRule) &&
            FieldPasses(body, "completed", CompletedRule) &&
            FieldPasses(body, "category", CategoryRule) &&
            FieldPasses(body, "dueDate", DueDateRule) &&
            FieldPasses(body, "priority", PriorityRule)
            <==> OptionalTaskFields(body)
  {
    BoundedStringPasses(body, "description", DescriptionRule, 500);
    BooleanRuleVerdict("completed", Get(body, "completed"));
    BoundedStringPasses(body, "category", CategoryRule, 50);
    StringRuleVerdict("dueDate", DueDateRule, Get(body, "dueDate"));
    StringRuleVerdict("priority", PriorityRule, Get(body, "priority"));
  }

  /** A 'string' rule with only a maximum length. */
  lemma BoundedStringPasses(body: map<string, Value>, f: string, rules: Rule, hi: int)
    requires rules == Rule("string", None, Some(hi), None, None, None, None, []) && hi > 0
    ensures FieldPasses(body, f, rules) <==> Absent(body, f) || StringWithin(body, f, 0, hi)
  {
    StringRuleVerdict(f, rules, Get(body, f));
  }

  /** A new task needs a title of 1 to 100 characters; every other field is optional. */
  lemma CreateTaskAccepts(body: map<string, Value>)
    ensures DataErrors(body, CreateTaskBody) == [] <==> StringWithin(body, "title", 1, 100) && OptionalTaskFields(body)
  {
    var s := CreateTaskBody;
    DataErrorsEmptyIff(body, s);
    TitlePasses(body);
    OptionalFieldsPass(body);
    PropertiesPass(body, s.properties);
    RequiredPresent(body, s.required);
  }

  /** An update body needs no field at all; a present title must still be 1 to 100 characters. */
  lemma UpdateTaskBodyAccepts(body: map<string, Value>)
    ensures DataErrors(body, UpdateTaskBody) == [] <==>
              (Absent(body, "title") || StringWithin(body, "title", 1, 100)) && OptionalTaskFields(body)
  {
    var s := UpdateTaskBody;
    DataErrorsEmptyIff(body, s);
    TitlePasses(body);
    OptionalFieldsPass(body);
    PropertiesPass(body, s.properties);
    RequiredPresent(body, s.required);
  }

  /** The declared priority list is not enforced: any string priority is
      accepted beside a valid title. */
  lemma PriorityEnumNotEnforced(body: map<string, Value>, priority: string)
    requires StringWithin(body, "title", 1, 100) && OptionalTaskFields(body)
    ensures DataErrors(body["priority" := Str(priority)], CreateTaskBody) == []
  {
    var b := body["priority" := Str(priority)];
    assert Get(b, "title") == Get(body, "title");
    assert Get(b, "description") == Get(body, "description");
    assert Get(b, "completed") == Get(body, "completed");
    assert Get(b, "category") == Get(body, "category");
    assert Get(b, "dueDate") == Get(body, "dueDate");
    CreateTaskAccepts(b);
  }

  /** A task id parameter must be exactly 24 hexadecimal digits. */
  lemma TaskIdAccepts(params: map<string, Value>)
    ensures DataErrors(params, TaskIdParams) == [] <==> StringMatching(params, "id", ObjectIdPattern)
  {
    var s := TaskIdParams;
    DataErrorsEmptyIff(params, s);
    StringRuleVerdict("id", TaskIdRule, Get(params, "id"));
    PropertiesPass(params, s.properties);
    RequiredPresent(params, s.required);
  }

  /** The accepted ids are exactly the 24-character hexadecimal strings. */
  lemma TaskIdIsTwentyFourHex(params: map<string, Value>)
    ensures DataErrors(params, TaskIdParams) == [] <==>
              Get(params, "id").Str? && |Get(params, "id").s| == 24 &&
              forall i :: 0 <= i < 24 ==> IsHexDigit(Get(params, "id").s[i])
  {
    TaskIdAccepts(params);
  }

  /** The list query takes only optional strings; page and limit must be
      non-empty digit strings, and the enums are not enforced. */
  lemma GetTasksAccepts(query: map<string, Value>)
    ensures DataErrors(query, GetTasksQuery) == [] <==>
              OptionalString(query, "completed") && OptionalString(query, "category") &&
              OptionalString(query, "priority") && OptionalString(query, "sort") &&
              (Absent(query, "page") || StringMatching(query, "page", DigitsPattern)) &&
              (Absent(query, "limit") || StringMatching(query, "limit", DigitsPattern))
  {
    var s := GetTasksQuery;
    DataErrorsEmptyIff(query, s);
    QueryStringsPass(query);
    QueryNumbersPass(query);
    PropertiesPass(query, s.properties);
    RequiredPresent(query, s.required);
  }

  lemma QueryStringsPass(query: map<string, Value>)
    ensures FieldPasses(query, "completed", QueryCompletedRule) && FieldPasses(query, "category", QueryCategoryRule) &&
            FieldPasses(query, "priority", QueryPriorityRule) && FieldPasses(query, "sort", SortRule)
            <==> OptionalString(query, "completed") && OptionalString(query, "category") &&
                 OptionalString(query, "priority") && OptionalString(query, "sort")
  {
    StringRuleVerdict("completed", QueryCompletedRule, Get(query, "completed"));
    StringRuleVerdict("category", QueryCategoryRule, Get(query, "category"));
    StringRuleVerdict("priority", QueryPriorityRule, Get(query, "priority"));
    StringRuleVerdict("sort", SortRule, Get(query, "sort"));
  }

  lemma QueryNumbersPass(query: map<string, Value>)
    ensures FieldPasses(query, "page", PageRule) && FieldPasses(query, "limit", LimitRule)
            <==> (Absent(query, "page") || StringMatching(query, "page", DigitsPattern)) &&
                 (Absent(query, "limit") || StringMatching(query, "limit", DigitsPattern))
  {
    StringRuleVerdict("page", PageRule, Get(query, "page"));
    StringRuleVerdict("limit", LimitRule, Get(query, "limit"));
  }

  /** A page number that is not a digit string draws the schema's message. */
  lemma BadPageReported(query: map<string, Value>, page: string)
    requires !IsDigits(page)
    ensures FieldError("page", "Page must be a positive integer") in DataErrors(query["page" := Str(page)], GetTasksQuery)
  {
    var q := query["page" := Str(page)];
    var props := GetTasksQuery.properties;
    assert props[..5][..4] == props[..4];
    assert props[..5][4] == ("page", PageRule);
    assert PropertyErrors(q, props[..5]) == PropertyErrors(q, props[..4]) + ValueErrors(q, "page", PageRule);
    assert FieldError("page", "Page must be a positive integer") in ValueErrors(q, "page", PageRule);
    assert props[..6] == props;
    assert props[..6][..5] == props[..5];
    assert PropertyErrors(q, props) == PropertyErrors(q, props[..5]) + ValueErrors(q, "limit", LimitRule);
  }

  /** A task body throws on a `null` title, description or category, the
      three fields with length bounds; a `null` due date or priority only
      draws errors. */
  lemma TaskBodyThrowsIff(body: map<string, Value>)
    ensures PropertiesThrow(body, TaskBodyProperties) <==>
              Get(body, "title").Null? || Get(body, "description").Null? || Get(body, "category").Null?
  {
    var p := TaskBodyProperties;
    if Get(body, "title").Null? {
      assert ReadsNullLength(p[0].1, Get(body, p[0].0));
    } else if Get(body, "description").Null? {
      assert ReadsNullLength(p[1].1, Get(body, p[1].0));
    } else if Get(body, "category").Null? {
      assert ReadsNullLength(p[3].1, Get(body, p[3].0));
    }
  }
}
