/** `addTodoSchema` and `validateAddTodoData`: name and priority required, priority not range-checked. */
module TodosValidation {
  import opened Schema

  const NameField := "todoName"
  const PriorityField := "todoPriority"
  const Required := "Required"

  /** `todoName: z.string().min(1, 'Required')`; `todoPriority` has the same rule. */
  const RequiredChecks := [Min(1, Required)]

  /** The add-todo form as validated: the name and the priority as submitted text. */
  datatype AddTodoData = AddTodoData(todoName: string, todoPriority: string)

  /** `addTodoSchema.safeParse(data).success` */
  predicate Valid(data: AddTodoData)
  {
    Messages(RequiredChecks, data.todoName) == [] && Messages(RequiredChecks, data.todoPriority) == []
  }

  /** `error.flatten().fieldErrors` of `addTodoSchema.safeParse(data)`. */
  function FieldErrorsOf(data: AddTodoData): (r: FieldErrors)
    ensures r.Keys <= {NameField, PriorityField}
    ensures NameField in r <==> data.todoName == ""
    ensures PriorityField in r <==> data.todoPriority == ""
    ensures NameField in r ==> r[NameField] == [Required]
    ensures PriorityField in r ==> r[PriorityField] == [Required]
    ensures r == map[] <==> Valid(data)
  {
    Utf16LengthBounds(data.todoName);
    Utf16LengthBounds(data.todoPriority);
    MessagesOfOne(Min(1, Required), data.todoName);
    MessagesOfOne(Min(1, Required), data.todoPriority);
    Put(Put(map[], NameField, Messages(RequiredChecks, data.todoName)),
        PriorityField, Messages(RequiredChecks, data.todoPriority))
  }

  /** `validateAddTodoData(data)`: empty field errors exactly when both fields are filled in. */
  function ValidateAddTodoData(data: AddTodoData): (r: Validation)
    ensures r.validationErrors.fieldErrors == FieldErrorsOf(data)
    ensures r.validationErrors.fieldErrors == map[] <==> data.todoName != "" && data.todoPriority != ""
  {
    Validation(BaseValidation(if Valid(data) then map[] else FieldErrorsOf(data)))
  }

  /** The priority is text with no range check: `7` passes. */
  lemma PriorityNotRangeChecked(name: string)
    requires name != ""
    ensures ValidateAddTodoData(AddTodoData(name, "7")).validationErrors.fieldErrors == map[]
  {
  }
}
