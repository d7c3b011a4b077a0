/** Shared vocabulary of the form components: optional values, the
    create/update action a form hands to its `onSubmit` callback, and the
    zod rules that several schemas use. */
module Forms {

  /** A value that may be missing (`undefined` in the form state). */
  datatype Option<T> = None | Some(value: T)

  /** What a create/update form passes to `onSubmit`: `{update: true, data}`
      with the changed fields only, or `{update: false, data}` with the whole
      validated record. */
  datatype SubmitAction<Full, Dirty> = Update(dirty: Dirty) | Create(data: Full)

  /** zod's `z.string().min(1)`. */
  predicate NonEmpty(s: string) {
    |s| >= 1
  }

  /** The `_onSubmit` shape shared by the employee, client, loan and contact
      forms. `getDirtyValues` is the project's own helper, which is not part
      of this model: it is a parameter, applied to the form's dirty-field
      record exactly as the forms apply it. */
  function Dispatch<Full, DirtyFields, Dirty>(
    isUpdate: bool, data: Full, dirtyFields: DirtyFields,
    getDirtyValues: (DirtyFields, Full) -> Dirty): (a: SubmitAction<Full, Dirty>)
    ensures a.Update? <==> isUpdate
    ensures a.Create? ==> a.data == data
    ensures a.Update? ==> a.dirty == getDirtyValues(dirtyFields, data)
  {
    if isUpdate then Update(getDirtyValues(dirtyFields, data)) else Create(data)
  }
}
