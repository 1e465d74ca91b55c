/**
  The validation state of the generic record form (src/crud-ui/SimpleForm.tsx):
  the required-field check, the initial input, the merge of client and server
  field errors, and the `onUpdate` / `onSubmit` handlers as methods on the
  form's three pieces of state.
 */
module SimpleForm {
  import opened Js

  /** A field's setup. Only `required` takes part in validation; `spec` only renders. */
  datatype FieldSetup = FieldSetup(required: bool)

  /** The form's field setup, in the order `Object.entries` enumerates it. */
  type FieldSetupMap = Obj<FieldSetup>

  /** The raw form input: field name -> text. */
  type RawInput = map<string, string>

  /** Field name -> message to show under that field. */
  type FieldErrors = map<string, string>

  /** `input[key] ?? ''` */
  function InputAt(input: RawInput, key: string): string {
    if key in input then input[key] else ""
  }

  /** The condition under which `getEmptyError` flags `key`. */
  predicate Flagged(fields: map<string, FieldSetup>, input: RawInput, key: string) {
    key in fields && fields[key].required && IsBlankText(InputAt(input, key))
  }

  /** The `reduce` in `getEmptyError`, over the setup entries whose keys are listed in `keys`. */
  function EmptyErrorsOver(keys: seq<string>, fields: map<string, FieldSetup>, input: RawInput): (acc: FieldErrors)
    ensures forall k :: k in acc <==> k in keys && Flagged(fields, input, k)
    ensures forall k | k in acc :: acc[k] == k + " is required"
  {
    if keys == [] then map[]
    else
      var acc := EmptyErrorsOver(keys[..|keys| - 1], fields, input);
      var key := keys[|keys| - 1];
      if Flagged(fields, input, key) then
        acc[key := key + " is required"]
      else acc
  }

  /**
    `getEmptyError`: flags exactly the required fields of the setup whose input is
    missing or blank after trimming, each with "<key> is required". Input keys the
    setup does not list are never looked at.
   */
  function GetEmptyError(input: RawInput, setup: FieldSetupMap): (errors: FieldErrors)
    ensures forall k :: k in errors <==> k in setup.keys && Flagged(setup.entries, input, k)
    ensures forall k | k in errors :: errors[k] == k + " is required"
  {
    EmptyErrorsOver(setup.keys, setup.entries, input)
  }

  /** Changing an input the setup does not list never changes the errors. */
  lemma EmptyErrorIgnoresUnlistedInput(input: RawInput, setup: FieldSetupMap, key: string, text: string)
    requires key !in setup.keys
    ensures GetEmptyError(input[key := text], setup) == GetEmptyError(input, setup)
  {
    var before, after := GetEmptyError(input, setup), GetEmptyError(input[key := text], setup);
    forall k | k in setup.keys ensures InputAt(input[key := text], k) == InputAt(input, k) {
    }
    assert before.Keys == after.Keys;
  }

  /** The `reduce` that maps every listed key to the empty string. */
  function BlankInput(keys: seq<string>): (input: RawInput)
    ensures forall k :: k in input <==> k in keys
    ensures forall k | k in input :: input[k] == ""
  {
    if keys == [] then map[] else BlankInput(keys[..|keys| - 1])[keys[|keys| - 1] := ""]
  }

  /** The initial input: `initialData` when given, otherwise every setup key mapped to ''. */
  function InitialInput(initialData: Option<RawInput>, setup: FieldSetupMap): (input: RawInput)
    ensures initialData.Some? ==> input == initialData.value
    ensures initialData.None? ==> forall k :: k in input <==> k in setup.keys
    ensures initialData.None? ==> forall k | k in input :: input[k] == ""
  {
    match initialData
    case Some(data) => data
    case None => BlankInput(setup.keys)
  }

  /** `{ ...fieldErrors, ...mutateFieldErrors }`: a server message wins over a client one. */
  function CombinedFieldErrors(fieldErrors: FieldErrors, mutateFieldErrors: FieldErrors): (combined: FieldErrors)
    ensures forall k :: k in combined <==> k in fieldErrors || k in mutateFieldErrors
    ensures forall k | k in mutateFieldErrors :: combined[k] == mutateFieldErrors[k]
    ensures forall k | k in fieldErrors && k !in mutateFieldErrors :: combined[k] == fieldErrors[k]
  {
    fieldErrors + mutateFieldErrors
  }

  /** `hasFieldError()`: there is an error to show exactly when the combined errors are not empty. */
  function HasFieldError(fieldErrors: FieldErrors, mutateFieldErrors: FieldErrors): (b: bool)
    ensures b <==> CombinedFieldErrors(fieldErrors, mutateFieldErrors) != map[]
  {
    var b := |fieldErrors| > 0 || |mutateFieldErrors| > 0;
    assert !b ==> fieldErrors == map[] && mutateFieldErrors == map[];
    b
  }

  /**
    The form's state (`input`, `fieldErrors`, `mutateFieldErrors`) and the inputs handed
    to the mutation so far, in order (`submitted`), in place of calling the server.
   */
  class Form {
    const setup: FieldSetupMap
    var input: RawInput
    var fieldErrors: FieldErrors
    var mutateFieldErrors: FieldErrors
    var submitted: seq<RawInput>

    /** No input with a missing or blank required field is ever submitted. */
    ghost predicate Valid()
      reads this
    {
      forall i | 0 <= i < |submitted| :: GetEmptyError(submitted[i], setup) == map[]
    }

    constructor (setup: FieldSetupMap, initialData: Option<RawInput>)
      ensures Valid()
      ensures this.setup == setup && input == InitialInput(initialData, setup)
      ensures fieldErrors == map[] && mutateFieldErrors == map[] && submitted == []
    {
      this.setup := setup;
      input := InitialInput(initialData, setup);
      fieldErrors := map[];
      mutateFieldErrors := map[];
      submitted := [];
    }

    /**
      `onUpdate`: one field takes the new text and the others keep theirs; server errors
      are cleared and the client errors are recomputed from the new input.
     */
    method OnUpdate(name: string, text: string)
      requires Valid()
      modifies this
      ensures Valid()
      ensures input == old(input)[name := text]
      ensures mutateFieldErrors == map[]
      ensures fieldErrors == GetEmptyError(input, setup)
      ensures submitted == old(submitted)
    {
      var newInput := input[name := text];
      input := newInput;
      mutateFieldErrors := map[];
      fieldErrors := GetEmptyError(newInput, setup);
    }

    /**
      `onSubmit`: recomputes and stores the client errors; the input is submitted only
      when there are none.
     */
    method OnSubmit()
      requires Valid()
      modifies this
      ensures Valid()
      ensures input == old(input) && mutateFieldErrors == old(mutateFieldErrors)
      ensures fieldErrors == GetEmptyError(input, setup)
      ensures submitted == if fieldErrors == map[] then old(submitted) + [input] else old(submitted)
    {
      var error := GetEmptyError(input, setup);
      fieldErrors := error;
      if |error| > 0 {
        return;
      }
      submitted := submitted + [input];
    }

    /** The effect that stores the field errors of a failed mutation's response. */
    method ReceiveMutationErrors(responseFieldErrors: FieldErrors)
      requires Valid()
      modifies this
      ensures Valid()
      ensures mutateFieldErrors == responseFieldErrors
      ensures input == old(input) && fieldErrors == old(fieldErrors) && submitted == old(submitted)
    {
      mutateFieldErrors := responseFieldErrors;
    }
  }
}
