/**
 * The option rule of the select widget (components/SelectInput.tsx): which
 * options are recognised as `{ value, label }` objects, and which value,
 * key and text each rendered `<option>` gets. The value is what `onChange`
 * later stores in the form, so it is what the prompt assembler reads.
 */
module SelectInput {
  import opened JsStrings

  /** The JavaScript values an options array may hold, as far as the mapping
      can tell them apart. An object's own properties map names to strings. */
  datatype JsValue =
    | JsString(s: string)
    | JsNull
    | JsObject(props: map<string, string>)
    | JsOther

  /** The exception a failing option raises while rendering. */
  datatype Error = TypeError

  datatype Result<T> = Ok(value: T) | Err(error: Error)

  /** One rendered `<option>`: its React key, its stored value, its text. */
  datatype RenderedOption = RenderedOption(key: string, value: string, text: string)

  /** `isOptionObject`: a non-null object that has both a `value` and a
      `label` property. */
  predicate IsOptionObject(option: JsValue) {
    option.JsObject? && "value" in option.props && "label" in option.props
  }

  /** A string option that stands for "nothing chosen": `"None"` or a prompt
      starting with `"Pilih"`. */
  predicate IsPlaceholder(option: string) {
    option == "None" || "Pilih" <= option
  }

  /** The value a string option stores: the empty string for a placeholder,
      the option itself otherwise. */
  function StoredValue(option: string): (r: string)
    ensures r == "" || r == option
    ensures IsPlaceholder(option) ==> r == ""
    ensures !IsPlaceholder(option) ==> r == option
  {
    if option == "None" || "Pilih" <= option then "" else option
  }

  /** The body of `options.map`: an option object renders its `value` and
      `label`; any other value goes down the string branch, where anything
      but a string has no `startsWith` and throws. */
  function RenderOption(option: JsValue): (r: Result<RenderedOption>)
    ensures r.Ok? <==> option.JsString? || IsOptionObject(option)
    ensures IsOptionObject(option) ==>
      r == Ok(RenderedOption(option.props["value"], option.props["value"], option.props["label"]))
    ensures option.JsString? ==>
      r.Ok? && r.value.key == option.s && r.value.text == option.s && r.value.value == StoredValue(option.s)
  {
    if IsOptionObject(option) then
      Ok(RenderedOption(option.props["value"], option.props["value"], option.props["label"]))
    else if option.JsString? then
      Ok(RenderedOption(option.s, StoredValue(option.s), option.s))
    else
      Err(TypeError)
  }

  /** `options.map(...)`: one rendered option per input option, in order, or
      the exception of the first option that fails. */
  function RenderOptions(options: seq<JsValue>): (r: Result<seq<RenderedOption>>)
    ensures r.Ok? <==> forall i :: 0 <= i < |options| ==> RenderOption(options[i]).Ok?
    ensures r.Ok? ==> |r.value| == |options|
    ensures r.Ok? ==> forall i :: 0 <= i < |options| ==> RenderOption(options[i]) == Ok(r.value[i])
  {
    if options == [] then Ok([])
    else
      match RenderOption(options[0])
      case Err(e) => Err(e)
      case Ok(first) =>
        match RenderOptions(options[1..])
        case Err(e) => Err(e)
        case Ok(rest) => Ok([first] + rest)
  }

  /** A chosen option stores a blank value, so the assembler leaves its
      clause out, exactly when it is a placeholder or blank itself. */
  lemma StoredValueBlank(option: string)
    ensures Blank(StoredValue(option)) <==> IsPlaceholder(option) || Blank(option)
  {
  }

  /** An option object stores its `value` whatever its label says. */
  lemma ObjectValueIgnoresLabel(option: JsValue, newLabel: string)
    requires IsOptionObject(option)
    ensures RenderOption(JsObject(option.props["label" := newLabel])).Ok?
    ensures RenderOption(JsObject(option.props["label" := newLabel])).value.value
      == RenderOption(option).value.value
  {
  }
}
