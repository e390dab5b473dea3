/**
 * The JSON prompt editor (src/components/PromptEditor.tsx): the structural check of
 * a prompt configuration, the three built-in templates, and the editor's text and
 * validity state.
 */
module PromptEditor {
  import opened Wrappers
  import opened Json

  // ---------------------------------------------------------------------------
  // Structural check
  // ---------------------------------------------------------------------------

  /** The three warnings, in the order they are pushed. */
  datatype Warning = MissingSystemPrompt | MissingExtractionPrompt | InvalidRequiredFields

  /** The text shown for each warning. */
  function Message(w: Warning): string {
    match w
    case MissingSystemPrompt => "Missing system_prompt"
    case MissingExtractionPrompt => "Missing extraction_prompt"
    case InvalidRequiredFields => "Missing or invalid required_fields array"
  }

  /** The position of each warning in the checking order. */
  function Rank(w: Warning): nat {
    match w
    case MissingSystemPrompt => 0
    case MissingExtractionPrompt => 1
    case InvalidRequiredFields => 2
  }

  /** Reading a property of `null` throws a TypeError. */
  datatype TypeError = PropertyOfNull

  /** `Array.isArray(v.key)`. */
  predicate IsArrayProperty(p: Option<Json>) {
    p.Some? && p.value.JArray?
  }

  /**
   * Lines 63-77 as written: a falsy `system_prompt` or `extraction_prompt` and a
   * missing or non-array `required_fields` each add their warning, in that order;
   * on `null` the first property read throws.
   */
  function ValidatePromptStructure(prompts: Json): (r: Result<seq<Warning>, TypeError>)
    ensures r.Err? <==> prompts.JNull?
    ensures r.Ok? ==> (MissingSystemPrompt in r.value <==> !IsTruthyProperty(Property(prompts, "system_prompt")))
    ensures r.Ok? ==> (MissingExtractionPrompt in r.value <==> !IsTruthyProperty(Property(prompts, "extraction_prompt")))
    ensures r.Ok? ==> (InvalidRequiredFields in r.value <==> !IsArrayProperty(Property(prompts, "required_fields")))
    ensures r.Ok? ==> |r.value| <= 3 && forall i, j :: 0 <= i < j < |r.value| ==> Rank(r.value[i]) < Rank(r.value[j])
  {
    if prompts.JNull? then Err(PropertyOfNull)
    else
      var system := Property(prompts, "system_prompt");
      var extraction := Property(prompts, "extraction_prompt");
      var fields := Property(prompts, "required_fields");
      Ok((if !IsTruthyProperty(system) then [MissingSystemPrompt] else [])
        + (if !IsTruthyProperty(extraction) then [MissingExtractionPrompt] else [])
        + (if !IsTruthyProperty(fields) || !IsArrayProperty(fields) then [InvalidRequiredFields] else []))
  }

  /**
   * The validation as evidently intended: a value without the three properties, `null`
   * included, gets all three warnings instead of throwing. It agrees with the
   * check as written on every other value.
   */
  function CheckPrompts(prompts: Json): (r: seq<Warning>)
    ensures !prompts.JNull? ==> ValidatePromptStructure(prompts) == Ok(r)
    ensures prompts.JNull? ==> r == [MissingSystemPrompt, MissingExtractionPrompt, InvalidRequiredFields]
  {
    if prompts.JNull? then [MissingSystemPrompt, MissingExtractionPrompt, InvalidRequiredFields]
    else ValidatePromptStructure(prompts).value
  }

  /** A value that is not an object carries none of the three properties and gets every warning. */
  lemma NonObjectGetsEveryWarning(prompts: Json)
    requires !prompts.JObject?
    ensures CheckPrompts(prompts) == [MissingSystemPrompt, MissingExtractionPrompt, InvalidRequiredFields]
  {
  }

  // ---------------------------------------------------------------------------
  // Templates
  // ---------------------------------------------------------------------------

  /** A prompt configuration with the three expected properties. */
  function Template(systemPrompt: string, extractionPrompt: string, requiredFields: seq<string>): Json {
    JObject(map[
      "system_prompt" := JString(systemPrompt),
      "extraction_prompt" := JString(extractionPrompt),
      "required_fields" := JArray(seq(|requiredFields|, i requires 0 <= i < |requiredFields| => JString(requiredFields[i])))])
  }

  /** Any configuration with non-empty prompts and a field array, an empty one included, passes the validation. */
  lemma TemplatePassesCheck(systemPrompt: string, extractionPrompt: string, requiredFields: seq<string>)
    requires systemPrompt != "" && extractionPrompt != ""
    ensures CheckPrompts(Template(systemPrompt, extractionPrompt, requiredFields)) == []
  {
    var t := Template(systemPrompt, extractionPrompt, requiredFields);
    assert Property(t, "system_prompt") == Some(JString(systemPrompt));
    assert Property(t, "extraction_prompt") == Some(JString(extractionPrompt));
    assert Property(t, "required_fields").Some? && Property(t, "required_fields").value.JArray?;
  }

  /** With both prompts present, a `required_fields` that is not an array draws exactly its own warning. */
  lemma NonArrayRequiredFieldsWarns(systemPrompt: string, extractionPrompt: string, fields: Json)
    requires systemPrompt != "" && extractionPrompt != "" && !fields.JArray?
    ensures CheckPrompts(JObject(map[
      "system_prompt" := JString(systemPrompt),
      "extraction_prompt" := JString(extractionPrompt),
      "required_fields" := fields])) == [InvalidRequiredFields]
  {
    var v := JObject(map["system_prompt" := JString(systemPrompt), "extraction_prompt" := JString(extractionPrompt), "required_fields" := fields]);
    assert Property(v, "system_prompt") == Some(JString(systemPrompt));
    assert Property(v, "extraction_prompt") == Some(JString(extractionPrompt));
    assert Property(v, "required_fields") == Some(fields);
  }

  const InvoiceSystemPrompt: string := "You are a document processing assistant specializing in invoice data extraction. Extract information accurately and return it in JSON format."
  const InvoiceExtractionPrompt: string :=
    "Extract the following information from this invoice:\n- invoice_number\n- date\n- vendor_name\n- total_amount\n- line_items (array of {description, quantity, unit_price, total})\n\nReturn the data as valid JSON."
  const InvoiceRequiredFields: seq<string> := ["invoice_number", "vendor_name", "total_amount"]
  const InvoiceTemplate: Json := Template(InvoiceSystemPrompt, InvoiceExtractionPrompt, InvoiceRequiredFields)

  const ContractSystemPrompt: string := "You are a document processing assistant specializing in contract analysis. Extract key contract information and return it in JSON format."
  const ContractExtractionPrompt: string :=
    "Extract the following information from this contract:\n- contract_title\n- parties (array of party names)\n- effective_date\n- expiration_date\n- contract_value\n- key_terms (array of important terms)\n\nReturn the data as valid JSON."
  const ContractRequiredFields: seq<string> := ["contract_title", "parties", "effective_date"]
  const ContractTemplate: Json := Template(ContractSystemPrompt, ContractExtractionPrompt, ContractRequiredFields)

  const ReceiptSystemPrompt: string := "You are a document processing assistant specializing in receipt data extraction. Extract purchase information accurately and return it in JSON format."
  const ReceiptExtractionPrompt: string :=
    "Extract the following information from this receipt:\n- merchant_name\n- transaction_date\n- total_amount\n- items (array of {name, price, quantity})\n- payment_method\n\nReturn the data as valid JSON."
  const ReceiptRequiredFields: seq<string> := ["merchant_name", "transaction_date", "total_amount"]
  const ReceiptTemplate: Json := Template(ReceiptSystemPrompt, ReceiptExtractionPrompt, ReceiptRequiredFields)

  /** Lines 11-27 and 101: the templates with their keys, in the order they are offered. */
  const DefaultPrompts: seq<(string, Json)> :=
    [("invoice", InvoiceTemplate), ("contract", ContractTemplate), ("receipt", ReceiptTemplate)]

  /** Every built-in template passes the validation. */
  lemma DefaultTemplatesPassCheck()
    ensures CheckPrompts(InvoiceTemplate) == []
    ensures CheckPrompts(ContractTemplate) == []
    ensures CheckPrompts(ReceiptTemplate) == []
  {
    TemplatePassesCheck(InvoiceSystemPrompt, InvoiceExtractionPrompt, InvoiceRequiredFields);
    TemplatePassesCheck(ContractSystemPrompt, ContractExtractionPrompt, ContractRequiredFields);
    TemplatePassesCheck(ReceiptSystemPrompt, ReceiptExtractionPrompt, ReceiptRequiredFields);
  }

  // ---------------------------------------------------------------------------
  // What the editor shows
  // ---------------------------------------------------------------------------

  /** Line 79: the parsed text (empty text read as `{}`) while it is valid, `{}` otherwise. */
  function CurrentValue(codec: JsonCodec, jsonText: string, isValidJson: bool): (r: Json)
    requires isValidJson ==> codec.parse(TextOrEmptyObject(jsonText)).Some?
    ensures isValidJson ==> codec.parse(TextOrEmptyObject(jsonText)) == Some(r)
    ensures !isValidJson ==> r == EmptyObject
  {
    if isValidJson then codec.parse(TextOrEmptyObject(jsonText)).value else EmptyObject
  }

  /**
   * Line 80 with the corrected validation: no warnings for invalid text; for valid text
   * the warnings line 80 computes, and all three for text that parses to `null`.
   */
  function Warnings(codec: JsonCodec, jsonText: string, isValidJson: bool): (r: seq<Warning>)
    requires isValidJson ==> codec.parse(TextOrEmptyObject(jsonText)).Some?
    ensures !isValidJson ==> r == []
    ensures isValidJson && !CurrentValue(codec, jsonText, isValidJson).JNull? ==>
      ValidatePromptStructure(CurrentValue(codec, jsonText, isValidJson)) == Ok(r)
    ensures isValidJson && CurrentValue(codec, jsonText, isValidJson).JNull? ==>
      r == [MissingSystemPrompt, MissingExtractionPrompt, InvalidRequiredFields]
  {
    if isValidJson then CheckPrompts(CurrentValue(codec, jsonText, isValidJson)) else []
  }

  /** Serialised text is never empty, because the empty text does not parse. */
  lemma SerialisedTextNonEmpty(codec: JsonCodec, v: Json)
    requires codec.Lawful()
    ensures codec.stringify(v) != ""
    ensures codec.parse(TextOrEmptyObject(codec.stringify(v))) == Some(v)
  {
    assert codec.parse(codec.stringify(v)) == Some(v);
  }

  /**
   * Lines 79-80 as written: text that parses to `null` is valid JSON, so the render
   * hands `null` to the validation, which throws.
   */
  lemma NullTextCrashesRender(codec: JsonCodec, text: string)
    requires codec.Lawful() && codec.parse(text) == Some(JNull)
    ensures codec.parse(TextOrEmptyObject(text)) == Some(JNull)
    ensures ValidatePromptStructure(CurrentValue(codec, text, true)).Err?
  {
    assert text != "";
  }

  /** With the corrected check, text parsing to `null` shows all three warnings. */
  lemma NullTextWarnsCorrected(codec: JsonCodec, text: string)
    requires codec.Lawful() && codec.parse(text) == Some(JNull)
    ensures codec.parse(TextOrEmptyObject(text)) == Some(JNull)
    ensures Warnings(codec, text, true) == [MissingSystemPrompt, MissingExtractionPrompt, InvalidRequiredFields]
  {
    assert text != "";
  }

  // ---------------------------------------------------------------------------
  // Editor state
  // ---------------------------------------------------------------------------

  /** The editor's own state; `codec` stands for the runtime's `JSON.parse` and `JSON.stringify`. */
  class EditorView {
    const codec: JsonCodec
    var jsonText: string
    var isValidJson: bool
    var showTemplates: bool

    /** Whenever the text is marked valid, it (or `{}` for the empty text) parses. */
    ghost predicate Valid()
      reads this
    {
      codec.Lawful() && (isValidJson ==> codec.parse(TextOrEmptyObject(jsonText)).Some?)
    }

    /** Lines 30-32. */
    constructor(codec: JsonCodec)
      requires codec.Lawful()
      ensures Valid()
      ensures this.codec == codec && jsonText == "" && isValidJson && !showTemplates
    {
      this.codec := codec;
      jsonText := "";
      isValidJson := true;
      showTemplates := false;
    }

    /**
     * Lines 34-42: a new `value` prop is serialised (a falsy one as `{}`) and marked
     * valid; the editor then shows exactly that value.
     */
    method SyncFromValue(value: Json)
      requires Valid()
      modifies this
      ensures Valid()
      ensures jsonText == codec.stringify(OrEmptyObject(value)) && isValidJson
      ensures CurrentValue(codec, jsonText, isValidJson) == OrEmptyObject(value)
      ensures showTemplates == old(showTemplates)
    {
      SerialisedTextNonEmpty(codec, OrEmptyObject(value));
      jsonText := codec.stringify(OrEmptyObject(value));
      isValidJson := true;
    }

    /**
     * Lines 44-54: the text is always stored; when it parses it is marked valid and
     * the parsed value is reported to the parent, otherwise it is marked invalid and
     * nothing is reported.
     */
    method HandleTextChange(text: string) returns (emitted: Option<Json>)
      requires Valid()
      modifies this
      ensures Valid()
      ensures jsonText == text
      ensures isValidJson <==> codec.parse(text).Some?
      ensures emitted == codec.parse(text)
      ensures isValidJson ==> CurrentValue(codec, jsonText, isValidJson) == emitted.value
      ensures showTemplates == old(showTemplates)
    {
      jsonText := text;
      var parsed := codec.parse(text);
      if parsed.Some? {
        assert text != "";
        isValidJson := true;
        emitted := parsed;
      } else {
        isValidJson := false;
        emitted := None;
      }
    }

    /**
     * Lines 56-61: the template's serialisation replaces the text, the template is
     * reported to the parent and the list closes. The validity flag is left as it was.
     */
    method HandleTemplateSelect(template: Json) returns (emitted: Json)
      requires Valid()
      modifies this
      ensures Valid()
      ensures jsonText == codec.stringify(template) && emitted == template && !showTemplates
      ensures isValidJson == old(isValidJson)
      ensures isValidJson ==> CurrentValue(codec, jsonText, isValidJson) == template
    {
      SerialisedTextNonEmpty(codec, template);
      jsonText := codec.stringify(template);
      emitted := template;
      showTemplates := false;
    }

    /** Line 90. */
    method ToggleTemplates()
      modifies this
      ensures showTemplates == !old(showTemplates)
      ensures jsonText == old(jsonText) && isValidJson == old(isValidJson)
    {
      showTemplates := !showTemplates;
    }
  }

  /**
   * Lines 56-61 after invalid text, in the render that follows the choice and precedes
   * any prop effect: the flag is left invalid, so the editor shows `{}` and no warnings
   * although its text is the template's serialisation.
   */
  method TemplateAfterInvalidText(codec: JsonCodec, badText: string, template: Json)
    returns (shown: Json, warnings: seq<Warning>)
    requires codec.Lawful() && codec.parse(badText).None?
    ensures codec.parse(codec.stringify(template)) == Some(template)
    ensures shown == EmptyObject && warnings == []
  {
    var editor := new EditorView(codec);
    var _ := editor.HandleTextChange(badText);
    var _ := editor.HandleTemplateSelect(template);
    shown := CurrentValue(editor.codec, editor.jsonText, editor.isValidJson);
    warnings := Warnings(editor.codec, editor.jsonText, editor.isValidJson);
  }

  /**
   * Lines 34-61 with the parent's `onChange` (FileTypeForm.tsx line 182): the editor
   * shows the parent's `current` value, the user types text that does not parse, then
   * picks a template. The parent stores the template and hands it back as the `value`
   * prop; the effect of lines 34-42 runs when that prop changed, and marks the text
   * valid again. Only a template equal to `current` leaves the text marked invalid.
   */
  method TemplateChoiceSettles(codec: JsonCodec, current: Json, badText: string, template: Json)
    returns (valid: bool, shown: Json, warnings: seq<Warning>)
    requires codec.Lawful() && codec.parse(badText).None?
    ensures template != current ==>
      valid && shown == OrEmptyObject(template) && warnings == CheckPrompts(OrEmptyObject(template))
    ensures template == current ==> !valid && shown == EmptyObject && warnings == []
  {
    var editor := new EditorView(codec);
    editor.SyncFromValue(current);
    var typed := editor.HandleTextChange(badText);
    assert typed.None?;
    var parentValue := editor.HandleTemplateSelect(template);
    if parentValue != current {
      editor.SyncFromValue(parentValue);
    }
    valid := editor.isValidJson;
    shown := CurrentValue(editor.codec, editor.jsonText, valid);
    warnings := Warnings(editor.codec, editor.jsonText, valid);
  }

  /**
   * Whether a value just produced by `JSON.parse` differs, under `Object.is`, from the
   * previous `value` prop, so that the effect of lines 34-42 runs. A parsed object or
   * array is a new object and always differs; a primitive differs when its value does.
   */
  predicate FreshProp(previous: Json, parsed: Json) {
    parsed.JObject? || parsed.JArray? || parsed != previous
  }

  /**
   * Lines 34-54 with the parent's `onChange` (FileTypeForm.tsx line 182): the editor
   * shows the parent's `current` value, and text that parses is reported to the parent,
   * which hands it back as the `value` prop. The effect of lines 34-42 runs only when
   * that prop changed (`FreshProp`): it then replaces the typed text by the value's serialisation,
   * showing a falsy value as `{}` although the parent keeps the falsy value. When the
   * parent already held the value (`0` typed twice), the typed text stays as it is.
   * (Text parsing to `null` is left out: its render throws first, see
   * `NullTextCrashesRender`.)
   */
  method TypedTextIsReformatted(codec: JsonCodec, current: Json, text: string)
    returns (shownText: string, valid: bool, parentValue: Json)
    requires codec.Lawful() && codec.parse(text).Some? && !codec.parse(text).value.JNull?
    ensures parentValue == codec.parse(text).value && valid
    ensures FreshProp(current, parentValue) && IsTruthy(parentValue) ==> shownText == codec.stringify(parentValue)
    ensures FreshProp(current, parentValue) && !IsTruthy(parentValue) ==> shownText == codec.stringify(EmptyObject)
    ensures FreshProp(current, parentValue) ==> codec.parse(shownText) == Some(OrEmptyObject(parentValue))
    ensures !FreshProp(current, parentValue) ==> shownText == text && parentValue == current && !parentValue.JObject?
  {
    var editor := new EditorView(codec);
    editor.SyncFromValue(current);
    var emitted := editor.HandleTextChange(text);
    parentValue := emitted.value;
    if FreshProp(current, parentValue) {
      editor.SyncFromValue(parentValue);
    }
    shownText := editor.jsonText;
    valid := editor.isValidJson;
  }
}
