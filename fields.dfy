/** Field-level validation of request data, as the serializer fields do it:
    a missing required field, null, a value of the wrong kind, blank text and
    text over the maximum length are each refused with the field's message. */
module Fields {
  import opened Wrappers
  import opened Text
  import opened Json
  import opened Http

  const RequiredMessage: string := "This field is required."
  const BlankMessage: string := "This field may not be blank."
  const NullMessage: string := "This field may not be null."
  const NotTextMessage: string := "Not a valid string."
  const NotBooleanMessage: string := "Must be a valid boolean."
  const NullCharactersMessage: string := "Null characters are not allowed."

  function MaxLengthMessage(n: nat): string {
    "Ensure this field has no more than " + Decimal(n) + " characters."
  }

  /** The text sent under `key` with surrounding whitespace removed, if text was sent. */
  function SentText(data: Object, key: string): Option<string> {
    if key in data && data[key].Str? then Some(Strip(data[key].text)) else None
  }

  /** The flag sent under `key`, if a boolean was sent. */
  function SentFlag(data: Object, key: string): Option<bool> {
    if key in data && data[key].Bool? then Some(data[key].flag) else None
  }

  /** Text a field accepts: sent as text which, once stripped, is non-blank
      unless blank is allowed, within the maximum length and free of null
      characters. */
  predicate ValidText(data: Object, key: string, allowBlank: bool, maxLength: Option<nat>) {
    && key in data && data[key].Str?
    && (allowBlank || Strip(data[key].text) != "")
    && (maxLength.None? || |Strip(data[key].text)| <= maxLength.value)
    && '\0' !in Strip(data[key].text)
  }

  /** A text field raises no error: either valid text was sent, or nothing was
      sent and the field is optional. */
  predicate TextAccepted(data: Object, key: string, required: bool, allowBlank: bool, maxLength: Option<nat>) {
    if key in data then ValidText(data, key, allowBlank, maxLength) else !required
  }

  /** An optional boolean field raises no error: nothing or a boolean was sent. */
  predicate FlagAccepted(data: Object, key: string) {
    key !in data || data[key].Bool?
  }

  /** A text field of the request data: the text with surrounding whitespace
      removed, nothing when it is absent and optional, or the message of the
      error it raises. */
  function TextField(data: Object, key: string, required: bool, allowBlank: bool, maxLength: Option<nat>)
    : (r: Result<Option<string>, string>)
    ensures r.Ok? <==> TextAccepted(data, key, required, allowBlank, maxLength)
    ensures r.Ok? ==> r.value == SentText(data, key)
    ensures r.Ok? && required ==> r.value.Some?
    ensures r.Ok? ==> (r.value.Some? <==> key in data)
    ensures r.Ok? && r.value.Some? ==>
      && key in data && data[key].Str?
      && r.value.value == Strip(data[key].text)
      && (allowBlank || r.value.value != "")
      && (maxLength.None? || |r.value.value| <= maxLength.value)
    ensures key !in data ==> r == (if required then Err(RequiredMessage) else Ok(None))
    ensures key in data && data[key].Null? ==> r == Err(NullMessage)
    ensures key in data && data[key].Bool? ==> r == Err(NotTextMessage)
    ensures key in data && data[key].Str? && !allowBlank && Strip(data[key].text) == "" ==> r == Err(BlankMessage)
    ensures && key in data && data[key].Str? && (allowBlank || Strip(data[key].text) != "")
            && maxLength.Some? && |Strip(data[key].text)| > maxLength.value
      ==> r == Err(MaxLengthMessage(maxLength.value))
    ensures && key in data && data[key].Str? && (allowBlank || Strip(data[key].text) != "")
            && (maxLength.None? || |Strip(data[key].text)| <= maxLength.value)
            && '\0' in Strip(data[key].text)
      ==> r == Err(NullCharactersMessage)
  {
    if key !in data then (if required then Err(RequiredMessage) else Ok(None))
    else match data[key]
      case Null => Err(NullMessage)
      case Bool(_) => Err(NotTextMessage)
      case Str(t) =>
        var text := Strip(t);
        if text == "" && !allowBlank then Err(BlankMessage)
        else if maxLength.Some? && |text| > maxLength.value then Err(MaxLengthMessage(maxLength.value))
        else if '\0' in text then Err(NullCharactersMessage)
        else Ok(Some(text))
  }

  /** An optional boolean field of the request data. */
  function BooleanField(data: Object, key: string): (r: Result<Option<bool>, string>)
    ensures r.Ok? <==> FlagAccepted(data, key)
    ensures r.Ok? ==> r.value == SentFlag(data, key)
    ensures key !in data ==> r == Ok(None)
    ensures r.Ok? ==> (r.value.Some? <==> key in data)
    ensures r.Ok? && r.value.Some? ==> data[key] == Bool(r.value.value)
    ensures key in data && data[key].Null? ==> r == Err(NullMessage)
    ensures key in data && data[key].Str? ==> r == Err(NotBooleanMessage)
  {
    if key !in data then Ok(None)
    else match data[key]
      case Null => Err(NullMessage)
      case Bool(b) => Ok(Some(b))
      case Str(_) => Err(NotBooleanMessage)
  }

  /** The error a field contributes to the response, if any. */
  function ErrorsOf<T>(key: string, r: Result<T, string>): (es: seq<ValidationError>)
    ensures r.Ok? <==> es == []
    ensures r.Err? ==> es == [FieldError(key, r.error)]
  {
    if r.Err? then [FieldError(key, r.error)] else []
  }

  /** A field's outcome depends only on the field's own entry. */
  lemma FieldsAgree(d1: Object, d2: Object, key: string)
    requires key in d1 <==> key in d2
    requires key in d1 ==> d1[key] == d2[key]
    ensures BooleanField(d1, key) == BooleanField(d2, key)
    ensures forall required, allowBlank, maxLength ::
      TextField(d1, key, required, allowBlank, maxLength) == TextField(d2, key, required, allowBlank, maxLength)
  {
  }
}
