/** How input files are read (`models/input_settings.py`). */
module InputSettingsModel {
  import opened Wrappers
  import Json

  datatype InputType = VectronicMotion

  /** The stored `input_type`: an enum member, or whatever other value was passed in. */
  datatype TypeField = Known(t: InputType) | Unknown(v: Json.Value)

  datatype InputSettings = InputSettings(inputType: TypeField, inputFrequency: Json.Value)

  const InputTypeValue := "VectronicMotion"

  /** `validate()`: the type must be an enum member and the frequency a positive number;
      a frequency python cannot compare with 0 is a TypeError. */
  function Validate(s: InputSettings): (r: Result<()>)
    ensures r.Ok? <==> s.inputType.Known?
                       && ((s.inputFrequency.Int? && s.inputFrequency.i > 0)
                           || (s.inputFrequency.Float? && s.inputFrequency.r > 0.0)
                           || s.inputFrequency == Json.Bool(true))
  {
    if !s.inputType.Known? then Err(ValueError("Invalid input type specified."))
    else match s.inputFrequency
      case Int(i) => if i <= 0 then Err(ValueError("Input frequency must be a positive integer.")) else Ok(())
      case Float(x) => if x <= 0.0 then Err(ValueError("Input frequency must be a positive integer.")) else Ok(())
      case Bool(b) => if !b then Err(ValueError("Input frequency must be a positive integer.")) else Ok(())
      case _ => Err(TypeError)
  }

  /** `to_dict()`: a type that is not an enum member has no `.value`. */
  function ToDict(s: InputSettings): (r: Result<Json.Value>)
    ensures r.Ok? <==> s.inputType.Known?
  {
    if !s.inputType.Known? then Err(AttributeError("value"))
    else Ok(Json.Obj(map["input_type" := Json.Str(InputTypeValue), "input_frequency" := s.inputFrequency]))
  }

  /** `from_dict`: a missing type becomes "UnknownInputType", which is no member, and a
      missing frequency becomes 0. */
  function FromDict(data: Json.Value): (r: Result<InputSettings>)
    ensures r.Ok? <==> data.Obj? && "input_type" in data.fields && data.fields["input_type"] == Json.Str(InputTypeValue)
    ensures r.Ok? ==> r.value.inputType.Known?
    ensures r.Ok? ==>
      r.value.inputFrequency == if "input_frequency" in data.fields then data.fields["input_frequency"] else Json.Int(0)
  {
    if !data.Obj? then Err(AttributeError("get"))
    else if Json.Lookup(data.fields, "input_type", Json.Str("UnknownInputType")) != Json.Str(InputTypeValue) then
      Err(ValueError("not a valid InputType"))
    else Ok(InputSettings(Known(VectronicMotion), Json.Lookup(data.fields, "input_frequency", Json.Int(0))))
  }

  /** Settings with an enum type survive `to_dict`/`from_dict` unchanged. */
  lemma DictRoundTrip(s: InputSettings)
    requires s.inputType.Known?
    ensures FromDict(ToDict(s).value) == Ok(s)
  {
    assert s.inputType == Known(VectronicMotion) by {
      match s.inputType.t
      case VectronicMotion =>
    }
  }

  /** Without an `input_type` key the dict is rejected. */
  lemma MissingTypeRejected(fields: map<string, Json.Value>)
    requires "input_type" !in fields
    ensures FromDict(Json.Obj(fields)) == Err(ValueError("not a valid InputType"))
  {
  }

  /** Without an `input_frequency` key the frequency is 0, which `validate` rejects. */
  lemma MissingFrequencyInvalid(fields: map<string, Json.Value>)
    requires "input_frequency" !in fields && FromDict(Json.Obj(fields)).Ok?
    ensures FromDict(Json.Obj(fields)).value.inputFrequency == Json.Int(0)
    ensures Validate(FromDict(Json.Obj(fields)).value).Err?
  {
  }
}
