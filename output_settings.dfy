/** How output files are generated (`models/output_settings.py`): three enums stored by
    their string values and three numbers stored verbatim. */
module OutputSettingsModel {
  import opened Wrappers
  import Json

  datatype OutputType = Bebe | Other
  datatype DownsampleMethod = Average | NthValue
  datatype OutputPeriod = EntireInput | LabeledWithBuffer

  function OutputTypeValue(t: OutputType): string
  {
    match t
    case Bebe => "bebe"
    case Other => "other"
  }

  function DownsampleMethodValue(m: DownsampleMethod): string
  {
    match m
    case Average => "average"
    case NthValue => "nth_value"
  }

  function OutputPeriodValue(p: OutputPeriod): string
  {
    match p
    case EntireInput => "entire_input"
    case LabeledWithBuffer => "labeled_with_buffer"
  }

  /** `OutputType(v)`: the member whose value is `v`, else ValueError. */
  function ParseOutputType(v: Json.Value): (r: Result<OutputType>)
    ensures r.Ok? <==> v == Json.Str("bebe") || v == Json.Str("other")
    ensures r.Ok? ==> v == Json.Str(OutputTypeValue(r.value))
  {
    if v == Json.Str("bebe") then Ok(Bebe)
    else if v == Json.Str("other") then Ok(Other)
    else Err(ValueError("not a valid OutputType"))
  }

  function ParseDownsampleMethod(v: Json.Value): (r: Result<DownsampleMethod>)
    ensures r.Ok? <==> v == Json.Str("average") || v == Json.Str("nth_value")
    ensures r.Ok? ==> v == Json.Str(DownsampleMethodValue(r.value))
  {
    if v == Json.Str("average") then Ok(Average)
    else if v == Json.Str("nth_value") then Ok(NthValue)
    else Err(ValueError("not a valid DownsampleMethod"))
  }

  function ParseOutputPeriod(v: Json.Value): (r: Result<OutputPeriod>)
    ensures r.Ok? <==> v == Json.Str("entire_input") || v == Json.Str("labeled_with_buffer")
    ensures r.Ok? ==> v == Json.Str(OutputPeriodValue(r.value))
  {
    if v == Json.Str("entire_input") then Ok(EntireInput)
    else if v == Json.Str("labeled_with_buffer") then Ok(LabeledWithBuffer)
    else Err(ValueError("not a valid OutputPeriod"))
  }

  datatype OutputSettings = OutputSettings(
    outputType: OutputType,
    downsampleMethod: DownsampleMethod,
    outputPeriod: OutputPeriod,
    outputFrequency: Json.Value,
    bufferMinutes: Json.Value,
    roundToMinutes: Json.Value)

  /** `OutputSettings()` with every argument left at its default. */
  const Default := OutputSettings(Bebe, Average, EntireInput, Json.Int(16), Json.Int(5), Json.Int(1))

  const Keys: set<string> :=
    {"output_type", "downsample_method", "output_period", "output_frequency", "buffer_minutes", "round_to_minutes"}

  /** `to_dict`: the six keys, each enum written as a value its lookup takes back. */
  function ToDict(s: OutputSettings): (r: Json.Value)
    ensures r.Obj? && r.fields.Keys == Keys
    ensures ParseOutputType(r.fields["output_type"]) == Ok(s.outputType)
    ensures ParseDownsampleMethod(r.fields["downsample_method"]) == Ok(s.downsampleMethod)
    ensures ParseOutputPeriod(r.fields["output_period"]) == Ok(s.outputPeriod)
  {
    Json.Obj(map["output_type" := Json.Str(OutputTypeValue(s.outputType)),
                 "downsample_method" := Json.Str(DownsampleMethodValue(s.downsampleMethod)),
                 "output_period" := Json.Str(OutputPeriodValue(s.outputPeriod)),
                 "output_frequency" := s.outputFrequency,
                 "buffer_minutes" := s.bufferMinutes,
                 "round_to_minutes" := s.roundToMinutes])
  }

  /** Every missing key takes the constructor's default; enum strings are looked up. */
  function FromDict(data: Json.Value): (r: Result<OutputSettings>)
    ensures r.Ok? <==> (data.Obj? &&
      ("output_type" in data.fields ==> ParseOutputType(data.fields["output_type"]).Ok?) &&
      ("downsample_method" in data.fields ==> ParseDownsampleMethod(data.fields["downsample_method"]).Ok?) &&
      ("output_period" in data.fields ==> ParseOutputPeriod(data.fields["output_period"]).Ok?))
    ensures r.Ok? && "output_type" in data.fields ==>
      data.fields["output_type"] == Json.Str(OutputTypeValue(r.value.outputType))
    ensures r.Ok? && "downsample_method" in data.fields ==>
      data.fields["downsample_method"] == Json.Str(DownsampleMethodValue(r.value.downsampleMethod))
    ensures r.Ok? && "output_period" in data.fields ==>
      data.fields["output_period"] == Json.Str(OutputPeriodValue(r.value.outputPeriod))
  {
    if !data.Obj? then Err(AttributeError("get"))
    else
      var f := data.fields;
      var outputType :- ParseOutputType(Json.Lookup(f, "output_type", Json.Str(OutputTypeValue(Default.outputType))));
      var downsample :- ParseDownsampleMethod(
        Json.Lookup(f, "downsample_method", Json.Str(DownsampleMethodValue(Default.downsampleMethod))));
      var period :- ParseOutputPeriod(Json.Lookup(f, "output_period", Json.Str(OutputPeriodValue(Default.outputPeriod))));
      Ok(OutputSettings(outputType, downsample, period,
                        Json.Lookup(f, "output_frequency", Default.outputFrequency),
                        Json.Lookup(f, "buffer_minutes", Default.bufferMinutes),
                        Json.Lookup(f, "round_to_minutes", Default.roundToMinutes)))
  }

  /** `from_dict(to_dict(s))` equals `s` field by field. */
  lemma DictRoundTrip(s: OutputSettings)
    ensures FromDict(ToDict(s)) == Ok(s)
  {
  }

  /** An empty dict gives the constructor's defaults. */
  lemma EmptyDictGivesDefaults()
    ensures FromDict(Json.Obj(map[])) == Ok(Default)
  {
  }

  /** Key by key: whatever else the dict holds, a missing key gives the constructor's default
      for its field, and a present number is taken as it is. */
  lemma MissingKeysTakeDefaults(fields: map<string, Json.Value>)
    requires FromDict(Json.Obj(fields)).Ok?
    ensures var s := FromDict(Json.Obj(fields)).value;
      ("output_type" !in fields ==> s.outputType == Default.outputType) &&
      ("downsample_method" !in fields ==> s.downsampleMethod == Default.downsampleMethod) &&
      ("output_period" !in fields ==> s.outputPeriod == Default.outputPeriod) &&
      ("output_frequency" !in fields ==> s.outputFrequency == Default.outputFrequency) &&
      ("buffer_minutes" !in fields ==> s.bufferMinutes == Default.bufferMinutes) &&
      ("round_to_minutes" !in fields ==> s.roundToMinutes == Default.roundToMinutes)
    ensures var s := FromDict(Json.Obj(fields)).value;
      ("output_frequency" in fields ==> s.outputFrequency == fields["output_frequency"]) &&
      ("buffer_minutes" in fields ==> s.bufferMinutes == fields["buffer_minutes"]) &&
      ("round_to_minutes" in fields ==> s.roundToMinutes == fields["round_to_minutes"])
  {
  }

  /** Only a present enum string can make `from_dict` fail: a dict without the three enum keys
      always loads. */
  lemma WithoutEnumsLoads(fields: map<string, Json.Value>)
    requires "output_type" !in fields && "downsample_method" !in fields && "output_period" !in fields
    ensures FromDict(Json.Obj(fields)).Ok?
  {
  }

  /** A present but unknown output type is a ValueError. */
  lemma UnknownOutputType(fields: map<string, Json.Value>)
    requires "output_type" in fields
    requires fields["output_type"] != Json.Str("bebe") && fields["output_type"] != Json.Str("other")
    ensures FromDict(Json.Obj(fields)).Err? && FromDict(Json.Obj(fields)).error.ValueError?
  {
  }
}
