/** How labels of one behaviour are drawn and exported (`models/label_display.py`). The
    fields are stored and written back verbatim. */
module LabelDisplays {
  import opened Wrappers
  import Json

  datatype LabelDisplay = LabelDisplay(
    displayName: Json.Value, color: Json.Value, alpha: Json.Value, outputValue: Json.Value)

  const Keys: set<string> := {"display_name", "color", "alpha", "output_value"}

  /** `to_dict`: one key per field, and no other. */
  function ToDict(d: LabelDisplay): (r: Json.Value)
    ensures r.Obj? && r.fields.Keys == Keys
  {
    Json.Obj(map["display_name" := d.displayName, "color" := d.color, "alpha" := d.alpha,
                 "output_value" := d.outputValue])
  }

  /** Reads the four keys in constructor order; the first missing one is a KeyError. */
  function FromDict(data: Json.Value): (r: Result<LabelDisplay>)
    ensures r.Ok? <==> data.Obj? && Keys <= data.fields.Keys
    ensures r.Ok? ==> ToDict(r.value).fields == map k | k in Keys :: data.fields[k]
  {
    var displayName :- Json.Get(data, "display_name");
    var color :- Json.Get(data, "color");
    var alpha :- Json.Get(data, "alpha");
    var outputValue :- Json.Get(data, "output_value");
    Ok(LabelDisplay(displayName, color, alpha, outputValue))
  }

  /** `to_dict` writes exactly the four keys and `from_dict` reads every field back. */
  lemma DictRoundTrip(d: LabelDisplay)
    ensures ToDict(d).fields.Keys == Keys
    ensures FromDict(ToDict(d)) == Ok(d)
  {
  }

  /** A dict is accepted exactly when it has all four keys. */
  lemma FromDictAccepts(fields: map<string, Json.Value>)
    ensures FromDict(Json.Obj(fields)).Ok? <==> Keys <= fields.Keys
  {
  }
}
