/** How one accelerometer column is drawn and exported (`models/data_display.py`). The
    fields are stored and written back verbatim, whatever JSON value they hold. */
module DataDisplays {
  import opened Wrappers
  import Json

  datatype DataDisplay = DataDisplay(
    inputName: Json.Value, displayName: Json.Value, color: Json.Value, alpha: Json.Value, outputName: Json.Value)

  const Keys: set<string> := {"input_name", "display_name", "color", "alpha", "output_name"}

  /** `to_dict`: one key per field, and no other. */
  function ToDict(d: DataDisplay): (r: Json.Value)
    ensures r.Obj? && r.fields.Keys == Keys
  {
    Json.Obj(map["input_name" := d.inputName, "display_name" := d.displayName, "color" := d.color,
                 "alpha" := d.alpha, "output_name" := d.outputName])
  }

  /** Reads the five keys in constructor order; the first missing one is a KeyError. */
  function FromDict(data: Json.Value): (r: Result<DataDisplay>)
    ensures r.Ok? <==> data.Obj? && Keys <= data.fields.Keys
    ensures r.Ok? ==> ToDict(r.value).fields == map k | k in Keys :: data.fields[k]
  {
    var inputName :- Json.Get(data, "input_name");
    var displayName :- Json.Get(data, "display_name");
    var color :- Json.Get(data, "color");
    var alpha :- Json.Get(data, "alpha");
    var outputName :- Json.Get(data, "output_name");
    Ok(DataDisplay(inputName, displayName, color, alpha, outputName))
  }

  /** `to_dict` writes exactly the five keys and `from_dict` reads every field back. */
  lemma DictRoundTrip(d: DataDisplay)
    ensures ToDict(d).fields.Keys == Keys
    ensures FromDict(ToDict(d)) == Ok(d)
  {
  }

  /** A dict is accepted exactly when it has all five keys. */
  lemma FromDictAccepts(fields: map<string, Json.Value>)
    ensures FromDict(Json.Obj(fields)).Ok? <==> Keys <= fields.Keys
  {
  }
}
