/**
 * The raw input every model operation receives: a submitted form, that is a
 * mapping from field name to the text the user typed, and the two ways the
 * models read it (`data.get(key)` and `data.get(key, "")`).
 */
module FormData {

  datatype Option<+T> = None | Some(value: T)

  /** A submitted form: field name to raw text. */
  type Data = map<string, string>

  /** A validator's result: field name to error message; empty means valid. */
  type Errors = map<string, string>

  /** `data.get(key)`: the value, or nothing when the key is absent. */
  function Get(data: Data, key: string): (r: Option<string>)
    ensures r.Some? <==> key in data
    ensures r.Some? ==> r.value == data[key]
  {
    if key in data then Some(data[key]) else None
  }

  /** `data.get(key, "")`: an absent key reads as the empty string. */
  function Field(data: Data, key: string): (r: string)
    ensures key !in data ==> r == ""
    ensures key in data ==> r == data[key]
  {
    match Get(data, key)
    case Some(v) => v
    case None => ""
  }

  /**
   * Python's `supplied or current` on text: the supplied text when it is
   * truthy (non-empty), the current value otherwise.
   */
  function Overlay(supplied: string, current: string): (r: string)
    ensures supplied != "" ==> r == supplied
    ensures supplied == "" ==> r == current
  {
    if supplied != "" then supplied else current
  }
}
