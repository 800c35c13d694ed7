/**
 * The persisted configuration record (`~/.config/claude-panel/config.json`) held in memory.
 * Reading and writing the file are not modelled: a file that is missing, unreadable or not
 * valid JSON is the value None where a record is loaded.
 */
module PanelConfig {
  import opened Wrappers

  /** The record's three fields; a field absent from the stored JSON object is None. */
  datatype Config = Config(permissionMode: Option<string>, chatHeight: Option<real>, chatWidth: Option<real>)

  /** The record used when no file could be loaded. */
  const DefaultConfig: Config := Config(Some("normal"), Some(400.0), Some(400.0))
  const DefaultMode: string := "normal"
  const DefaultSize: real := 400.0

  /** JavaScript `v || d` for a string field: an absent field and "" are falsy. */
  function StringOr(v: Option<string>, d: string): (r: string)
    ensures v.Some? && v.value != "" ==> r == v.value
    ensures v.None? || v == Some("") ==> r == d
  {
    if v.Some? && v.value != "" then v.value else d
  }

  /** JavaScript `v || d` for a number field: an absent field and 0 are falsy. */
  function NumberOr(v: Option<real>, d: real): (r: real)
    ensures v.Some? && v.value != 0.0 ==> r == v.value
    ensures v.None? || v == Some(0.0) ==> r == d
  {
    if v.Some? && v.value != 0.0 then v.value else d
  }
}
