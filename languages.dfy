/** The fixed table of languages offered by every language selection box. */
module Languages {
  import opened Wrappers

  /** The language names, in the order the selection boxes list them. */
  const Names: seq<string> := ["Hindi", "Tamil", "French", "German", "Spanish", "Japanese"]

  /** The code of each name in Names, position by position. */
  const Codes: seq<string> := ["hi", "ta", "fr", "de", "es", "ja"]

  /** The name-to-code dictionary itself. */
  const Table: map<string, string> :=
    map["Hindi" := "hi", "Tamil" := "ta", "French" := "fr",
        "German" := "de", "Spanish" := "es", "Japanese" := "ja"]

  /** Looks a name up in the table; a name outside the table has no code. */
  function Lookup(name: string): (r: Option<string>)
    ensures r.Some? <==> name in Names
    ensures forall i :: 0 <= i < |Names| && Names[i] == name ==> r == Some(Codes[i])
  {
    if name in Table then Some(Table[name]) else None
  }

  /** Subscripting the table with a name taken from a selection box. */
  function CodeOf(name: string): (code: string)
    requires name in Names
    ensures Lookup(name) == Some(code)
    ensures code in Codes
  {
    Table[name]
  }
}
