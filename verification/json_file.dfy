/**
 The persisted JSON file, abstracted to what the loader can observe of it:
 absent, rejected by the JSON parser, parsed to something other than a list,
 or a list of daily records. Encoding and decoding JSON are not modelled.
 */
module JsonFile {
  import opened Records

  datatype FileContent =
    | Missing                       // the path does not exist
    | Malformed                     // json.load raises JSONDecodeError
    | NonList                       // valid JSON whose top-level value is not a list
    | List(records: seq<Record>)    // a JSON array of day records

  /** The loader's view of the file: every unusable file is the empty history. */
  function ReadJsonFile(f: FileContent): (s: seq<Record>)
    ensures f.List? ==> s == f.records
    ensures !f.List? ==> s == []
  {
    match f
    case List(records) => records
    case _ => []
  }

  /** Writing the store rewrites the whole file with the list. */
  function SaveData(s: seq<Record>): (f: FileContent)
    ensures f.List?
  {
    List(s)
  }

  /** What was saved is what is read back. */
  lemma SaveThenRead(s: seq<Record>)
    ensures ReadJsonFile(SaveData(s)) == s
  {
  }
}
