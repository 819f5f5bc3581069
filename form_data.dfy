/**
 * Multipart form data as the routes read it: an ordered list of named
 * entries, each a string or an uploaded file.
 */
module FormData {
  import opened Wrappers

  datatype Value = Str(text: string) | Blob(fileName: string, bytes: seq<bv8>)

  datatype Entry = Entry(name: string, value: Value)

  /** `formData.get(name)`: the value of the first entry with that name. */
  function Get(entries: seq<Entry>, name: string): (r: Option<Value>)
    ensures r.None? <==> forall i :: 0 <= i < |entries| ==> entries[i].name != name
    ensures r.Some? ==>
      exists i :: 0 <= i < |entries| && entries[i] == Entry(name, r.value)
        && forall j :: 0 <= j < i ==> entries[j].name != name
  {
    if entries == [] then None
    else if entries[0].name == name then Some(entries[0].value)
    else Get(entries[1..], name)
  }

  /** `formData.get(name) as string || ''`: the text of a string entry, and
      the empty string when there is none. */
  function TextField(entries: seq<Entry>, name: string): string {
    match Get(entries, name)
    case Some(Str(t)) => t
    case _ => ""
  }

  /** JavaScript truthiness of `formData.get(name)`: a file is always truthy,
      a string when it is not empty. */
  predicate Truthy(v: Option<Value>) {
    match v
    case None => false
    case Some(Str(t)) => t != ""
    case Some(Blob(_, _)) => true
  }
}
