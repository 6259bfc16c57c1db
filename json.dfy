/**
 * Parsed JSON documents, as the voice catalogue arrives from the vendor's
 * `/api/robot/platform` endpoint (or from a cached copy of it). Numbers are
 * kept to integers: the catalogue code only tests them for truthiness.
 */
module Json {

  datatype Json =
    | Null
    | Bool(b: bool)
    | Num(n: int)
    | Str(s: string)
    | Arr(items: seq<Json>)
    | Obj(fields: map<string, Json>)

  /** `data[key]` on an object that has the key. */
  function Field(j: Json, key: string): (v: Json)
    requires j.Obj? && key in j.fields
    ensures v in j.fields.Values
  {
    j.fields[key]
  }

  /** The document `{"data": {"list": items}}` that the vendor sends for a catalogue of `items`. */
  function CatalogueDocument(items: seq<Json>): (j: Json)
    ensures j.Obj? && "data" in j.fields && Field(j, "data").Obj?
    ensures "list" in Field(j, "data").fields && Field(Field(j, "data"), "list") == Arr(items)
  {
    Obj(map["data" := Obj(map["list" := Arr(items)])])
  }

  /** A catalogue entry with the three members both clients read. */
  function Entry(tag: string, title: string, icon: string): (j: Json)
    ensures j.Obj? && j.fields.Keys == {"tag", "title", "icon"}
    ensures Field(j, "tag") == Str(tag) && Field(j, "title") == Str(title) && Field(j, "icon") == Str(icon)
  {
    Obj(map["tag" := Str(tag), "title" := Str(title), "icon" := Str(icon)])
  }
}
